/** The RAM actions as the contract runs them, on fields updated in place. A trade is two legs that
    each rewrite the market; a failed check puts the saved market back. */
module RamContract {
  import opened Sums
  import opened RamMath
  import opened RamMarket

  class RamMarketContract {
    const power: nat
    var supply: int
    var base: int
    var quote: int
    var maxRam: int
    var reserved: int
    var stake: int
    var users: map<Name, int>
    var vault: int

    ghost function GetMarket(): Market
      reads this
    {
      Market(power, supply, base, quote)
    }

    ghost function View(): State
      reads this
    {
      State(GetMarket(), maxRam, reserved, stake, users, vault)
    }

    /** The market is created from the RAM size and the core token supply. */
    constructor (power: nat, maxRam: int, tokenSupply: int)
      ensures View() == Opened(power, maxRam, tokenSupply)
    {
      this.power := power;
      supply, base, quote := 100000000000000, maxRam, tokenSupply / 1000;
      this.maxRam, reserved, stake, users, vault := maxRam, 0, 0, map[], 0;
    }

    method ConvertToExchange(s: Symbol, amount: int) returns (issued: Option<int>)
      requires s == Ram || s == Core
      modifies this`supply, this`base, this`quote
      ensures match RamMarket.ConvertToExchange(old(GetMarket()), s, amount)
              case None => issued == None && GetMarket() == old(GetMarket())
              case Some(r) => issued == Some(r.1) && GetMarket() == r.0
    {
      var c := (if s == Ram then base else quote) + amount;
      if amount < 0 || supply <= 0 || c <= 0 {
        return None;
      }
      var e := Issued(power, supply, c, amount);
      supply := supply + e;
      if s == Ram { base := c; } else { quote := c; }
      return Some(e);
    }

    method ConvertFromExchange(s: Symbol, amount: int) returns (out: Option<int>)
      requires s == Ram || s == Core
      modifies this`supply, this`base, this`quote
      ensures match RamMarket.ConvertFromExchange(old(GetMarket()), s, amount)
              case None => out == None && GetMarket() == old(GetMarket())
              case Some(r) => out == Some(r.1) && GetMarket() == r.0
    {
      var c := if s == Ram then base else quote;
      if amount < 0 || supply - amount <= 0 || c < 0 {
        return None;
      }
      var t := Redeemed(power, supply - amount, c, amount);
      supply := supply - amount;
      if s == Ram { base := c - t; } else { quote := c - t; }
      return Some(t);
    }

    /** One leg per call; a trade between connectors calls itself once more. */
    method Convert(amount: int, from: Symbol, to: Symbol) returns (out: Option<int>)
      modifies this`supply, this`base, this`quote
      ensures match RamMarket.Convert(old(GetMarket()), amount, from, to)
              case None => out == None
              case Some(r) => out == Some(r.1) && GetMarket() == r.0
      decreases from != RamCore
    {
      if from == Ram || from == Core {
        out := ConvertToExchange(from, amount);
        if out.Some? && to != RamCore {
          out := Convert(out.value, RamCore, to);
        }
      } else if from == RamCore && (to == Ram || to == Core) {
        out := ConvertFromExchange(to, amount);
      } else {
        out := None;
      }
    }

    method BuyRam(receiver: Name, quant: int, funds: int) returns (ok: bool)
      modifies this
      ensures RamMarket.BuyRam(old(View()), receiver, quant, funds) == if ok then Some(View()) else None
      ensures !ok ==> View() == old(View())
    {
      hide RamMarket.Convert;
      if quant <= 0 || quant - Fee(quant) <= 0 || funds < quant {
        return false;
      }
      var paid := quant - Fee(quant);
      var savedSupply, savedBase, savedQuote := supply, base, quote;
      var bytes := Convert(paid, Core, Ram);
      if bytes.None? || bytes.value <= 0 {
        supply, base, quote := savedSupply, savedBase, savedQuote;
        return false;
      }
      vault := vault + paid;
      reserved := reserved + bytes.value;
      stake := stake + paid;
      if receiver !in users {
        users := users[receiver := bytes.value];
      } else {
        users := users[receiver := users[receiver] + bytes.value];
      }
      return true;
    }

    /** Prices the bytes on a copy of the market, then buys for that price. */
    method BuyRamBytes(receiver: Name, bytes: nat, funds: int) returns (ok: bool)
      modifies this
      ensures RamMarket.BuyRamBytes(old(View()), receiver, bytes, funds) == if ok then Some(View()) else None
      ensures !ok ==> View() == old(View())
    {
      hide RamMarket.Convert, RamMarket.BuyRam;
      var savedSupply, savedBase, savedQuote := supply, base, quote;
      var price := Convert(bytes, Ram, Core);
      supply, base, quote := savedSupply, savedBase, savedQuote;
      if price.None? {
        return false;
      }
      ok := BuyRam(receiver, price.value, funds);
    }

    method SellRam(x: Name, bytes: int) returns (ok: bool)
      modifies this
      ensures RamMarket.SellRam(old(View()), x, bytes) == if ok then Some(View()) else None
      ensures !ok ==> View() == old(View())
    {
      hide RamMarket.Convert;
      if bytes <= 0 || x !in users || users[x] < bytes {
        return false;
      }
      var savedSupply, savedBase, savedQuote := supply, base, quote;
      var tokens := Convert(bytes, Ram, Core);
      if tokens.None? || tokens.value <= 1 || stake - tokens.value < 0 || vault < tokens.value {
        supply, base, quote := savedSupply, savedBase, savedQuote;
        return false;
      }
      reserved := reserved - bytes;
      stake := stake - tokens.value;
      users := users[x := users[x] - bytes];
      vault := vault - tokens.value;
      return true;
    }

    method SetRam(size: int) returns (ok: bool)
      modifies this
      ensures RamMarket.SetRam(old(View()), size) == if ok then Some(View()) else None
      ensures !ok ==> View() == old(View())
    {
      if !(maxRam < size) || !(size < RAM_LIMIT) || !(size > reserved) {
        return false;
      }
      base := base + (size - maxRam);
      maxRam := size;
      return true;
    }
  }
}
