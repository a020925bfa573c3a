/** The token actions on rows updated in place. */
module TokenContract {
  import opened Sums
  import opened Token

  class Ledger {
    var stats: map<Code, Stat>
    var balances: map<(Name, Code), int>

    ghost function View(): State
      reads this
    {
      State(stats, balances)
    }

    constructor ()
      ensures View() == EMPTY
    {
      stats, balances := map[], map[];
    }

    method Create(issuer: Name, sym: Symbol, maximum: int) returns (ok: bool)
      modifies this
      ensures Token.Create(old(View()), issuer, sym, maximum) == if ok then Some(View()) else None
      ensures !ok ==> View() == old(View())
    {
      if !InRange(maximum) || maximum <= 0 || sym.code in stats {
        return false;
      }
      stats := stats[sym.code := Stat(sym.precision, 0, maximum, issuer)];
      ok := true;
    }

    method SubBalance(x: Name, c: Code, amount: int) returns (ok: bool)
      modifies this`balances
      ensures Token.SubBalance(old(View()), x, c, amount) == if ok then Some(View()) else None
      ensures !ok ==> View() == old(View())
    {
      var k := (x, c);
      if k !in balances || balances[k] < amount {
        return false;
      }
      if balances[k] == amount {
        balances := balances - {k};
      } else {
        var v := SubAmount(balances[k], amount);
        if v.None? { return false; }
        balances := balances[k := v.value];
      }
      ok := true;
    }

    method AddBalance(x: Name, c: Code, amount: int) returns (ok: bool)
      modifies this`balances
      ensures Token.AddBalance(old(View()), x, c, amount) == if ok then Some(View()) else None
      ensures !ok ==> View() == old(View())
    {
      var k := (x, c);
      if k !in balances {
        balances := balances[k := amount];
      } else {
        var v := AddAmount(balances[k], amount);
        if v.None? { return false; }
        balances := balances[k := v.value];
      }
      ok := true;
    }

    /** Takes from one row, then adds to the other; a failure of the second undoes the first. */
    method Transfer(from: Name, to: Name, sym: Symbol, amount: int, exists_: bool) returns (ok: bool)
      modifies this`balances
      ensures Token.Transfer(old(View()), from, to, sym, amount, exists_) == if ok then Some(View()) else None
      ensures !ok ==> View() == old(View())
    {
      hide Token.SubBalance, Token.AddBalance;
      if from == to || !exists_ || sym.code !in stats || !InRange(amount) || amount <= 0
         || sym.precision != stats[sym.code].precision {
        return false;
      }
      var saved := balances;
      ok := SubBalance(from, sym.code, amount);
      if !ok { return; }
      ok := AddBalance(to, sym.code, amount);
      if !ok { balances := saved; }
    }

    /** Raises the supply, credits the issuer, and forwards the tokens when they are for somebody else. */
    method Issue(to: Name, sym: Symbol, amount: int, exists_: bool) returns (ok: bool)
      modifies this
      ensures Token.Issue(old(View()), to, sym, amount, exists_) == if ok then Some(View()) else None
      ensures !ok ==> View() == old(View())
    {
      hide Token.AddBalance, Token.Transfer;
      if sym.code !in stats || !InRange(amount) || amount <= 0 || sym.precision != stats[sym.code].precision
         || amount > stats[sym.code].maximum - stats[sym.code].supply {
        return false;
      }
      var savedStats, savedBalances := stats, balances;
      var issuer := stats[sym.code].issuer;
      var supply := AddAmount(stats[sym.code].supply, amount);
      if supply.None? { return false; }
      stats := stats[sym.code := stats[sym.code].(supply := supply.value)];
      ok := AddBalance(issuer, sym.code, amount);
      if ok && to != issuer {
        ok := Transfer(issuer, to, sym, amount, exists_);
      }
      if !ok {
        stats, balances := savedStats, savedBalances;
      }
    }
  }
}
