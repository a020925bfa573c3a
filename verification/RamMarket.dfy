/** The RAM market: a relay token between two connectors, bytes of RAM (`base`) and core tokens
    (`quote`), and the actions that trade on it. Conversions use exact arithmetic. */
module RamMarket {
  import opened Sums
  import opened RamMath

  type Name = nat

  datatype Symbol = RamCore | Ram | Core | Foreign

  /** `power` is 1000 / weight; the contract's weight of .5 gives 2000. */
  datatype Market = Market(power: nat, supply: int, base: int, quote: int) {
    predicate Sound() { power >= 2 && supply > 0 && base > 0 && quote >= 0 }
  }

  function Balance(m: Market, s: Symbol): int
    requires s == Ram || s == Core
  {
    if s == Ram then m.base else m.quote
  }

  function SetBalance(m: Market, s: Symbol, v: int): Market
    requires s == Ram || s == Core
  {
    if s == Ram then m.(base := v) else m.(quote := v)
  }

  // ---------------------------------------------------------------- conversions

  /** A deposit into connector `s` issues relay units. The quotient t/c is not defined when the
      connector stays empty, nor is the result for an empty supply. */
  function ConvertToExchange(m: Market, s: Symbol, amount: int): Option<(Market, int)>
    requires s == Ram || s == Core
  {
    var c := Balance(m, s) + amount;
    if amount < 0 || m.supply <= 0 || c <= 0 then None else
      var e := Issued(m.power, m.supply, c, amount);
      Some((SetBalance(m, s, c).(supply := m.supply + e), e))
  }

  /** Relay units are redeemed against connector `s`. */
  function ConvertFromExchange(m: Market, s: Symbol, amount: int): Option<(Market, int)>
    requires s == Ram || s == Core
  {
    if amount < 0 || m.supply - amount <= 0 || Balance(m, s) < 0 then None else
      var out := Redeemed(m.power, m.supply - amount, Balance(m, s), amount);
      Some((SetBalance(m, s, Balance(m, s) - out).(supply := m.supply - amount), out))
  }

  function Convert(m: Market, amount: int, from: Symbol, to: Symbol): Option<(Market, int)>
    decreases from != RamCore
  {
    if from == Ram || from == Core then
      var r := ConvertToExchange(m, from, amount);
      if r.None? || to == RamCore then r else Convert(r.value.0, r.value.1, RamCore, to)
    else if from == RamCore && (to == Ram || to == Core) then ConvertFromExchange(m, to, amount)
    else None
  }

  /** A trade between the two connectors. */
  predicate Pair(from: Symbol, to: Symbol) {
    (from == Core && to == Ram) || (from == Ram && to == Core)
  }

  /** A full trade takes two legs and no more: the relay supply comes back to what it was, the
      deposit goes in whole, what comes out is determined by the two roundings, and it is bounded by the
      constant-product price. */
  lemma TradeLaw(m: Market, amount: int, from: Symbol, to: Symbol)
    requires m.Sound() && amount > 0 && Pair(from, to)
    ensures var r := Convert(m, amount, from, to);
            && r.Some?
            && var (m', out) := r.value;
            && m' == SetBalance(SetBalance(m, from, Balance(m, from) + amount), to, Balance(m, to) - out)
            && 0 <= out
            && out * (Balance(m, from) + amount) <= Balance(m, to) * amount
            && (Balance(m, to) > 0 ==> out < Balance(m, to))
            && Pays(m.power, m.supply, Balance(m, from), Balance(m, to), amount, out)
  {
    hide Issued, Redeemed, Pow, Pays;
    RelayPays(m.power, m.supply, Balance(m, from), Balance(m, to), amount);
    var x, y := Balance(m, from), Balance(m, to);
    var e := Issued(m.power, m.supply, x + amount, amount);
    RelayBound(m.power, m.supply, x, y, amount);
    if y > 0 { RelayStrict(m.power, m.supply, x, y, amount); }
  }

  /** ... and from below: but for one unit of each leg it is no worse than the price with the deposit counted twice. */
  lemma TradeFloor(m: Market, amount: int, from: Symbol, to: Symbol)
    requires m.Sound() && amount > 0 && Pair(from, to)
    ensures var r := Convert(m, amount, from, to);
            var x, y := Balance(m, from), Balance(m, to);
            r.Some? && y * amount * m.supply <= ((r.value.1 + 1) * m.supply + y * m.power) * (x + 2 * amount)
  {
    hide Issued, Redeemed, Pow, Convert;
    TwoLegs(m, amount, from, to);
    RelayFloor(m.power, m.supply, Balance(m, from), Balance(m, to), amount);
  }

  lemma TwoLegs(m: Market, amount: int, from: Symbol, to: Symbol)
    requires m.Sound() && amount > 0 && Pair(from, to)
    ensures var r := Convert(m, amount, from, to);
            && r.Some?
            && r.value.1 == Redeemed(m.power, m.supply, Balance(m, to),
                                     Issued(m.power, m.supply, Balance(m, from) + amount, amount))
  {
    hide Issued, Redeemed, Pow;
  }

  /** A trade never empties the connector it pays from. */
  lemma RelayStrict(n: nat, r: nat, x: nat, y: nat, t: nat)
    requires n >= 2 && r > 0 && t > 0 && y > 0
    ensures Redeemed(n, r, y, Issued(n, r, x + t, t)) < y
  {
    var e := Issued(n, r, x + t, t);
    var out := Redeemed(n, r, y, e);
    if x > 0 {
      RelayBound(n, r, x, y, t);
      StrictlyLess(y, t, x + t);
      CancelStrict(out, y, x + t);
    } else {
      var p, q := Pow(r, n), Pow(r + e, n);
      PowPositive(r, n);
      IssuedIsLargest(n, r, t, t, e);
      BelowDouble(p, q, t);
      NoExactDoubling(r + e, r, n);
      PowMonotone(r, r + e, n);
      QuotientBelow(y, q - p, p);
    }
  }

  lemma QuotientBelow(y: int, d: int, p: int)
    requires y > 0 && 0 <= d < p
    ensures (y * d) / p < y
  {
    StrictlyLess(y, d, p);
    CancelStrict((y * d) / p, y, p);
  }

  lemma BelowDouble(p: int, q: int, t: int)
    requires q * t <= p * (t + t) && t > 0
    ensures q <= 2 * p
  {
    assert p * (t + t) == (2 * p) * t;
    MulCancelLe(q, 2 * p, t);
  }

  lemma CancelStrict(a: int, b: int, p: int)
    requires a * p < b * p && p > 0
    ensures a < b
  {
    if a >= b { MulLe(b, a, p); }
  }

  lemma StrictlyLess(y: int, d: int, p: int)
    requires y > 0 && d < p
    ensures y * d < y * p
  {
    MulLe(d + 1, p, y);
  }

  /** Constant product, up to truncation in the market's favour. */
  lemma TradeKeepsProduct(m: Market, amount: int, from: Symbol, to: Symbol)
    requires m.Sound() && amount > 0 && Pair(from, to)
    ensures var (m', out) := Convert(m, amount, from, to).value;
            Convert(m, amount, from, to).Some? && m'.Sound() && m'.base * m'.quote >= m.base * m.quote
  {
    hide Convert, Pays;
    TradeLaw(m, amount, from, to);
    var (m', out) := Convert(m, amount, from, to).value;
    var x, y := Balance(m, from), Balance(m, to);
    assert (y - out) * (x + amount) == y * x + (y * amount - out * (x + amount));
    if out > y { MulLe(y + 1, out, x + amount); }
  }

  /** Buying RAM for t tokens and selling those bytes at once gives back at most t. */
  lemma RoundTripLoses(m: Market, t: int)
    requires m.Sound() && t > 0
    ensures var bought := Convert(m, t, Core, Ram);
            && bought.Some? && 0 <= bought.value.1
            && (bought.value.1 > 0 ==>
                  var sold := Convert(bought.value.0, bought.value.1, Ram, Core);
                  sold.Some? && sold.value.1 <= t)
  {
    hide Convert, Pays;
    TradeLaw(m, t, Core, Ram);
    var (m1, b) := Convert(m, t, Core, Ram).value;
    if b > 0 {
      TradeLaw(m1, b, Ram, Core);
      var out := Convert(m1, b, Ram, Core).value.1;
      assert out * m.base <= (m.quote + t) * b == b * (m.quote + t) <= m.base * t == t * m.base;
      MulCancelLe(out, t, m.base);
    }
  }

  // ---------------------------------------------------------------- the actions

  /** The market, the global RAM totals, the bytes each account owns, and the core tokens held by
      the account eosio.ram, which only these actions move. */
  datatype State = State(market: Market, maxRam: int, reserved: int, stake: int, users: map<Name, int>, vault: int)

  const RAM_LIMIT := 1024 * 1024 * 1024 * 1024 * 1024

  /** Half a percent, rounded up. */
  function Fee(amount: int): int { (amount + 199) / 200 }

  function Owned(s: State, x: Name): int { if x in s.users then s.users[x] else 0 }

  /** `buyram`: `funds` is what the payer can spend. */
  function BuyRam(s: State, receiver: Name, quant: int, funds: int): Option<State> {
    var paid := quant - Fee(quant);
    if quant <= 0 || paid <= 0 || funds < quant then None else
      var r := Convert(s.market, paid, Core, Ram);
      if r.None? || r.value.1 <= 0 then None else
        var (m, bytes) := r.value;
        Some(State(m, s.maxRam, s.reserved + bytes, s.stake + paid,
                   s.users[receiver := Owned(s, receiver) + bytes], s.vault + paid))
  }

  /** `buyrambytes` prices the bytes by selling them on a copy of the market. */
  function BuyRamBytes(s: State, receiver: Name, bytes: nat, funds: int): Option<State> {
    var r := Convert(s.market, bytes, Ram, Core);
    if r.None? then None else BuyRam(s, receiver, r.value.1, funds)
  }

  /** `sellram`. The last two checks are the contract's own "this shouldn't happen" and the token
      contract's overdraft check on eosio.ram. */
  function SellRam(s: State, x: Name, bytes: int): Option<State> {
    if bytes <= 0 || x !in s.users || s.users[x] < bytes then None else
      var r := Convert(s.market, bytes, Ram, Core);
      if r.None? || r.value.1 <= 1 then None else
        var (m, tokens) := r.value;
        if s.stake - tokens < 0 || s.vault < tokens then None else
          Some(State(m, s.maxRam, s.reserved - bytes, s.stake - tokens, s.users[x := s.users[x] - bytes],
                     s.vault - tokens))
  }

  function SetRam(s: State, size: int): Option<State> {
    if s.maxRam < size < RAM_LIMIT && size > s.reserved then
      Some(s.(market := s.market.(base := s.market.base + (size - s.maxRam)), maxRam := size))
    else None
  }

  /** The market as the contract creates it, before any RAM is sold. */
  function Opened(power: nat, maxRam: int, tokenSupply: int): State {
    State(Market(power, 100000000000000, maxRam, tokenSupply / 1000), maxRam, 0, 0, map[], 0)
  }

  // ---------------------------------------------------------------- solvency

  /** `q0` is the quote balance the market was opened with. */
  ghost predicate Solvent(s: State, q0: int) {
    && s.market.Sound()
    && q0 >= 0 && s.maxRam > 0
    && s.market.base + s.reserved == s.maxRam
    && s.market.quote - s.stake == q0
    && s.vault == s.stake
    && s.reserved == Sum(s.users)
    && (forall x <- s.users :: s.users[x] >= 0)
    && s.market.quote * s.market.base >= q0 * s.maxRam
  }

  /** Solvency means every token promised for RAM is there: no more can be unstaked than was staked. */
  lemma SolventStake(s: State, q0: int)
    requires Solvent(s, q0)
    ensures 0 <= s.reserved < s.maxRam && s.stake >= 0 && s.market.quote >= q0
  {
    hide Sum;
    SumNonNegative(s.users);
    MulLe(s.market.base, s.maxRam, q0);
    MulCancelLe(q0, s.market.quote, s.market.base);
  }

  lemma BuyRamKeepsSolvent(s: State, receiver: Name, quant: int, funds: int, q0: int)
    requires Solvent(s, q0)
    ensures var r := BuyRam(s, receiver, quant, funds);
            r.Some? ==> Solvent(r.value, q0) && r.value.market.supply == s.market.supply
    ensures BuyRam(s, receiver, quant, funds).Some? <==>
            && quant > 1 && funds >= quant
            && Convert(s.market, quant - Fee(quant), Core, Ram).value.1 > 0
  {
    hide Sum, Convert, Pays;
    var paid := quant - Fee(quant);
    if paid > 0 {
      TradeLaw(s.market, paid, Core, Ram);
      TradeKeepsProduct(s.market, paid, Core, Ram);
      SumUpdate(s.users, receiver, Owned(s, receiver) + Convert(s.market, paid, Core, Ram).value.1);
    }
  }

  /** Selling aborts only on the caller's mistakes: neither the "shouldn't happen" check nor an
      overdraft of eosio.ram ever stops a sale. */
  lemma SellRamKeepsSolvent(s: State, x: Name, bytes: int, q0: int)
    requires Solvent(s, q0)
    ensures var r := SellRam(s, x, bytes);
            r.Some? ==> Solvent(r.value, q0) && r.value.market.supply == s.market.supply
    ensures SellRam(s, x, bytes).Some? <==>
            && bytes > 0 && x in s.users && s.users[x] >= bytes
            && Convert(s.market, bytes, Ram, Core).value.1 > 1
  {
    hide Sum, Convert, Pays;
    if bytes > 0 && x in s.users && s.users[x] >= bytes {
      TradeLaw(s.market, bytes, Ram, Core);
      TradeKeepsProduct(s.market, bytes, Ram, Core);
      var (m, tokens) := Convert(s.market, bytes, Ram, Core).value;
      SumUpdate(s.users, x, s.users[x] - bytes);
      var s' := State(m, s.maxRam, s.reserved - bytes, s.stake - tokens, s.users[x := s.users[x] - bytes],
                      s.stake - tokens);
      assert Solvent(s', q0);
      SolventStake(s', q0);
    }
  }

  lemma SetRamKeepsSolvent(s: State, size: int, q0: int)
    requires Solvent(s, q0) && SetRam(s, size).Some?
    ensures Solvent(SetRam(s, size).value, q0)
  {
    hide Sum;
    SolventStake(s, q0);
    var d := size - s.maxRam;
    MulLe(q0, s.market.quote, d);
    assert s.market.quote * (s.market.base + d) == s.market.quote * s.market.base + s.market.quote * d;
    assert q0 * size == q0 * s.maxRam + q0 * d;
  }

  /** `buyrambytes` promises an exact amount of RAM. It never delivers it: pricing the bytes by a sale
      always falls short, so every successful call yields fewer bytes than were asked for. */
  lemma BuyRamBytesFallsShort(s: State, receiver: Name, bytes: nat, funds: int, q0: int)
    requires Solvent(s, q0) && BuyRamBytes(s, receiver, bytes, funds).Some?
    ensures Owned(BuyRamBytes(s, receiver, bytes, funds).value, receiver) - Owned(s, receiver) < bytes
  {
    hide Sum, Convert, Pays;
    NothingForNothing(s.market);
    var q := Convert(s.market, bytes, Ram, Core).value.1;
    if bytes > 0 {
      TradeLaw(s.market, bytes, Ram, Core);
      TradeLaw(s.market, q - Fee(q), Core, Ram);
      var got := Convert(s.market, q - Fee(q), Core, Ram).value.1;
      Shortfall(s.market.base, s.market.quote, bytes, q, q - Fee(q), got);
    }
  }

  /** A million bytes of the market as the contract opens it, with 64 gibibytes of RAM and a billion tokens of four
      decimals: the call succeeds, and delivers up to one percent less. `power` is the contract's 2000. */
  lemma {:induction false} MillionBytesAsked(power: nat, maxRam: nat, tokenSupply: nat, x: Name, bytes: nat, funds: int)
    requires power == 2000 && maxRam == 68719476736 && tokenSupply == 10000000000000 && bytes == 1000000
    requires funds == 200000
    ensures var r := BuyRamBytes(Opened(power, maxRam, tokenSupply), x, bytes, funds);
            r.Some? && 990000 <= Owned(r.value, x) < bytes
  {
    hide Convert, Pays;
    var m := Opened(power, maxRam, tokenSupply).market;
    TradeLaw(m, bytes, Ram, Core);
    var q := Convert(m, bytes, Ram, Core).value.1;
    PriceOfMillion(m, q);
    var paid := q - Fee(q);
    assert 144275 <= paid;
    TradeLaw(m, paid, Core, Ram);
    var got := Convert(m, paid, Core, Ram).value.1;
    MillionDelivered(m, paid, got);
    Shortfall(m.base, m.quote, bytes, q, paid, got);
  }

  lemma {:induction false} PriceOfMillion(m: Market, q: int)
    requires m == Market(2000, 100000000000000, 68719476736, 10000000000)
    requires Convert(m, 1000000, Ram, Core).Some? && Convert(m, 1000000, Ram, Core).value.1 == q
    ensures 145000 <= q <= 146000
  {
    hide Convert, Pays;
    TradeLaw(m, 1000000, Ram, Core);
    TradeFloor(m, 1000000, Ram, Core);
  }

  lemma {:induction false} MillionDelivered(m: Market, paid: int, got: int)
    requires m == Market(2000, 100000000000000, 68719476736, 10000000000) && 144275 <= paid
    requires Convert(m, paid, Core, Ram).Some? && Convert(m, paid, Core, Ram).value.1 == got
    ensures got >= 990000
  {
    hide Convert, Pays;
    TradeFloor(m, paid, Core, Ram);
    if got < 990000 {
      MulLe((got + 1) * m.supply + m.base * m.power, 990000 * m.supply + m.base * m.power, m.quote + 2 * paid);
    }
  }

  lemma NothingForNothing(m: Market)
    requires m.Sound()
    ensures Convert(m, 0, Ram, Core).Some? ==> Convert(m, 0, Ram, Core).value.1 == 0
  {
    IssuedNothing(m.power, m.supply, m.base);
    PowPositive(m.supply, m.power);
    ZeroOver(m.quote, Pow(m.supply, m.power));
  }

  lemma ZeroOver(c: int, p: int)
    requires p > 0
    ensures (c * (p - p)) / p == 0
  {
    assert c * (p - p) == 0;
  }

  lemma IssuedNothing(n: nat, r: nat, c: nat)
    requires c > 0
    ensures Issued(n, r, c, 0) == 0
  {
  }

  lemma Shortfall(base: int, quote: int, b: int, q: int, paid: int, got: int)
    requires base > 0 && quote >= 0 && b > 0 && 0 < paid <= q
    requires q * (base + b) <= quote * b
    requires got * (quote + paid) <= base * paid
    ensures got < b
  {
    assert (base - b) * paid < (base + b) * q by {
      if base < b {
        MulLe(base - b, -1, paid);
        MulLe(1, q, base + b);
      } else {
        MulLe(paid, q, base - b);
        StrictlyLess(q, base - b, base + b);
      }
    }
    assert b * (quote + paid) - base * paid == quote * b - (base - b) * paid;
    CancelStrict(got, b, quote + paid);
  }

  // ---------------------------------------------------------------- what each action does

  /** The fee is half a percent, rounded up. */
  lemma FeeIsHalfPercent(amount: nat)
    ensures 200 * (Fee(amount) - 1) < amount <= 200 * Fee(amount)
  {
  }

  /** A purchase pays the amount less half a percent, rounded up, into the market and the vault, and the bytes that
      buys go to the receiver; nobody else gains or loses any. */
  lemma BuyRamLaw(s: State, receiver: Name, quant: int, funds: int, q0: int)
    requires Solvent(s, q0) && BuyRam(s, receiver, quant, funds).Some?
    ensures var r := BuyRam(s, receiver, quant, funds).value;
            var paid, out := r.vault - s.vault, Owned(r, receiver) - Owned(s, receiver);
            && 200 * (quant - paid - 1) < quant <= 200 * (quant - paid)
            && Pays(s.market.power, s.market.supply, s.market.quote, s.market.base, paid, out) && out > 0
            && r.market == s.market.(quote := s.market.quote + paid, base := s.market.base - out)
            && r.stake == s.stake + paid && r.reserved == s.reserved + out && r.maxRam == s.maxRam
            && forall y: Name :: y != receiver ==> Owned(r, y) == Owned(s, y)
  {
    hide Sum, Convert, Pays;
    FeeIsHalfPercent(quant);
    TradeLaw(s.market, quant - Fee(quant), Core, Ram);
  }

  /** `buyrambytes` is a purchase for what selling the bytes would pay. */
  lemma BuyRamBytesLaw(s: State, receiver: Name, bytes: nat, funds: int, q0: int)
    requires Solvent(s, q0) && bytes > 0
    ensures exists quant ::
              && Pays(s.market.power, s.market.supply, s.market.base, s.market.quote, bytes, quant)
              && BuyRamBytes(s, receiver, bytes, funds) == BuyRam(s, receiver, quant, funds)
  {
    hide Sum, Convert, Pays, BuyRam;
    TradeLaw(s.market, bytes, Ram, Core);
  }

  /** A sale takes the bytes from their owner, and pays what the market pays for them out of the vault. */
  lemma SellRamLaw(s: State, x: Name, bytes: int, q0: int)
    requires Solvent(s, q0) && SellRam(s, x, bytes).Some?
    ensures var r := SellRam(s, x, bytes).value;
            var out := s.vault - r.vault;
            && bytes > 0 && Owned(r, x) == Owned(s, x) - bytes >= 0 && out > 1
            && Pays(s.market.power, s.market.supply, s.market.base, s.market.quote, bytes, out)
            && r.market == s.market.(base := s.market.base + bytes, quote := s.market.quote - out)
            && r.stake == s.stake - out && r.reserved == s.reserved - bytes && r.maxRam == s.maxRam
            && forall y: Name :: y != x ==> Owned(r, y) == Owned(s, y)
  {
    hide Sum, Convert, Pays;
    TradeLaw(s.market, bytes, Ram, Core);
  }

  /** The size of all RAM may only rise, stays below a pebibyte and above what is reserved; what it rises by is
      for sale. */
  lemma SetRamLaw(s: State, size: int)
    ensures var r := SetRam(s, size);
            && (r.Some? <==> s.maxRam < size < 1125899906842624 && size > s.reserved)
            && (r.Some? ==>
                  r.value == s.(maxRam := size, market := s.market.(base := s.market.base + (size - s.maxRam))))
  {
  }

  // ---------------------------------------------------------------- runs

  datatype Action =
    | Buy(receiver: Name, quant: int, funds: int)
    | BuyBytes(receiver: Name, bytes: nat, funds: int)
    | Sell(account: Name, amount: int)
    | Grow(size: int)

  function Attempt(s: State, a: Action): Option<State> {
    match a
    case Buy(x, quant, funds) => BuyRam(s, x, quant, funds)
    case BuyBytes(x, bytes, funds) => BuyRamBytes(s, x, bytes, funds)
    case Sell(x, bytes) => SellRam(s, x, bytes)
    case Grow(size) => SetRam(s, size)
  }

  function Exec(s: State, a: Action): State {
    var r := Attempt(s, a);
    if r.Some? then r.value else s
  }

  function Run(s: State, run: seq<Action>): State
    decreases |run|
  {
    if run == [] then s else Run(Exec(s, run[0]), run[1..])
  }

  function Product(s: State): int { s.market.base * s.market.quote }

  lemma ActionKeepsSolvent(s: State, a: Action, q0: int)
    requires Solvent(s, q0)
    ensures Solvent(Exec(s, a), q0)
    ensures Exec(s, a).market.supply == s.market.supply
    ensures Product(Exec(s, a)) >= Product(s)
  {
    hide Sum, Convert, Pays;
    match a
    case Buy(x, quant, funds) => BuyGrowsProduct(s, x, quant, funds, q0);
    case BuyBytes(x, bytes, funds) =>
      var r := Convert(s.market, bytes, Ram, Core);
      if r.Some? { BuyGrowsProduct(s, x, r.value.1, funds, q0); }
    case Sell(x, bytes) =>
      SellRamKeepsSolvent(s, x, bytes, q0);
      if bytes > 0 { TradeKeepsProduct(s.market, bytes, Ram, Core); }
    case Grow(size) =>
      if SetRam(s, size).Some? {
        SetRamKeepsSolvent(s, size, q0);
        MulLe(s.market.base, s.market.base + (size - s.maxRam), s.market.quote);
      }
  }

  lemma BuyGrowsProduct(s: State, receiver: Name, quant: int, funds: int, q0: int)
    requires Solvent(s, q0)
    ensures var r := BuyRam(s, receiver, quant, funds);
            r.Some? ==>
              Solvent(r.value, q0) && r.value.market.supply == s.market.supply && Product(r.value) >= Product(s)
  {
    hide Sum, Convert, Pays;
    BuyRamKeepsSolvent(s, receiver, quant, funds, q0);
    var paid := quant - Fee(quant);
    if paid > 0 { TradeKeepsProduct(s.market, paid, Core, Ram); }
  }

  /** In every run from a solvent state the market stays solvent, the relay supply never changes, and
      the product of the two balances never shrinks. */
  lemma {:induction false} RunKeepsSolvent(s: State, run: seq<Action>, q0: int)
    requires Solvent(s, q0)
    ensures Solvent(Run(s, run), q0)
    ensures Run(s, run).market.supply == s.market.supply
    ensures Product(Run(s, run)) >= Product(s)
    decreases |run|
  {
    hide Solvent, Exec;
    if run != [] {
      ActionKeepsSolvent(s, run[0], q0);
      RunKeepsSolvent(Exec(s, run[0]), run[1..], q0);
    }
  }

  /** From the opening of the market onward: RAM never sells out, and what was paid in for RAM is
      always there to pay out. */
  lemma OpenedMarketStaysSolvent(power: nat, maxRam: int, tokenSupply: int, run: seq<Action>)
    requires power >= 2 && maxRam > 0 && tokenSupply > 0
    ensures var s := Run(Opened(power, maxRam, tokenSupply), run);
            && Solvent(s, tokenSupply / 1000)
            && s.market.base > 0 && 0 <= s.reserved < s.maxRam && s.vault == s.stake >= 0
            && s.market.supply == 100000000000000
  {
    hide Run;
    var s0 := Opened(power, maxRam, tokenSupply);
    assert s0.market.quote * s0.market.base == (tokenSupply / 1000) * maxRam;
    RunKeepsSolvent(s0, run, tokenSupply / 1000);
    SolventStake(Run(s0, run), tokenSupply / 1000);
  }

  /** No sequence of trades by any number of accounts takes tokens out of the market and leaves it
      with no more RAM than before. */
  lemma NoFreeTokens(s: State, run: seq<Action>, q0: int)
    requires Solvent(s, q0) && Run(s, run).market.base <= s.market.base
    ensures Run(s, run).market.quote >= s.market.quote
  {
    hide Sum, Run;
    RunKeepsSolvent(s, run, q0);
    var s' := Run(s, run);
    MulLe(s'.market.base, s.market.base, s.market.quote);
    assert s.market.quote * s'.market.base <= s'.market.quote * s'.market.base;
    MulCancelLe(s.market.quote, s'.market.quote, s'.market.base);
  }
}
