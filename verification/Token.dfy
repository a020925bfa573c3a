/** The token ledger and the range-checked 64 bit amounts it is kept in. */
module Token {
  import opened Sums

  type Name = nat
  type Code = nat                      // a symbol's name
  datatype Symbol = Symbol(code: Code, precision: nat)

  const MAX_AMOUNT := 0x3FFF_FFFF_FFFF_FFFF        // 2^62 - 1
  const TWO_63 := 0x8000_0000_0000_0000
  const TWO_64 := 0x1_0000_0000_0000_0000

  // ---------------------------------------------------------------- amounts

  /** A sum as a 64 bit register holds it. */
  function Wrap(a: int): int { (a + TWO_63) % TWO_64 - TWO_63 }

  predicate InRange(a: int) { -MAX_AMOUNT <= a <= MAX_AMOUNT }

  /** `asset +=`: adds with wrap-around, then checks the range. */
  function AddAmount(a: int, b: int): Option<int> {
    var w := Wrap(a + b);
    if InRange(w) then Some(w) else None
  }

  function SubAmount(a: int, b: int): Option<int> {
    var w := Wrap(a - b);
    if InRange(w) then Some(w) else None
  }

  /** Checking after the fact is sound: amounts in range never wrap, so an overflow is always caught and a
      correct sum never refused. */
  lemma RangeCheckIsExact(a: int, b: int)
    requires InRange(a) && InRange(b)
    ensures AddAmount(a, b) == if InRange(a + b) then Some(a + b) else None
    ensures SubAmount(a, b) == if InRange(a - b) then Some(a - b) else None
  {
  }

  // ---------------------------------------------------------------- the ledger

  datatype Stat = Stat(precision: nat, supply: int, maximum: int, issuer: Name)
  datatype State = State(stats: map<Code, Stat>, balances: map<(Name, Code), int>)

  const EMPTY := State(map[], map[])

  function Create(s: State, issuer: Name, sym: Symbol, maximum: int): Option<State> {
    if !InRange(maximum) || maximum <= 0 || sym.code in s.stats then None
    else Some(s.(stats := s.stats[sym.code := Stat(sym.precision, 0, maximum, issuer)]))
  }

  function SubBalance(s: State, x: Name, c: Code, amount: int): Option<State> {
    var k := (x, c);
    if k !in s.balances || s.balances[k] < amount then None
    else if s.balances[k] == amount then Some(s.(balances := s.balances - {k}))
    else
      var v := SubAmount(s.balances[k], amount);
      if v.None? then None else Some(s.(balances := s.balances[k := v.value]))
  }

  function AddBalance(s: State, x: Name, c: Code, amount: int): Option<State> {
    var k := (x, c);
    if k !in s.balances then Some(s.(balances := s.balances[k := amount]))
    else
      var v := AddAmount(s.balances[k], amount);
      if v.None? then None else Some(s.(balances := s.balances[k := v.value]))
  }

  /** `exists_` says that the receiving account exists. */
  function Transfer(s: State, from: Name, to: Name, sym: Symbol, amount: int, exists_: bool): Option<State> {
    if from == to || !exists_ || sym.code !in s.stats || !InRange(amount) || amount <= 0
       || sym.precision != s.stats[sym.code].precision then None
    else
      var s1 := SubBalance(s, from, sym.code, amount);
      if s1.None? then None else AddBalance(s1.value, to, sym.code, amount)
  }

  function Issue(s: State, to: Name, sym: Symbol, amount: int, exists_: bool): Option<State> {
    if sym.code !in s.stats || !InRange(amount) || amount <= 0 || sym.precision != s.stats[sym.code].precision
       || amount > s.stats[sym.code].maximum - s.stats[sym.code].supply then None
    else
      var st := s.stats[sym.code];
      var supply := AddAmount(st.supply, amount);
      if supply.None? then None else
        var s1 := AddBalance(s.(stats := s.stats[sym.code := st.(supply := supply.value)]), st.issuer, sym.code,
                             amount);
        if s1.None? || to == st.issuer then s1 else Transfer(s1.value, st.issuer, to, sym, amount, exists_)
  }

  // ---------------------------------------------------------------- invariant

  function Holdings(b: map<(Name, Code), int>, c: Code): map<(Name, Code), int> {
    map k | k in b :: if k.1 == c then b[k] else 0
  }

  function Held(b: map<(Name, Code), int>, k: (Name, Code)): int { if k in b then b[k] else 0 }

  ghost predicate Balanced(s: State, c: Code) {
    && Sum(Holdings(s.balances, c)) == (if c in s.stats then s.stats[c].supply else 0)
    && (c in s.stats ==> 0 <= s.stats[c].supply <= s.stats[c].maximum <= MAX_AMOUNT)
  }

  ghost predicate Inv(s: State) {
    (forall k <- s.balances :: s.balances[k] > 0) && forall c: Code :: Balanced(s, c)
  }

  lemma HoldingsSet(b: map<(Name, Code), int>, k: (Name, Code), v: int, c: Code)
    ensures Sum(Holdings(b[k := v], c)) ==
            Sum(Holdings(b, c)) - (if k in b && k.1 == c then b[k] else 0) + (if k.1 == c then v else 0)
  {
    hide Sum;
    SumUpdate(Holdings(b, c), k, if k.1 == c then v else 0);
    assert Holdings(b[k := v], c) == Holdings(b, c)[k := if k.1 == c then v else 0];
  }

  lemma HoldingsDrop(b: map<(Name, Code), int>, k: (Name, Code), c: Code)
    requires k in b
    ensures Sum(Holdings(b - {k}, c)) == Sum(Holdings(b, c)) - if k.1 == c then b[k] else 0
  {
    hide Sum;
    SumRemove(Holdings(b, c), k);
    assert Holdings(b - {k}, c) == Holdings(b, c) - {k};
  }

  /** No balance exceeds the supply, so no balance leaves the range of amounts. */
  lemma BalanceWithinSupply(s: State, k: (Name, Code))
    requires Inv(s) && k in s.balances
    ensures k.1 in s.stats && 0 < s.balances[k] <= s.stats[k.1].supply <= MAX_AMOUNT
  {
    hide Sum;
    assert Balanced(s, k.1);
    SumNonNegative(Holdings(s.balances, k.1));
    assert Holdings(s.balances, k.1)[k] == s.balances[k];
  }

  /** What is added up is what was there: both halves of a transfer, for every symbol. */
  lemma SubBalanceLaw(s: State, x: Name, c: Code, amount: int)
    requires Inv(s) && amount > 0
    ensures var r := SubBalance(s, x, c, amount);
            && (r.Some? <==> (x, c) in s.balances && s.balances[(x, c)] >= amount)
            && (r.Some? ==>
                  && r.value.stats == s.stats && (forall k <- r.value.balances :: r.value.balances[k] > 0)
                  && (forall k :: Held(r.value.balances, k) == Held(s.balances, k) - if k == (x, c) then amount else 0)
                  && forall d: Code :: Sum(Holdings(r.value.balances, d)) ==
                       Sum(Holdings(s.balances, d)) - if d == c then amount else 0)
  {
    hide Sum, Holdings;
    var k := (x, c);
    if k in s.balances && s.balances[k] >= amount {
      BalanceWithinSupply(s, k);
      RangeCheckIsExact(s.balances[k], amount);
      forall d: Code ensures Sum(Holdings(SubBalance(s, x, c, amount).value.balances, d)) ==
                             Sum(Holdings(s.balances, d)) - if d == c then amount else 0
      {
        HoldingsDrop(s.balances, k, d);
        HoldingsSet(s.balances, k, s.balances[k] - amount, d);
      }
    }
  }

  lemma AddBalanceLaw(s: State, x: Name, c: Code, amount: int)
    requires (forall k <- s.balances :: s.balances[k] > 0) && amount > 0
    requires Sum(Holdings(s.balances, c)) + amount <= MAX_AMOUNT
    ensures var r := AddBalance(s, x, c, amount);
            && r.Some? && r.value.stats == s.stats && (forall k <- r.value.balances :: r.value.balances[k] > 0)
            && (forall k :: Held(r.value.balances, k) == Held(s.balances, k) + if k == (x, c) then amount else 0)
            && forall d: Code :: Sum(Holdings(r.value.balances, d)) ==
                 Sum(Holdings(s.balances, d)) + if d == c then amount else 0
  {
    hide Sum;
    var k := (x, c);
    SumNonNegative(Holdings(s.balances, c));
    if k in s.balances {
      assert Holdings(s.balances, c)[k] == s.balances[k];
      RangeCheckIsExact(s.balances[k], amount);
    }
    var v := (if k in s.balances then s.balances[k] else 0) + amount;
    forall d: Code
      ensures Sum(Holdings(s.balances[k := v], d)) == Sum(Holdings(s.balances, d)) + if d == c then amount else 0
    {
      HoldingsSet(s.balances, k, v, d);
    }
  }

  /** What a transfer adds to the balance `k`. */
  function Moved(k: (Name, Code), from: Name, to: Name, c: Code, amount: int): int {
    (if k == (to, c) then amount else 0) - (if k == (from, c) then amount else 0)
  }

  /** A transfer fails only on its own checks, no addition overflowing; it moves the amount between the
      two balances and touches no other. */
  lemma TransferKeepsInv(s: State, from: Name, to: Name, sym: Symbol, amount: int, exists_: bool)
    requires Inv(s)
    ensures var r := Transfer(s, from, to, sym, amount, exists_);
            && (r.Some? <==>
                  && from != to && exists_ && amount > 0 && sym.code in s.stats
                    && sym.precision == s.stats[sym.code].precision
                  && (from, sym.code) in s.balances && s.balances[(from, sym.code)] >= amount)
            && (r.Some? ==> Inv(r.value) && r.value.stats == s.stats)
            && (r.Some? ==>
                  forall k :: Held(r.value.balances, k) == Held(s.balances, k) + Moved(k, from, to, sym.code, amount))
  {
    hide Sum, Holdings, Held, SubBalance, AddBalance;
    var k := (from, sym.code);
    if amount > 0 && k in s.balances && s.balances[k] >= amount {
      BalanceWithinSupply(s, k);
      SubBalanceLaw(s, from, sym.code, amount);
      var s1 := SubBalance(s, from, sym.code, amount).value;
      assert Balanced(s, sym.code);
      AddBalanceLaw(s1, to, sym.code, amount);
      var s2 := AddBalance(s1, to, sym.code, amount).value;
      forall d: Code ensures Balanced(s2, d) { assert Balanced(s, d); }
    } else if amount > 0 {
      SubBalanceLaw(s, from, sym.code, amount);
    }
  }

  /** Issuing succeeds exactly within the maximum supply; it raises the supply and one balance. */
  lemma IssueKeepsInv(s: State, to: Name, sym: Symbol, amount: int, exists_: bool)
    requires Inv(s)
    ensures var r := Issue(s, to, sym, amount, exists_);
            && (r.Some? <==>
                  && sym.code in s.stats && sym.precision == s.stats[sym.code].precision
                  && 0 < amount <= s.stats[sym.code].maximum - s.stats[sym.code].supply
                  && (to == s.stats[sym.code].issuer || exists_))
            && (r.Some? ==>
                  && Inv(r.value)
                  && r.value.stats ==
                     s.stats[sym.code := s.stats[sym.code].(supply := s.stats[sym.code].supply + amount)]
                  && forall k ::
                       Held(r.value.balances, k) == Held(s.balances, k) + if k == (to, sym.code) then amount else 0)
  {
    hide Sum, Holdings, AddBalance, Transfer;
    assert sym.code in s.stats ==> Balanced(s, sym.code);
    if sym.code in s.stats && 0 < amount <= s.stats[sym.code].maximum - s.stats[sym.code].supply {
      var c := sym.code;
      assert Balanced(s, c);
      RangeCheckIsExact(s.stats[c].supply, amount);
      var s1 := s.(stats := s.stats[c := s.stats[c].(supply := s.stats[c].supply + amount)]);
      AddBalanceLaw(s1, s.stats[c].issuer, c, amount);
      var s2 := AddBalance(s1, s.stats[c].issuer, c, amount).value;
      forall d: Code ensures Balanced(s2, d) { assert Balanced(s, d); }
      IssuerHasRow(s1, s.stats[c].issuer, c, amount);
      assert Held(s2.balances, (s.stats[c].issuer, c)) >= amount;
      TransferKeepsInv(s2, s.stats[c].issuer, to, sym, amount, exists_);
    }
  }

  lemma IssuerHasRow(s: State, x: Name, c: Code, amount: int)
    requires AddBalance(s, x, c, amount).Some?
    ensures (x, c) in AddBalance(s, x, c, amount).value.balances
  {
  }

  lemma CreateKeepsInv(s: State, issuer: Name, sym: Symbol, maximum: int)
    requires Inv(s) && Create(s, issuer, sym, maximum).Some?
    ensures Inv(Create(s, issuer, sym, maximum).value)
  {
    hide Sum, Holdings;
    forall d: Code ensures Balanced(Create(s, issuer, sym, maximum).value, d) { assert Balanced(s, d); }
  }

  /** A token can be created if and only if its maximum is positive and representable and its code is new; it starts
      with no supply, and no other token and no balance changes. */
  lemma CreateLaw(s: State, issuer: Name, sym: Symbol, maximum: int)
    ensures var r := Create(s, issuer, sym, maximum);
            && (r.Some? <==> 0 < maximum <= MAX_AMOUNT && sym.code !in s.stats)
            && (r.Some? ==>
                  && r.value.stats == s.stats[sym.code := Stat(sym.precision, 0, maximum, issuer)]
                  && r.value.balances == s.balances)
  {
  }

  // ---------------------------------------------------------------- runs

  datatype Action =
    | Creating(issuer: Name, sym: Symbol, maximum: int)
    | Issuing(to: Name, sym: Symbol, amount: int, exists_: bool)
    | Sending(from: Name, to: Name, sym: Symbol, amount: int, exists_: bool)

  function Attempt(s: State, a: Action): Option<State> {
    match a
    case Creating(issuer, sym, maximum) => Create(s, issuer, sym, maximum)
    case Issuing(to, sym, amount, e) => Issue(s, to, sym, amount, e)
    case Sending(from, to, sym, amount, e) => Transfer(s, from, to, sym, amount, e)
  }

  function Run(s: State, run: seq<Action>): State
    decreases |run|
  {
    if run == [] then s else
      var r := Attempt(s, run[0]);
      Run(if r.Some? then r.value else s, run[1..])
  }

  /** In every run, for every symbol: supply is the sum of all balances and never above the maximum. */
  lemma {:induction false} RunKeepsInv(s: State, run: seq<Action>)
    requires Inv(s)
    ensures Inv(Run(s, run))
    decreases |run|
  {
    hide Inv, Create, Issue, Transfer;
    if run != [] {
      var r := Attempt(s, run[0]);
      if r.Some? {
        match run[0] {
          case Creating(issuer, sym, maximum) => CreateKeepsInv(s, issuer, sym, maximum);
          case Issuing(to, sym, amount, e) => IssueKeepsInv(s, to, sym, amount, e);
          case Sending(from, to, sym, amount, e) => TransferKeepsInv(s, from, to, sym, amount, e);
        }
      }
      RunKeepsInv(if r.Some? then r.value else s, run[1..]);
    }
  }

  lemma EmptyKeepsInv()
    ensures Inv(EMPTY)
  {
    forall c: Code ensures Balanced(EMPTY, c) { SumZero(Holdings(map[], c)); }
  }
}
