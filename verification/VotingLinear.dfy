/** Weights proportional to stake, as `stake2vote` gives them. When the factors in use differ by more than one
    vote per unit of stake, a row that follows a proxy never drops a change: entrusted weights stay exact, no
    weight goes below zero and every listed producer stays registered, whatever the proxies themselves drop. */
module VotingLinear {
  import opened Sums
  import opened Voting
  import opened VotingTallies
  import opened VotingRuns
  import opened VotingRegistration
  import opened VotingDrift
  import opened VotingGrid

  type Factors = iset<real>

  ghost predicate Linear(f: Scale, k: real) { forall n: int :: f(n) == Times(k, n) }

  /** Nonnegative factors, any two of them more than one vote per unit apart. */
  ghost predicate Steep(K: Factors) {
    && (forall k :: k in K ==> k >= 0.0)
    && (forall k, k' :: k in K && k' in K && k != k' ==> Abs(k' - k) > 1.0)
  }

  // ---------------------------------------------------------------- rows that follow a proxy

  /** The weight is the stake at one of the factors. */
  ghost predicate CastAt(v: Voter, last: real, K: Factors) {
    exists k :: k in K && last == Times(k, v.staked)
  }

  /** Every row that follows a proxy, except those in `held`, cast its stake at some factor. */
  ghost predicate Factored(g: Roll, t: Tally, K: Factors, held: set<Name>)
    requires Fits(g, t)
  {
    forall x <- g.voters :: x !in held && g.voters[x].proxy.Some? ==> CastAt(g.voters[x], t.last[x], K)
  }

  /** At steep factors a row's own weight changes by more than one vote or not at all. */
  lemma NoSmallChange(v: Voter, last: real, K: Factors, k: real)
    requires Steep(K) && CastAt(v, last, K) && k in K && v.staked >= 0
    ensures Abs(Times(k, v.staked) - last) <= 1.0 ==> Times(k, v.staked) == last
  {
    hide Times;
    var j :| j in K && last == Times(j, v.staked);
    if j != k { Apart(j, k, v.staked); }
  }

  lemma Apart(j: real, k: real, n: nat)
    requires Abs(k - j) > 1.0
    ensures n == 0 ==> Times(k, n) == Times(j, n)
    ensures n > 0 ==> Abs(Times(k, n) - Times(j, n)) > 1.0
  {
    var s := n as real;
    if n > 0 {
      assert Times(k, n) - Times(j, n) == (k - j) * s;
      assert (j - k) * s == -((k - j) * s);
      if k > j { Scaled(k - j, s); } else { Scaled(j - k, s); }
    }
  }

  lemma Scaled(d: real, s: real)
    requires d > 1.0 && s >= 1.0
    ensures d * s > 1.0
  {
    assert d * s == (d - 1.0) * s + s;
    assert (d - 1.0) * s > 0.0;
  }

  /** A row that follows a proxy is none itself, so its weight is its own stake. */
  lemma FollowerChange(g: Roll, t: Tally, x: Name, f: Scale, k: real)
    requires Shaped(g) && Fits(g, t) && x in g.voters && g.voters[x].proxy.Some? && Linear(f, k)
    ensures g.voters[x].staked >= 0
    ensures t.last[x] + Change(g, t, x, f) == Times(k, g.voters[x].staked)
  {
    hide Times;
    assert ShapedVoter(g, x);
    hide Shaped, ShapedVoter;
    assert f(g.voters[x].staked) == Times(k, g.voters[x].staked);
  }

  /** What propagation drops is never meant for a proxy. */
  lemma {:induction false} DropsForProducers(g: Roll, t: Tally, x: Name, f: Scale, k: real, K: Factors, held: set<Name>)
    requires Shaped(g) && Fits(g, t) && x in g.voters && ClearOf(g, x, held)
    requires Factored(g, t, K, held) && Linear(f, k) && k in K && Steep(K)
    ensures forall a: Name :: Dropped(g, t, x, f).ToProxy(a) == 0.0
    decreases g.rank[x]
  {
    hide Propagate, Dropped, Shaped, ShapedVoter, Change, Steep, Linear, Times;
    var d := Change(g, t, x, f);
    NotHeld(g, x, held);
    if Abs(d) <= 1.0 {
      PropagateQuiet(g, t, x, f);
      if g.voters[x].proxy.Some? {
        FollowerChange(g, t, x, f, k);
        NoSmallChange(g.voters[x], t.last[x], K, k);
      }
    } else if g.voters[x].proxy.Some? {
      PropagatePush(g, t, x, f);
      var q := g.voters[x].proxy.value;
      ClearNext(g, x, held);
      DropsForProducers(g, AddProxied(t, q, d), q, f, k, K, held + {x});
    } else {
      DroppedSpread(g, t, x, f);
    }
  }

  lemma {:induction false} DroppedSpread(g: Roll, t: Tally, x: Name, f: Scale)
    requires Shaped(g) && Fits(g, t) && x in g.voters && Abs(Change(g, t, x, f)) > 1.0 && g.voters[x].proxy.None?
    ensures Dropped(g, t, x, f) == NOTHING
  {
    hide Shaped;
  }

  /** Rows along the chain take their stake at the current factor. */
  lemma {:induction false} PropagateKeepsFactored(
    g: Roll, t: Tally, x: Name, f: Scale, k: real, K: Factors, held: set<Name>)
    requires Shaped(g) && Fits(g, t) && x in g.voters && ClearOf(g, x, held) && Propagate(g, t, x, f).Some?
    requires Factored(g, t, K, held) && Linear(f, k) && k in K
    ensures Factored(g, Propagate(g, t, x, f).value, K, held)
    decreases g.rank[x]
  {
    hide Propagate, Dropped, Shaped, ShapedVoter, Change, Linear, Times;
    var d := Change(g, t, x, f);
    var w := t.last[x] + d;
    if g.voters[x].proxy.Some? {
      FollowerChange(g, t, x, f, k);
      assert CastAt(g.voters[x], w, K);
    }
    if Abs(d) <= 1.0 {
      PropagateQuiet(g, t, x, f);
    } else if g.voters[x].proxy.Some? {
      PropagatePush(g, t, x, f);
      var q := g.voters[x].proxy.value;
      ClearNext(g, x, held);
      PropagateKeepsFactored(g, AddProxied(t, q, d), q, f, k, K, held + {x});
    } else {
      PropagateAborts(g, t, x, f);
      PropagateSpread(g, t, x, f);
    }
  }

  // ---------------------------------------------------------------- votes

  /** Every proxy holds exactly what its followers cast. */
  ghost predicate ProxiesExact(t: Tally, b: Ballots) { forall a <- t.proxied :: t.proxied[a] == EntrustedTo(b, a) }

  lemma {:induction false} ExactDrift(t: Tally, b: Ballots)
    requires ProxiesExact(t, b)
    ensures EntrustsExactly(DriftOf(t, b))
  {
    hide RealSum, VotesFor, EntrustedTo;
    var l := DriftOf(t, b);
    forall a: Name ensures l.ToProxy(a) == 0.0 {
      assert l.ToProxy(a) == if a in t.proxied then EntrustedTo(b, a) - t.proxied[a] else 0.0;
    }
  }

  lemma {:induction false} ExactFromDrift(t: Tally, b: Ballots, l: Drift)
    requires TalliedBut(t, b, l, NOTHING) && EntrustsExactly(l)
    ensures ProxiesExact(t, b)
  {
    hide RealSum, VotesFor, EntrustedTo;
  }

  lemma {:induction false} PlusKeepsExact(l: Drift, c: Ballot)
    requires EntrustsExactly(l) && forall a: Name :: c.ToProxy(a) == 0.0
    ensures EntrustsExactly(l.Plus(c)) && EntrustsExactly(l.Minus(c))
  {
    forall a: Name ensures l.Plus(c).ToProxy(a) == 0.0 && l.Minus(c).ToProxy(a) == 0.0 {
      assert l.ToProxy(a) == 0.0 && l.ToProxy(a) == l.proxied(a) && c.ToProxy(a) == 0.0;
    }
  }

  lemma {:induction false} SwapKeepsExact(l: Drift, c: Ballot, c': Ballot)
    requires EntrustsExactly(l) && forall a: Name :: c.ToProxy(a) == c'.ToProxy(a)
    ensures EntrustsExactly(l.Minus(c).Plus(c'))
  {
    var k := l.Minus(c).Plus(c');
    forall a: Name ensures k.ToProxy(a) == 0.0 {
      assert l.ToProxy(a) == 0.0 && k.ToProxy(a) == l.ToProxy(a) - c.ToProxy(a) + c'.ToProxy(a);
    }
  }

  lemma {:induction false} OneHeld(g: Roll, q: Name, x: Name)
    requires Shaped(g) && q in g.voters && x in g.voters && Clear(g, q, x)
    ensures ClearOf(g, q, {x})
  {
  }

  /** Withdrawing the old ballot keeps entrusted weights exact. */
  lemma {:induction false} WithdrawSteady(g: Roll, t: Tally, x: Name, f: Scale, k: real, K: Factors, l: Drift)
    requires Shaped(g) && Fits(g, t) && x in g.voters && Withdraw(g, t, x, f).Some? && t.last[x] >= 0.0
    requires Factored(g, t, K, {x}) && Linear(f, k) && k in K && Steep(K) && EntrustsExactly(l)
    ensures EntrustsExactly(AfterWithdraw(g, t, x, f, l)) && Factored(g, Withdraw(g, t, x, f).value, K, {x})
  {
    hide Propagate, Dropped, Shaped, ShapedVoter, Steep, Linear, EntrustsExactly, Drift.Plus, Drift.Minus, Clear,
      ClearOf, CastAt;
    ProxyHasRow(g, x);
    var proxy := g.voters[x].proxy;
    if t.last[x] > 0.0 && proxy.Some? {
      var q := proxy.value;
      var t' := AddProxied(t, q, -t.last[x]);
      ProxyIsClear(g, x, q);
      OneHeld(g, q, x);
      DropsForProducers(g, t', q, f, k, K, {x});
      PropagateKeepsFactored(g, t', q, f, k, K, {x});
      PlusKeepsExact(l, Dropped(g, t', q, f));
    } else if t.last[x] > 0.0 {
      PlusKeepsExact(l, NOTHING);
    } else {
      PlusKeepsExact(l, BallotOf(g.voters[x], 0.0));
      PlusKeepsExact(l.Minus(BallotOf(g.voters[x], 0.0)), NOTHING);
    }
  }

  lemma {:induction false} EntrustSteady(
    g: Roll, t: Tally, x: Name, proxy: Option<Name>, w: real, f: Scale, k: real, K: Factors, l: Drift)
    requires Shaped(g) && Fits(g, t) && x in g.voters
    requires proxy.Some? ==> proxy.value in g.voters && Clear(g, proxy.value, x)
    requires Entrust(g, t, proxy, w, f).Some?
    requires Factored(g, t, K, {x}) && Linear(f, k) && k in K && Steep(K) && EntrustsExactly(l)
    ensures EntrustsExactly(l.Plus(EntrustDrop(g, t, proxy, w, f)))
            && Factored(g, Entrust(g, t, proxy, w, f).value, K, {x})
  {
    hide Propagate, Dropped, Shaped, Steep, Linear, EntrustsExactly, Drift.Plus, Clear, ClearOf, CastAt;
    if proxy.Some? && w >= 0.0 {
      var q := proxy.value;
      var t' := AddProxied(t, q, w);
      OneHeld(g, q, x);
      DropsForProducers(g, t', q, f, k, K, {x});
      PropagateKeepsFactored(g, t', q, f, k, K, {x});
      PlusKeepsExact(l, Dropped(g, t', q, f));
    } else {
      PlusKeepsExact(l, NOTHING);
    }
  }

  /** A whole recount keeps entrusted weights exact and weights nonnegative. */
  lemma {:induction false} RecountSteady(
    g: Roll, t: Tally, x: Name, proxy: Option<Name>, prods: seq<Name>, w: real, f: Scale, k: real, K: Factors)
    requires Shaped(g) && Fits(g, t) && x in g.voters && (proxy.Some? ==> prods == []) && w >= 0.0
    requires proxy.Some? ==> proxy.value in g.voters && Clear(g, proxy.value, x)
    requires Recount(g, t, x, proxy, prods, w, f).Some?
    requires Factored(g, t, K, {x}) && Linear(f, k) && k in K && Steep(K)
    requires ProxiesExact(t, Cast(g, t)) && NonNegative(Cast(g, t))
    ensures var r := Recount(g, t, x, proxy, prods, w, f).value;
            var b := With(g, r, x, BallotOf(g.voters[x].(proxy := proxy, producers := prods), w));
            ProxiesExact(r, b) && NonNegative(b) && Factored(g, r, K, {x}) && r.last[x] == w
  {
    hide Shaped, Recount, Unfloored, Withdraw, Entrust, TalliedBut, With, Cast, Clear, AfterRecount, AfterWithdraw,
      DriftOf,
      EntrustDrop, EntrustsExactly, ProxiesExact, NonNegative, Linear, Steep, CastAt, Drift.Plus, Drift.Minus, Factored;
    var v, last, b0 := g.voters[x], t.last[x], Cast(g, t);
    var l := DriftOf(t, b0);
    DriftIsOne(t, b0);
    ExactDrift(t, b0);
    CastIsWith(g, t, x);
    LastNonNegative(g, t, x);
    RecountSteps(g, t, x, proxy, prods, w, f);
    WithdrawLaw(g, t, x, f, l);
    WithdrawSteady(g, t, x, f, k, K, l);
    var t1, l1 := Withdraw(g, t, x, f).value, AfterWithdraw(g, t, x, f, l);
    EntrustLaw(g, t1, x, Left(v, last), proxy, w, f, l1);
    EntrustSteady(g, t1, x, proxy, w, f, k, K, l1);
    RecountExact(g, t, x, proxy, prods, w, f, l);
    ProxiesAfter(g, t, x, proxy, prods, w, f, l);
    WeightsAfter(g, Entrust(g, t1, proxy, w, f).value, Recount(g, t, x, proxy, prods, w, f).value, x,
                 Entrusted(Left(v, last), proxy, w), v.(proxy := proxy, producers := prods), w, K);
  }

  lemma {:induction false} ProxiesAfter(
    g: Roll, t: Tally, x: Name, proxy: Option<Name>, prods: seq<Name>, w: real, f: Scale, l: Drift)
    requires Shaped(g) && Fits(g, t) && x in g.voters && (proxy.Some? ==> prods == [])
    requires proxy.Some? ==> proxy.value in g.voters && Clear(g, proxy.value, x)
    requires Recount(g, t, x, proxy, prods, w, f).Some? && Withdraw(g, t, x, f).Some?
    requires Midway(g, t, x, BallotOf(g.voters[x], t.last[x]), l, NOTHING)
    requires EntrustsExactly(AfterRecount(g, t, x, proxy, prods, w, f, l))
    ensures var r := Recount(g, t, x, proxy, prods, w, f).value;
            && r.last[x] == w
            && ProxiesExact(r, With(g, r, x, BallotOf(g.voters[x].(proxy := proxy, producers := prods), w)))
  {
    hide Shaped, Recount, Unfloored, Withdraw, TalliedBut, With, Clear, AfterRecount, EntrustsExactly, ProxiesExact;
    FlooredAndNot(g, t, x, proxy, prods, w, f);
    RecountLaw(g, t, x, proxy, prods, w, f, l);
    var r0, r := Unfloored(g, t, x, proxy, prods, w, f).value, Recount(g, t, x, proxy, prods, w, f).value;
    var c := BallotOf(g.voters[x].(proxy := proxy, producers := prods), w);
    ExactFromDrift(r0, With(g, r0, x, c), AfterRecount(g, t, x, proxy, prods, w, f, l));
    WithRow(g, r0, x, c, c, r);
    assert With(g, r, x, c) == With(g, r0, x, c);
    SameProxies(r0, r, With(g, r0, x, c));
  }

  lemma {:induction false} WeightsAfter(g: Roll, t: Tally, r: Tally, x: Name, c: Ballot, v: Voter, w: real, K: Factors)
    requires Fits(g, t) && Fits(g, r) && x in g.voters && w >= 0.0
    requires forall y <- g.voters :: y != x ==> r.last[y] == t.last[y]
    requires NonNegative(With(g, t, x, c)) && Factored(g, t, K, {x})
    ensures NonNegative(With(g, r, x, BallotOf(v, w))) && Factored(g, r, K, {x})
  {
    hide With, NonNegative, Factored, BallotOf;
    WithRow(g, t, x, c, BallotOf(v, w), r);
    NonNegativeRow(With(g, t, x, c), x, BallotOf(v, w), v, w);
    SameFactors(g, t, r, K, x);
  }

  lemma {:induction false} LastNonNegative(g: Roll, t: Tally, x: Name)
    requires Fits(g, t) && x in g.voters && NonNegative(Cast(g, t))
    ensures t.last[x] >= 0.0
  {
    assert Cast(g, t)[x].NonNegative();
  }

  lemma {:induction false} RecountSteps(
    g: Roll, t: Tally, x: Name, proxy: Option<Name>, prods: seq<Name>, w: real, f: Scale)
    requires Shaped(g) && Fits(g, t) && x in g.voters && (proxy.Some? ==> proxy.value in g.voters)
    requires Recount(g, t, x, proxy, prods, w, f).Some?
    ensures Withdraw(g, t, x, f).Some? && Entrust(g, Withdraw(g, t, x, f).value, proxy, w, f).Some?
    ensures var t2 := Entrust(g, Withdraw(g, t, x, f).value, proxy, w, f).value;
            forall y <- g.voters :: y != x ==> Recount(g, t, x, proxy, prods, w, f).value.last[y] == t2.last[y]
  {
    hide Shaped, Withdraw, Entrust, BallotDeltas, RealSum;
  }

  lemma {:induction false} RecountExact(
    g: Roll, t: Tally, x: Name, proxy: Option<Name>, prods: seq<Name>, w: real, f: Scale, l: Drift)
    requires Shaped(g) && Fits(g, t) && x in g.voters && (proxy.Some? ==> proxy.value in g.voters && prods == [])
    requires w >= 0.0
    requires Withdraw(g, t, x, f).Some?
    requires EntrustsExactly(AfterWithdraw(g, t, x, f, l).Plus(EntrustDrop(g, Withdraw(g, t, x, f).value, proxy, w, f)))
    ensures EntrustsExactly(AfterRecount(g, t, x, proxy, prods, w, f, l))
  {
    hide Shaped, Withdraw, AfterWithdraw, EntrustDrop, EntrustsExactly, Drift.Plus, Drift.Minus;
    SwapKeepsExact(AfterWithdraw(g, t, x, f, l).Plus(EntrustDrop(g, Withdraw(g, t, x, f).value, proxy, w, f)),
                   Counted(proxy, prods, w), BallotOf(g.voters[x].(proxy := proxy, producers := prods), w));
  }

  lemma {:induction false} SameProxies(t: Tally, t': Tally, b: Ballots)
    requires ProxiesExact(t, b) && t'.proxied == t.proxied
    ensures ProxiesExact(t', b)
  {
  }

  lemma {:induction false} SameFactors(g: Roll, t: Tally, t': Tally, K: Factors, x: Name)
    requires Fits(g, t) && Fits(g, t') && Factored(g, t, K, {x})
    requires forall y <- g.voters :: y != x ==> t'.last[y] == t.last[y]
    ensures Factored(g, t', K, {x})
  {
    hide CastAt;
  }

  // ---------------------------------------------------------------- actions

  /** What holds in every state at steep factors; the rows in `held` are about to be cast again. */
  ghost predicate SteadyBut(s: State, K: Factors, held: set<Name>) {
    && WellFormed(s) && Registered(s.roll, s.tally) && Factored(s.roll, s.tally, K, held)
    && ProxiesExact(s.tally, Cast(s.roll, s.tally)) && NonNegative(Cast(s.roll, s.tally))
  }

  ghost predicate Steady(s: State, K: Factors) { SteadyBut(s, K, {}) }

  lemma {:induction false} SteadyWeight(s: State, x: Name, f: Scale)
    requires WellFormed(s) && x in s.roll.voters
    requires ProxiesExact(s.tally, Cast(s.roll, s.tally)) && NonNegative(Cast(s.roll, s.tally))
    ensures WeightOf(s, x, f) >= 0.0
  {
    hide Cast, EntrustedTo, VotesFor, NonNegative;
    TalliesNonNegative(Cast(s.roll, s.tally), x);
    assert ShapedVoter(s.roll, x);
    var n: nat := s.roll.voters[x].staked;
    assert f(n) >= 0.0;
  }

  lemma {:induction false} VoteSteady(
    s: State, x: Name, proxy: Option<Name>, prods: seq<Name>, voting: bool, f: Scale, k: real, K: Factors)
    requires SteadyBut(s, K, {x}) && MayVote(s, x, proxy, prods, voting, f) && Linear(f, k) && k in K && Steep(K)
    requires !voting ==> proxy == s.roll.voters[x].proxy
    ensures var r := UpdateVotes(s, x, proxy, prods, voting, f); r.Some? && Steady(r.value, K)
  {
    hide Shaped, Recount, Cast, With, ProxiesExact, NonNegative, Factored, Linear, Steep, Registered, Clear;
    var g, t, v := s.roll, s.tally, s.roll.voters[x];
    var w := CurrentWeight(v, t.proxied[x], f);
    SteadyWeight(s, x, f);
    if proxy.Some? { ProxyIsClear(g, x, proxy.value); }
    VoteKeepsRegistered(s, x, proxy, prods, voting, f);
    RecountSteady(g, t, x, proxy, prods, w, f, k, K);
    var r := UpdateVotes(s, x, proxy, prods, voting, f).value;
    var v' := v.(proxy := proxy, producers := prods);
    StoredIsWith(g, r.tally, x, v', r.roll);
    StoredIsFactored(g, r.tally, x, v', r.roll, f, k, K, w);
  }

  lemma {:induction false} StoredIsFactored(
    g: Roll, t: Tally, x: Name, v: Voter, g': Roll, f: Scale, k: real, K: Factors, w: real)
    requires Fits(g, t) && Fits(g', t) && x in g.voters && g'.voters == g.voters[x := v] && Factored(g, t, K, {x})
    requires t.last[x] == w && Linear(f, k) && k in K && (v.proxy.Some? ==> w == f(v.staked))
    ensures Factored(g', t, K, {})
  {
    hide Times;
    assert v.proxy.Some? ==> CastAt(v, w, K);
    hide CastAt;
  }

  lemma {:induction false} FlagSteady(s: State, x: Name, flag: bool, f: Scale, k: real, K: Factors)
    requires Steady(s, K) && x in s.roll.voters && (flag ==> s.roll.voters[x].proxy.None?)
    requires Linear(f, k) && k in K && Steep(K)
    ensures var g := SetFlag(s.roll, x, flag);
            && Fits(g, s.tally) && x in g.voters && Propagate(g, s.tally, x, f).Some?
            && Steady(s.(roll := g, tally := Propagate(g, s.tally, x, f).value), K)
  {
    hide Shaped, Propagate, Dropped, Cast, NonNegative, Linear, Steep, CastAt, SetFlag, TalliedBut, Drawn, Overlay,
      DriftOf,
      Drift.Plus, EntrustsExactly, ProxiesExact, Registered, Factored, Absorbs, ClearOf;
    FlagFits(s, x, flag);
    FlagRows(s, x, flag, K);
    var g := SetFlag(s.roll, x, flag);
    var b := Cast(g, s.tally);
    var l := DriftOf(s.tally, b);
    DriftIsOne(s.tally, b);
    ExactDrift(s.tally, b);
    CastIsDrawn(g, s.tally, s.tally);
    NobodyHeld(g, x);
    PropagateNeverAborts(g, s.tally, x, f);
    var r, d := Propagate(g, s.tally, x, f).value, Dropped(g, s.tally, x, f);
    DropsForProducers(g, s.tally, x, f, k, K, {});
    PropagateKeepsFactored(g, s.tally, x, f, k, K, {});
    ExactIsAbsorbed(l, d);
    PropagateDrift(g, s.tally, x, f, b, {}, l);
    CastIsDrawn(g, s.tally, r);
    JoinDrift(r, Cast(g, r), l, d);
    PlusKeepsExact(l, d);
    ExactFromDrift(r, Cast(g, r), l.Plus(d));
    SameProducersRegistered(g, s.tally, r);
  }

  lemma {:induction false} NobodyHeld(g: Roll, x: Name)
    requires Shaped(g) && x in g.voters
    ensures ClearOf(g, x, {})
  {
  }

  lemma {:induction false} FlagRows(s: State, x: Name, flag: bool, K: Factors)
    requires WellFormed(s) && x in s.roll.voters && (flag ==> s.roll.voters[x].proxy.None?)
    requires Registered(s.roll, s.tally) && Factored(s.roll, s.tally, K, {})
    ensures var g := SetFlag(s.roll, x, flag);
            Fits(g, s.tally) && Registered(g, s.tally) && Factored(g, s.tally, K, {})
  {
    hide Shaped, AllRegistered;
    var g := SetFlag(s.roll, x, flag);
    forall y <- g.voters | g.voters[y].proxy.Some? ensures CastAt(g.voters[y], s.tally.last[y], K) {
      assert CastAt(s.roll.voters[y], s.tally.last[y], K);
    }
  }

  lemma {:induction false} NewVoterSteady(s: State, x: Name, staked: nat, isProxy: bool, K: Factors)
    requires Steady(s, K) && x !in s.roll.voters
    ensures Steady(AddVoter(s, x, staked, isProxy), K)
  {
    hide Shaped, Cast, VotesFor, EntrustedTo, NonNegative, CastAt, AllRegistered, RealSum;
    AddVoterKeepsRegistered(s, x, staked, isProxy);
    CastOfNewVoter(s, x, staked, isProxy);
    NewBallot(Cast(s.roll, s.tally), x, NOTHING);
    FollowersExist(s, x);
  }

  lemma {:induction false} StakeSteady(s: State, x: Name, staked: nat, K: Factors)
    requires Steady(s, K) && x in s.roll.voters
    ensures SteadyBut(s.(roll := SetStake(s.roll, x, staked)), K, {x})
    ensures s.roll.voters[x].proxy.None? ==> Steady(s.(roll := SetStake(s.roll, x, staked)), K)
  {
    hide Shaped, Cast, ProxiesExact, NonNegative, AllRegistered;
    var g := SetStake(s.roll, x, staked);
    SameCast(s.roll, g, s.tally);
    forall y <- g.voters | y != x && g.voters[y].proxy.Some? ensures CastAt(g.voters[y], s.tally.last[y], K) {
      assert CastAt(s.roll.voters[y], s.tally.last[y], K);
    }
  }

  lemma {:induction false} RegisterSteady(s: State, p: Name, K: Factors)
    requires Steady(s, K)
    ensures Steady(RegProducer(s, p), K)
  {
    hide Shaped, Cast, VotesFor, EntrustedTo, NonNegative, CastAt;
    LastOnly(s.roll, s.tally, RegProducer(s, p).tally);
  }

  /** The scales an action uses are linear, at factors from `K`. */
  ghost predicate LinearAction(a: Action, K: Factors) {
    match a
    case Vote(_, _, _, f) => exists k :: k in K && Linear(f, k)
    case FlagProxy(_, _, f) => exists k :: k in K && Linear(f, k)
    case ChangeStake(_, _, f) => exists k :: k in K && Linear(f, k)
    case _ => true
  }

  lemma {:induction false} RestakeSteady(s: State, x: Name, delta: int, f: Scale, k: real, K: Factors)
    requires Steady(s, K) && Linear(f, k) && k in K && Steep(K)
    ensures Steady(Exec(s, ChangeStake(x, delta, f)), K)
  {
    hide Steady, SteadyBut, Shaped, UpdateVotes, AddVoter, MayVote, Linear, Steep;
    SteadyIs(s, K);
    SteadyMeans(s, K, {});
    if x !in s.roll.voters {
      if delta >= 0 { NewVoterSteady(s, x, delta, false, K); }
    } else if s.roll.voters[x].staked + delta >= 0 {
      var v := s.roll.voters[x];
      var s' := s.(roll := SetStake(s.roll, x, v.staked + delta));
      StakeSteady(s, x, v.staked + delta, K);
      SteadyMeans(s', K, {x});
      if v.producers != [] || v.proxy.Some? {
        StoredBallotMayBeCast(s', x, f);
        VoteSteady(s', x, v.proxy, v.producers, false, f, k, K);
      }
    }
  }

  lemma {:induction false} SteadyMeans(s: State, K: Factors, held: set<Name>)
    requires SteadyBut(s, K, held)
    ensures WellFormed(s) && Registered(s.roll, s.tally) && (held == {} ==> Steady(s, K))
  {
  }

  lemma {:induction false} StoredBallotMayBeCast(s: State, x: Name, f: Scale)
    requires WellFormed(s) && Registered(s.roll, s.tally) && x in s.roll.voters
    ensures MayVote(s, x, s.roll.voters[x].proxy, s.roll.voters[x].producers, false, f)
  {
    hide Registered;
    assert ShapedVoter(s.roll, x);
    RegisteredRow(s.roll, s.tally, x);
  }

  lemma {:induction false} ActionSteady(s: State, a: Action, K: Factors)
    requires Steady(s, K) && Steep(K) && LinearAction(a, K)
    ensures WellFormed(s) && Steady(Exec(s, a), K)
  {
    hide Steady, SteadyBut, Shaped, UpdateVotes, Propagate, AddVoter, SetFlag, MayVote, Linear, Steep, Restake;
    SteadyIs(s, K);
    SteadyMeans(s, K, {});
    match a
    case Vote(x, proxy, prods, f) =>
      var k :| k in K && Linear(f, k);
      if MayVote(s, x, proxy, prods, true, f) {
        HeldIsLess(s, K, x);
        VoteSteady(s, x, proxy, prods, true, f, k, K);
      } else {
        VoteAbortsOnlyOnItsChecks(s, x, proxy, prods, true, f);
      }
    case FlagProxy(x, flag, f) =>
      var k :| k in K && Linear(f, k);
      if x !in s.roll.voters {
        NewVoterSteady(s, x, 0, flag, K);
      } else if flag ==> s.roll.voters[x].proxy.None? {
        FlagSteady(s, x, flag, f, k, K);
      }
    case ChangeStake(x, delta, f) =>
      var k :| k in K && Linear(f, k);
      RestakeSteady(s, x, delta, f, k, K);
    case Register(p) => RegisterSteady(s, p, K);
    case Unregister(p) => UnregisterSteady(s, p, K);
  }

  lemma {:induction false} SteadyIs(s: State, K: Factors)
    requires Steady(s, K)
    ensures SteadyBut(s, K, {})
  {
  }

  lemma {:induction false} HeldIsLess(s: State, K: Factors, x: Name)
    requires Steady(s, K)
    ensures SteadyBut(s, K, {x})
  {
    hide CastAt, Shaped, Cast, Registered, NonNegative, ProxiesExact;
  }

  lemma {:induction false} UnregisterSteady(s: State, p: Name, K: Factors)
    requires Steady(s, K) && WellFormed(s)
    ensures Steady(Exec(s, Unregister(p)), K)
  {
    hide Shaped, Cast, NonNegative, ProxiesExact, Factored, Registered;
  }

  // ---------------------------------------------------------------- runs

  ghost predicate LinearActions(run: seq<Action>, K: Factors) { forall a <- run :: LinearAction(a, K) }

  /** In every run at steep factors, whatever is dropped: every listed producer is registered, no row casts
      less than nothing, and every proxy holds exactly what its followers cast. */
  lemma {:induction false} RunKeepsSteady(s: State, run: seq<Action>, K: Factors)
    requires Steady(s, K) && Steep(K) && LinearActions(run, K)
    ensures WellFormed(s) && Steady(Run(s, run), K)
    decreases |run|
  {
    hide Steady, Steep, LinearAction, Exec, WellFormed;
    SteadyIs(s, K);
    SteadyMeans(s, K, {});
    if run != [] {
      ActionSteady(s, run[0], K);
      assert LinearActions(run[1..], K);
      RunKeepsSteady(Exec(s, run[0]), run[1..], K);
    }
  }

  lemma {:induction false} EmptyIsSteady(K: Factors)
    ensures Steady(EMPTY, K)
  {
    hide RealSum;
  }

  /** From the empty tables: line 274 and the other data corruption checks are out of reach, so a vote succeeds
      exactly when its own checks pass. */
  lemma {:induction false} LinearRunsNeverAbort(
    run: seq<Action>, K: Factors, x: Name, proxy: Option<Name>, prods: seq<Name>, f: Scale)
    requires Steep(K) && LinearActions(run, K)
    ensures WellFormed(EMPTY)
    ensures var s := Run(EMPTY, run);
            && (x in s.roll.voters ==> Propagate(s.roll, s.tally, x, f).Some? && WeightOf(s, x, f) >= 0.0)
            && (UpdateVotes(s, x, proxy, prods, true, f).Some? <==> MayVote(s, x, proxy, prods, true, f))
  {
    hide Run, Steep, LinearActions, Steady, Shaped, Propagate, UpdateVotes, MayVote, Cast, NonNegative, ProxiesExact,
      Factored;
    EmptyIsSteady(K);
    RunKeepsSteady(EMPTY, run, K);
    var s := Run(EMPTY, run);
    SteadyIs(s, K);
    SteadyMeans(s, K, {});
    if x in s.roll.voters {
      PropagateNeverAborts(s.roll, s.tally, x, f);
      SteadyWeight(s, x, f);
    }
    VoteAbortsOnlyOnItsChecks(s, x, proxy, prods, true, f);
  }

  lemma {:induction false} LinearRunsArePositive(s: State, run: seq<Action>, K: Factors)
    requires Steady(s, K) && Steep(K) && LinearActions(run, K)
    ensures WellFormed(s) && PositiveRun(s, run)
    decreases |run|
  {
    hide Steep, LinearAction, Exec, Shaped, Factored, ProxiesExact, Registered, NonNegative, Cast;
    if run != [] {
      ActionSteady(s, run[0], K);
      assert LinearActions(run[1..], K);
      LinearRunsArePositive(Exec(s, run[0]), run[1..], K);
    }
  }

  /** In every run from the empty tables at steep factors, no producer's votes are off their definition by more
      than the number of dropped changes. */
  lemma {:induction false} LinearDriftIsBounded(run: seq<Action>, K: Factors)
    requires Steep(K) && LinearActions(run, K)
    ensures WellFormed(EMPTY) && Within(Run(EMPTY, run), AllDropped(EMPTY, run) as real)
  {
    hide Run, Steep, LinearActions, Steady, Within, AllDropped, PositiveRun;
    EmptyIsSteady(K);
    LinearRunsArePositive(EMPTY, run, K);
    DriftFromEmpty(run);
  }

  /** At one factor of more than one vote per unit of stake nothing is ever dropped, so every tally is exact. */
  lemma {:induction false} OneFactorIsExact(run: seq<Action>, k: real)
    requires k > 1.0 && LinearActions(run, iset{k})
    ensures Inv(Run(EMPTY, run)) && forall i :: 0 <= i < |run| ==> !FlooredAt(EMPTY, run, i)
  {
    hide Inv, Run, FlooredAt, Times;
    forall a <- run ensures OnGridAction(k, a) {
      assert LinearAction(a, iset{k});
    }
    GridRunsAreExact(k, run);
  }
}
