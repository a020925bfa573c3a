/** How far the tallies can be off, in every run, whatever is dropped and whatever the weights are. */
module VotingDrift {
  import opened Sums
  import opened Voting
  import opened VotingTallies
  import opened VotingRuns
  import opened VotingRegistration
  import opened VotingSteps

  // ---------------------------------------------------------------- sizes of drifts

  /** No producer and no proxy is off by more than `n`. */
  ghost predicate Bounded(l: Drift, n: real) {
    forall p: Name :: Abs(l.ToProducer(p)) <= n && Abs(l.ToProxy(p)) <= n
  }

  /** A contribution counts as one dropped change, if it is any. */
  function Drops(l: Ballot): nat { if Idle(l) then 0 else 1 }

  function Below(r: real): real { if r < 0.0 then -r else 0.0 }

  lemma {:induction false} PlusBounded(l: Drift, c: Ballot, n: real, m: real)
    requires Bounded(l, n) && Abs(c.toProxy) <= m && Abs(c.toProducers) <= m && m >= 0.0
    ensures Bounded(l.Plus(c), n + m) && Bounded(l.Minus(c), n + m)
  {
    forall p: Name
      ensures Abs(l.Plus(c).ToProducer(p)) <= n + m && Abs(l.Plus(c).ToProxy(p)) <= n + m
      ensures Abs(l.Minus(c).ToProducer(p)) <= n + m && Abs(l.Minus(c).ToProxy(p)) <= n + m
    {
      assert Abs(l.ToProducer(p)) <= n && Abs(l.ToProxy(p)) <= n;
      assert l.ToProducer(p) == l.votes(p) && l.ToProxy(p) == l.proxied(p);
    }
  }

  /** What a dropped change adds to a drift is at most one vote, and nothing if there was no change. */
  lemma {:induction false} DropBounded(l: Drift, c: Ballot, n: real)
    requires Bounded(l, n) && Abs(c.toProxy) <= 1.0 && Abs(c.toProducers) <= 1.0
    ensures Bounded(l.Plus(c), n + Drops(c) as real)
  {
    PlusBounded(l, c, n, Drops(c) as real);
  }

  // ---------------------------------------------------------------- the law of one vote

  /** Counting `x` differently changes what the tallies miss. */
  lemma {:induction false} Reinterpret(g: Roll, t: Tally, x: Name, c: Ballot, c': Ballot, l: Drift)
    requires Fits(g, t) && x in g.voters && Midway(g, t, x, c, l, NOTHING)
    ensures Midway(g, t, x, c', l.Minus(c).Plus(c'), NOTHING)
  {
    hide RealSum, VotesFor, EntrustedTo, With;
    WithRow(g, t, x, c, c', t);
    var b := With(g, t, x, c);
    Recast(b, x, c');
    var k := l.Minus(c).Plus(c');
    forall p <- t.votes ensures t.votes[p] + k.ToProducer(p) + NOTHING.ToProducer(p) == VotesFor(b[x := c'], p) {
      assert k.ToProducer(p) == l.ToProducer(p) - c.ToProducer(p) + c'.ToProducer(p);
    }
    forall a <- t.proxied ensures t.proxied[a] + k.ToProxy(a) + NOTHING.ToProxy(a) == EntrustedTo(b[x := c'], a) {
      assert k.ToProxy(a) == l.ToProxy(a) - c.ToProxy(a) + c'.ToProxy(a);
    }
  }

  /** What is left of the old ballot once it is withdrawn; a weight that is not positive is not withdrawn. */
  function Left(v: Voter, last: real): Ballot { if last > 0.0 then Undone(v, last) else NOTHING }

  ghost function AfterWithdraw(g: Roll, t: Tally, x: Name, f: Scale, l: Drift): Drift
    requires Shaped(g) && Fits(g, t) && x in g.voters
  {
    if t.last[x] > 0.0 then l.Plus(WithdrawDrop(g, t, x, f))
      else l.Minus(BallotOf(g.voters[x], t.last[x])).Plus(NOTHING)
  }

  /** No proxy's entrusted weight is off. */
  ghost predicate EntrustsExactly(l: Drift) { forall a: Name :: l.ToProxy(a) == 0.0 }

  lemma {:induction false} ExactIsAbsorbed(l: Drift, c: Ballot)
    ensures EntrustsExactly(l) ==> Absorbs(l, c)
  {
  }

  lemma {:induction false} WithdrawLaw(g: Roll, t: Tally, x: Name, f: Scale, l: Drift)
    requires Shaped(g) && Fits(g, t) && x in g.voters && Withdraw(g, t, x, f).Some?
    requires Midway(g, t, x, BallotOf(g.voters[x], t.last[x]), l, NOTHING)
    ensures var r := Withdraw(g, t, x, f).value;
            Midway(g, r, x, Left(g.voters[x], t.last[x]), AfterWithdraw(g, t, x, f, l), NOTHING)
              && r.last[x] == t.last[x]
    ensures var r := Withdraw(g, t, x, f).value;
            NonNegative(With(g, t, x, BallotOf(g.voters[x], t.last[x]))) && EntrustsExactly(l) ==>
              NonNegative(With(g, r, x, Left(g.voters[x], t.last[x])))
  {
    hide Shaped, ShapedVoter, Propagate, Dropped, TalliedBut, With, Clear, Drift.Plus, Drift.Minus, NonNegative,
      EntrustsExactly;
    var v := g.voters[x];
    var c, c' := BallotOf(v, t.last[x]), Undone(v, t.last[x]);
    if NonNegative(With(g, t, x, c)) { WithNonNegative(g, t, x, c, Left(v, t.last[x])); }
    if t.last[x] <= 0.0 {
      Reinterpret(g, t, x, c, NOTHING, l);
    } else if v.proxy.Some? {
      var q := v.proxy.value;
      ProxyHasRow(g, x);
      ProxyIsClear(g, x, q);
      UndoneContribution(v, t.last[x]);
      hide Ballot.ToProducer, Ballot.ToProxy;
      EntrustedTally(g, t, x, c, c', q, -t.last[x], l);
      var t' := AddProxied(t, q, -t.last[x]);
      ExactIsAbsorbed(l, Dropped(g, t', q, f));
      PushMidway(g, t', x, c', q, f, l);
      var r := Propagate(g, t', q, f).value;
      JoinDrift(r, With(g, r, x, c'), l, Dropped(g, t', q, f));
    } else {
      JoinDrift(t, With(g, t, x, c'), l, NOTHING);
    }
  }

  function Entrusted(c: Ballot, proxy: Option<Name>, w: real): Ballot {
    if proxy.Some? && w >= 0.0 then c.(proxy := proxy, toProxy := w) else c
  }

  lemma {:induction false} EntrustLaw(
    g: Roll, t: Tally, x: Name, c: Ballot, proxy: Option<Name>, w: real, f: Scale, l: Drift)
    requires Shaped(g) && Fits(g, t) && x in g.voters && c.proxy.None? && Midway(g, t, x, c, l, NOTHING)
    requires proxy.Some? ==> proxy.value in g.voters && Clear(g, proxy.value, x)
    requires Entrust(g, t, proxy, w, f).Some?
    ensures var r := Entrust(g, t, proxy, w, f).value;
            Midway(g, r, x, Entrusted(c, proxy, w), l.Plus(EntrustDrop(g, t, proxy, w, f)), NOTHING)
              && r.last[x] == t.last[x]
    ensures var r := Entrust(g, t, proxy, w, f).value;
            NonNegative(With(g, t, x, c)) && EntrustsExactly(l) ==> NonNegative(With(g, r, x, Entrusted(c, proxy, w)))
  {
    hide Shaped, ShapedVoter, Propagate, Dropped, TalliedBut, With, Clear, Drift.Plus, NonNegative, EntrustsExactly;
    if NonNegative(With(g, t, x, c)) { WithNonNegative(g, t, x, c, Entrusted(c, proxy, w)); }
    if proxy.Some? && w >= 0.0 {
      var c' := c.(proxy := proxy, toProxy := w);
      var t' := AddProxied(t, proxy.value, w);
      EntrustedTally(g, t, x, c, c', proxy.value, w, l);
      ExactIsAbsorbed(l, Dropped(g, t', proxy.value, f));
      PushMidway(g, t', x, c', proxy.value, f, l);
      var r := Propagate(g, t', proxy.value, f).value;
      JoinDrift(r, With(g, r, x, c'), l, Dropped(g, t', proxy.value, f));
    } else {
      JoinDrift(t, With(g, t, x, c), l, NOTHING);
    }
  }

  lemma {:induction false} OnlyRegisteredCount(t: Tally, d: map<Name, real>, floor: bool)
    ensures ApplyDeltas(t, Applied(t, d), floor) == ApplyDeltas(t, d, floor)
    ensures Applied(t, d).Keys <= t.votes.Keys
  {
    assert Applied(t, Applied(t, d)) == Applied(t, d);
    assert ApplyDeltas(t, Applied(t, d), floor).votes == ApplyDeltas(t, d, floor).votes;
  }

  /** The new ballot as the contract counts it: not at all if its weight is negative. */
  function Counted(proxy: Option<Name>, prods: seq<Name>, w: real): Ballot {
    if w < 0.0 then NOTHING else if proxy.Some? then Ballot(proxy, w, [], 0.0) else Ballot(None, 0.0, prods, w)
  }

  lemma {:induction false} DeltasMatch(v: Voter, last: real, proxy: Option<Name>, prods: seq<Name>, w: real)
    requires proxy.Some? ==> prods == []
    ensures var d := BallotDeltas(Losing(v, last), last, Gaining(proxy, prods, w), w);
            var c, c' := Entrusted(Left(v, last), proxy, w), Counted(proxy, prods, w);
            && (forall p :: c'.ToProducer(p) == c.ToProducer(p) + if p in d then d[p] else 0.0)
            && (forall a :: c'.ToProxy(a) == c.ToProxy(a))
  {
  }

  /** Without the floor, counting the deltas leaves the drift as it is. */
  lemma {:induction false} CountLaw(
    g: Roll, t: Tally, x: Name, c: Ballot, c': Ballot, d: map<Name, real>, w: real, l: Drift)
    requires Fits(g, t) && x in g.voters && Midway(g, t, x, c, l, NOTHING)
    requires forall p :: c'.ToProducer(p) == c.ToProducer(p) + if p in d then d[p] else 0.0
    requires forall a :: c'.ToProxy(a) == c.ToProxy(a)
    ensures var r := Set(ApplyDeltas(t, d, false), x, w); Fits(g, r) && Midway(g, r, x, c', l, NOTHING)
  {
    hide RealSum, VotesFor, EntrustedTo, TalliedBut, With, Ballot.ToProducer, Ballot.ToProxy;
    var b := With(g, t, x, c);
    var r := ApplyDeltas(t, d, false);
    OnlyRegisteredCount(t, d, false);
    WithRow(g, t, x, c, c', Set(r, x, w));
    Recast(b, x, c');
    DeltasDrift(t, b, b[x := c'], Applied(t, d), l, NOTHING);
    TalliedSet(r, x, w, b[x := c'], l, NOTHING);
  }

  /** The tallies, had there been no floor. */
  ghost function Unfloored(
    g: Roll, t: Tally, x: Name, proxy: Option<Name>, prods: seq<Name>, w: real, f: Scale): (r: Option<Tally>)
    requires Shaped(g) && Fits(g, t) && x in g.voters && (proxy.Some? ==> proxy.value in g.voters)
    ensures r.Some? <==> Recount(g, t, x, proxy, prods, w, f).Some?
    ensures r.Some? ==> Fits(g, r.value)
  {
    var t1 := Withdraw(g, t, x, f);
    if t1.None? then None else
      var t2 := Entrust(g, t1.value, proxy, w, f);
      if t2.None? then None else
        var d := BallotDeltas(Losing(g.voters[x], t.last[x]), t.last[x], Gaining(proxy, prods, w), w);
        Some(Set(ApplyDeltas(t2.value, d, false), x, w))
  }

  /** The drift after a vote, had there been no floor: what both propagations dropped, an old ballot that was
      not withdrawn, and a new one that was not counted. */
  ghost function AfterRecount(
    g: Roll, t: Tally, x: Name, proxy: Option<Name>, prods: seq<Name>, w: real, f: Scale, l: Drift): Drift
    requires Shaped(g) && Fits(g, t) && x in g.voters && (proxy.Some? ==> proxy.value in g.voters)
    requires Withdraw(g, t, x, f).Some?
  {
    AfterWithdraw(g, t, x, f, l).Plus(EntrustDrop(g, Withdraw(g, t, x, f).value, proxy, w, f))
      .Minus(Counted(proxy, prods, w)).Plus(BallotOf(g.voters[x].(proxy := proxy, producers := prods), w))
  }

  /** The law of a vote, on any tables and for any weights. */
  lemma {:induction false} RecountLaw(
    g: Roll, t: Tally, x: Name, proxy: Option<Name>, prods: seq<Name>, w: real, f: Scale, l: Drift)
    requires Shaped(g) && Fits(g, t) && x in g.voters && (proxy.Some? ==> prods == [])
    requires proxy.Some? ==> proxy.value in g.voters && Clear(g, proxy.value, x)
    requires Unfloored(g, t, x, proxy, prods, w, f).Some?
    requires Midway(g, t, x, BallotOf(g.voters[x], t.last[x]), l, NOTHING)
    ensures Midway(g, Unfloored(g, t, x, proxy, prods, w, f).value, x,
                   BallotOf(g.voters[x].(proxy := proxy, producers := prods), w),
                   AfterRecount(g, t, x, proxy, prods, w, f, l), NOTHING)
  {
    hide Shaped, Withdraw, Entrust, ApplyDeltas, BallotDeltas, Midway, Clear, AfterWithdraw, EntrustDrop, Drift.Plus,
      Drift.Minus, BallotOf;
    var v, last := g.voters[x], t.last[x];
    WithdrawLaw(g, t, x, f, l);
    var t1 := Withdraw(g, t, x, f).value;
    var l1 := AfterWithdraw(g, t, x, f, l);
    EntrustLaw(g, t1, x, Left(v, last), proxy, w, f, l1);
    var t2 := Entrust(g, t1, proxy, w, f).value;
    var l2 := l1.Plus(EntrustDrop(g, t1, proxy, w, f));
    var d := BallotDeltas(Losing(v, last), last, Gaining(proxy, prods, w), w);
    DeltasMatch(v, last, proxy, prods, w);
    CountLaw(g, t2, x, Entrusted(Left(v, last), proxy, w), Counted(proxy, prods, w), d, w, l2);
    Reinterpret(g, Set(ApplyDeltas(t2, d, false), x, w), x, Counted(proxy, prods, w),
                BallotOf(v.(proxy := proxy, producers := prods), w), l2);
  }

  /** How many votes a vote can put the tallies off by: one for each change it drops, and the weights below
      zero that it does not withdraw or does not count. */
  ghost function VoteLoss(g: Roll, t: Tally, x: Name, proxy: Option<Name>, w: real, f: Scale): real
    requires Shaped(g) && Fits(g, t) && x in g.voters && (proxy.Some? ==> proxy.value in g.voters)
    requires Withdraw(g, t, x, f).Some?
  {
    Drops(WithdrawDrop(g, t, x, f)) as real + Drops(EntrustDrop(g, Withdraw(g, t, x, f).value, proxy, w, f)) as real
    + Below(t.last[x]) + Below(w)
  }

  lemma {:induction false} DropsAreSmall(g: Roll, t: Tally, t1: Tally, x: Name, proxy: Option<Name>, w: real, f: Scale)
    requires Shaped(g) && Fits(g, t) && Fits(g, t1) && x in g.voters && (proxy.Some? ==> proxy.value in g.voters)
    ensures var l := WithdrawDrop(g, t, x, f); Abs(l.toProxy) <= 1.0 && Abs(l.toProducers) <= 1.0
    ensures var l := EntrustDrop(g, t1, proxy, w, f); Abs(l.toProxy) <= 1.0 && Abs(l.toProducers) <= 1.0
  {
    hide Dropped, Shaped, ShapedVoter;
  }

  lemma {:induction false} RecountBounded(
    g: Roll, t: Tally, x: Name, proxy: Option<Name>, prods: seq<Name>, w: real, f: Scale, l: Drift, n: real)
    requires Shaped(g) && Fits(g, t) && x in g.voters && (proxy.Some? ==> proxy.value in g.voters && prods == [])
    requires Withdraw(g, t, x, f).Some? && Bounded(l, n)
    ensures Bounded(AfterRecount(g, t, x, proxy, prods, w, f, l), n + VoteLoss(g, t, x, proxy, w, f))
  {
    hide Shaped, Withdraw, WithdrawDrop, EntrustDrop, Bounded, Drift.Plus, Drift.Minus;
    var v, last, t1 := g.voters[x], t.last[x], Withdraw(g, t, x, f).value;
    var d1, d2 := WithdrawDrop(g, t, x, f), EntrustDrop(g, t1, proxy, w, f);
    DropsAreSmall(g, t, t1, x, proxy, w, f);
    var m := n + Drops(d1) as real + Below(last);
    assert Bounded(AfterWithdraw(g, t, x, f, l), m) by {
      if last > 0.0 {
        DropBounded(l, d1, n);
      } else {
        PlusBounded(l, BallotOf(v, last), n, Below(last));
        PlusBounded(l.Minus(BallotOf(v, last)), NOTHING, n + Below(last), 0.0);
        NoDropBelow(g, t, x, f);
      }
    }
    var l1 := AfterWithdraw(g, t, x, f, l);
    hide AfterWithdraw;
    DropBounded(l1, d2, m);
    var c, c' := Counted(proxy, prods, w), BallotOf(v.(proxy := proxy, producers := prods), w);
    LastStep(l1.Plus(d2), proxy, prods, v, w, m + Drops(d2) as real);
  }

  lemma {:induction false} NoDropBelow(g: Roll, t: Tally, x: Name, f: Scale)
    requires Shaped(g) && Fits(g, t) && x in g.voters && t.last[x] <= 0.0
    ensures WithdrawDrop(g, t, x, f) == NOTHING
  {
    hide Dropped;
  }

  /** A new ballot that is counted makes no difference; one that is not, its weight. */
  lemma {:induction false} LastStep(l: Drift, proxy: Option<Name>, prods: seq<Name>, v: Voter, w: real, n: real)
    requires Bounded(l, n) && (proxy.Some? ==> prods == [])
    ensures Bounded(l.Minus(Counted(proxy, prods, w)).Plus(BallotOf(v.(proxy := proxy, producers := prods), w)),
                    n + Below(w))
  {
    var c, c' := Counted(proxy, prods, w), BallotOf(v.(proxy := proxy, producers := prods), w);
    var k := l.Minus(c).Plus(c');
    forall p: Name ensures Abs(k.ToProducer(p)) <= n + Below(w) && Abs(k.ToProxy(p)) <= n + Below(w) {
      assert Abs(l.ToProducer(p)) <= n && Abs(l.ToProxy(p)) <= n;
      assert k.ToProducer(p) == l.ToProducer(p) - c.ToProducer(p) + c'.ToProducer(p);
      assert k.ToProxy(p) == l.ToProxy(p) - c.ToProxy(p) + c'.ToProxy(p);
    }
  }

  // ---------------------------------------------------------------- the floor at zero

  /** The weights below zero among the ballots, in all. */
  function DebtColumn(b: Ballots): map<Name, real> {
    map x | x in b :: Below(b[x].toProxy) + Below(b[x].toProducers)
  }

  ghost function Debt(b: Ballots): real { RealSum(DebtColumn(b)) }

  lemma {:induction false} DebtCovers(b: Ballots, p: Name)
    ensures VotesFor(b, p) >= -Debt(b) && Debt(b) >= 0.0
  {
    hide RealSum;
    var m, d := ProducerColumn(b, p), DebtColumn(b);
    RealSumAdd(m, d);
    RealSumNonNegative(AddColumns(m, d));
    RealSumNonNegative(d);
  }

  lemma {:induction false} NoDebt(b: Ballots)
    requires NonNegative(b)
    ensures Debt(b) == 0.0
  {
    hide RealSum;
    forall x <- b ensures DebtColumn(b)[x] == 0.0 { assert b[x].NonNegative(); }
    RealSumZero(DebtColumn(b));
  }

  /** No tally is off its definition by more than `n`. */
  ghost predicate Off(t: Tally, b: Ballots, n: real) {
    && (forall p <- t.votes :: Abs(t.votes[p] - VotesFor(b, p)) <= n)
    && (forall a <- t.proxied :: Abs(t.proxied[a] - EntrustedTo(b, a)) <= n)
  }

  /** Flooring some votes at zero puts them off by no more, unless their definition is itself below zero. */
  lemma {:induction false} FloorIsOff(r: Tally, r': Tally, b: Ballots, l: Drift, n: real)
    requires TalliedBut(r, b, l, NOTHING) && Bounded(l, n)
    requires r'.votes.Keys == r.votes.Keys && r'.proxied == r.proxied
    requires forall p <- r.votes :: r'.votes[p] == r.votes[p] || (r.votes[p] < 0.0 && r'.votes[p] == 0.0)
    ensures Off(r', b, n + Debt(b))
  {
    hide RealSum, VotesFor, EntrustedTo, Debt;
    forall p <- r'.votes ensures Abs(r'.votes[p] - VotesFor(b, p)) <= n + Debt(b) {
      DebtCovers(b, p);
      assert Abs(l.ToProducer(p)) <= n;
    }
    forall a <- r'.proxied ensures Abs(r'.proxied[a] - EntrustedTo(b, a)) <= n + Debt(b) {
      DebtCovers(b, a);
      assert Abs(l.ToProxy(a)) <= n;
    }
  }

  /** The drift of tallies as they are. */
  ghost function DriftOf(t: Tally, b: Ballots): Drift {
    Drift((p: Name) => if p in t.votes then VotesFor(b, p) - t.votes[p] else 0.0,
          (a: Name) => if a in t.proxied then EntrustedTo(b, a) - t.proxied[a] else 0.0,
          RealSum(t.votes) - t.total)
  }

  lemma {:induction false} EveryTallyDrifts(t: Tally, b: Ballots, n: real)
    requires Off(t, b, n) && n >= 0.0
    ensures TalliedBut(t, b, DriftOf(t, b), NOTHING) && Bounded(DriftOf(t, b), n)
  {
    hide RealSum, VotesFor, EntrustedTo;
    DriftIsOne(t, b);
    var l := DriftOf(t, b);
    forall p: Name ensures Abs(l.ToProducer(p)) <= n && Abs(l.ToProxy(p)) <= n {
      assert l.ToProducer(p) == if p in t.votes then VotesFor(b, p) - t.votes[p] else 0.0;
      assert l.ToProxy(p) == if p in t.proxied then EntrustedTo(b, p) - t.proxied[p] else 0.0;
    }
  }

  lemma {:induction false} DriftIsOne(t: Tally, b: Ballots)
    ensures TalliedBut(t, b, DriftOf(t, b), NOTHING)
  {
    hide RealSum, VotesFor, EntrustedTo;
    var l := DriftOf(t, b);
    forall p <- t.votes ensures t.votes[p] + l.ToProducer(p) + NOTHING.ToProducer(p) == VotesFor(b, p) { }
    forall a <- t.proxied ensures t.proxied[a] + l.ToProxy(a) + NOTHING.ToProxy(a) == EntrustedTo(b, a) { }
  }

  // ---------------------------------------------------------------- votes

  ghost predicate Within(s: State, n: real)
    requires WellFormed(s)
  {
    n >= 0.0 && Off(s.tally, Cast(s.roll, s.tally), n)
  }

  lemma {:induction false} FlooredAndNot(
    g: Roll, t: Tally, x: Name, proxy: Option<Name>, prods: seq<Name>, w: real, f: Scale)
    requires Shaped(g) && Fits(g, t) && x in g.voters && (proxy.Some? ==> proxy.value in g.voters)
    requires Recount(g, t, x, proxy, prods, w, f).Some?
    ensures var r, r' := Unfloored(g, t, x, proxy, prods, w, f), Recount(g, t, x, proxy, prods, w, f).value;
            && r.Some? && r'.votes.Keys == r.value.votes.Keys && r'.proxied == r.value.proxied
              && r'.last == r.value.last
            && r'.last[x] == w
            && forall p <- r.value.votes ::
                 r'.votes[p] == r.value.votes[p] || (r.value.votes[p] < 0.0 && r'.votes[p] == 0.0)
  {
    hide Shaped, Withdraw, Entrust, BallotDeltas, RealSum, ShapedVoter;
  }

  lemma {:induction false} RecountIsOff(
    g: Roll, t: Tally, x: Name, proxy: Option<Name>, prods: seq<Name>, w: real, f: Scale, n: real)
    requires Shaped(g) && Fits(g, t) && x in g.voters && (proxy.Some? ==> prods == [])
    requires proxy.Some? ==> proxy.value in g.voters && Clear(g, proxy.value, x)
    requires Recount(g, t, x, proxy, prods, w, f).Some? && Off(t, Cast(g, t), n) && n >= 0.0
    ensures Withdraw(g, t, x, f).Some?
    ensures var r := Recount(g, t, x, proxy, prods, w, f).value;
            var b := With(g, r, x, BallotOf(g.voters[x].(proxy := proxy, producers := prods), w));
            Off(r, b, n + VoteLoss(g, t, x, proxy, w, f) + Debt(b))
  {
    hide Shaped, Recount, Unfloored, Withdraw, Off, Bounded, TalliedBut, With, Cast, Clear, AfterRecount, VoteLoss,
      Debt, DriftOf;
    var r := Recount(g, t, x, proxy, prods, w, f).value;
    var l := DriftOf(t, Cast(g, t));
    EveryTallyDrifts(t, Cast(g, t), n);
    CastIsWith(g, t, x);
    FlooredAndNot(g, t, x, proxy, prods, w, f);
    Withdrawn(g, t, x, proxy, prods, w, f);
    RecountLaw(g, t, x, proxy, prods, w, f, l);
    RecountBounded(g, t, x, proxy, prods, w, f, l, n);
    var r0 := Unfloored(g, t, x, proxy, prods, w, f).value;
    var c := BallotOf(g.voters[x].(proxy := proxy, producers := prods), w);
    WithRow(g, r0, x, c, c, r);
    assert With(g, r, x, c) == With(g, r0, x, c);
    FloorIsOff(r0, r, With(g, r0, x, c), AfterRecount(g, t, x, proxy, prods, w, f, l),
               n + VoteLoss(g, t, x, proxy, w, f));
  }

  lemma {:induction false} Withdrawn(
    g: Roll, t: Tally, x: Name, proxy: Option<Name>, prods: seq<Name>, w: real, f: Scale)
    requires Shaped(g) && Fits(g, t) && x in g.voters && (proxy.Some? ==> proxy.value in g.voters)
    requires Recount(g, t, x, proxy, prods, w, f).Some?
    ensures Withdraw(g, t, x, f).Some?
  {
    hide Shaped, Withdraw, Entrust, ApplyDeltas;
  }

  /** What a vote that succeeds can put the tallies off by: what it loses, and what its floor can hide. */
  ghost function VoteMisses(s: State, x: Name, proxy: Option<Name>, prods: seq<Name>, voting: bool, f: Scale): real
    requires WellFormed(s) && (!voting && x in s.roll.voters ==> proxy == s.roll.voters[x].proxy)
  {
    var r := UpdateVotes(s, x, proxy, prods, voting, f);
    if r.None? || Withdraw(s.roll, s.tally, x, f).None? then 0.0 else
      VoteLoss(s.roll, s.tally, x, proxy, CurrentWeight(s.roll.voters[x], s.tally.proxied[x], f), f)
      + Debt(Cast(r.value.roll, r.value.tally))
  }

  lemma {:induction false} VoteIsOff(
    s: State, x: Name, proxy: Option<Name>, prods: seq<Name>, voting: bool, f: Scale, n: real)
    requires WellFormed(s) && (!voting && x in s.roll.voters ==> proxy == s.roll.voters[x].proxy)
    requires Within(s, n) && UpdateVotes(s, x, proxy, prods, voting, f).Some?
    ensures var m := VoteMisses(s, x, proxy, prods, voting, f);
            m >= 0.0 && Within(UpdateVotes(s, x, proxy, prods, voting, f).value, n + m)
  {
    hide Shaped, Recount, Off, Cast, With, Debt, Withdraw, Drops, Below, WithdrawDrop, EntrustDrop;
    var g, t := s.roll, s.tally;
    var v := g.voters[x];
    var w := CurrentWeight(v, t.proxied[x], f);
    if proxy.Some? { ProxyIsClear(g, x, proxy.value); }
    RecountIsOff(g, t, x, proxy, prods, w, f, n);
    FlooredAndNot(g, t, x, proxy, prods, w, f);
    var r := UpdateVotes(s, x, proxy, prods, voting, f).value;
    StoredIsWith(g, r.tally, x, v.(proxy := proxy, producers := prods), r.roll);
    DebtIsSome(Cast(r.roll, r.tally));
    LossIsSome(g, t, x, proxy, w, f);
  }

  lemma {:induction false} DebtIsSome(b: Ballots)
    ensures Debt(b) >= 0.0
  {
    DebtCovers(b, 0);
  }

  lemma {:induction false} LossIsSome(g: Roll, t: Tally, x: Name, proxy: Option<Name>, w: real, f: Scale)
    requires Shaped(g) && Fits(g, t) && x in g.voters && (proxy.Some? ==> proxy.value in g.voters)
    requires Withdraw(g, t, x, f).Some?
    ensures VoteLoss(g, t, x, proxy, w, f) >= 0.0
  {
    hide WithdrawDrop, EntrustDrop, Withdraw;
  }

  /** Propagation puts the tallies off by what it drops. */
  lemma {:induction false} PropagateIsOff(g: Roll, t: Tally, x: Name, f: Scale, n: real)
    requires Shaped(g) && Fits(g, t) && x in g.voters && Off(t, Cast(g, t), n) && n >= 0.0
    requires Propagate(g, t, x, f).Some?
    ensures var r := Propagate(g, t, x, f).value; Off(r, Cast(g, r), n + Drops(Dropped(g, t, x, f)) as real)
  {
    hide Shaped, Propagate, Dropped, Off, Bounded, TalliedBut, Cast, Drawn, Overlay, DriftOf, Drift.Plus, Absorbs,
      NonNegative;
    var b := Cast(g, t);
    var l := DriftOf(t, b);
    EveryTallyDrifts(t, b, n);
    CastIsDrawn(g, t, t);
    PropagateDrift(g, t, x, f, b, {}, l);
    var r := Propagate(g, t, x, f).value;
    CastIsDrawn(g, t, r);
    var d := Dropped(g, t, x, f);
    JoinDrift(r, Cast(g, r), l, d);
    DropBounded(l, d, n);
    BoundedIsOff(r, Cast(g, r), l.Plus(d), n + Drops(d) as real);
  }

  lemma {:induction false} FlagFits(s: State, x: Name, flag: bool)
    requires WellFormed(s) && x in s.roll.voters && (flag ==> s.roll.voters[x].proxy.None?)
    ensures var g := SetFlag(s.roll, x, flag);
            Fits(g, s.tally) && x in g.voters && Cast(g, s.tally) == Cast(s.roll, s.tally)
  {
    hide Shaped, Cast;
    SameCast(s.roll, SetFlag(s.roll, x, flag), s.tally);
  }

  lemma {:induction false} FlagIsOff(s: State, x: Name, flag: bool, f: Scale, n: real)
    requires WellFormed(s) && x in s.roll.voters && (flag ==> s.roll.voters[x].proxy.None?) && Within(s, n)
    ensures var g := SetFlag(s.roll, x, flag);
            && Fits(g, s.tally) && x in g.voters
            && (Propagate(g, s.tally, x, f).Some? ==>
                  var s' := s.(roll := g, tally := Propagate(g, s.tally, x, f).value);
                  Within(s', n + Drops(Dropped(g, s.tally, x, f)) as real))
  {
    hide Shaped, Propagate, Dropped, Off, Cast, SetFlag;
    FlagFits(s, x, flag);
    var g := SetFlag(s.roll, x, flag);
    if Propagate(g, s.tally, x, f).Some? { PropagateIsOff(g, s.tally, x, f, n); }
  }

  lemma {:induction false} SameCast(g: Roll, g': Roll, t: Tally)
    requires Fits(g, t) && g'.voters.Keys == g.voters.Keys
    requires forall y <- g.voters ::
      g'.voters[y].proxy == g.voters[y].proxy && g'.voters[y].producers == g.voters[y].producers
    ensures Fits(g', t) && Cast(g', t) == Cast(g, t)
  {
  }

  lemma {:induction false} BoundedIsOff(t: Tally, b: Ballots, l: Drift, n: real)
    requires TalliedBut(t, b, l, NOTHING) && Bounded(l, n)
    ensures Off(t, b, n)
  {
    hide RealSum, VotesFor, EntrustedTo;
    forall p <- t.votes ensures Abs(t.votes[p] - VotesFor(b, p)) <= n { assert Abs(l.ToProducer(p)) <= n; }
    forall a <- t.proxied ensures Abs(t.proxied[a] - EntrustedTo(b, a)) <= n { assert Abs(l.ToProxy(a)) <= n; }
  }

  lemma {:induction false} NewVoterIsOff(s: State, x: Name, staked: nat, isProxy: bool, n: real)
    requires WellFormed(s) && x !in s.roll.voters && Within(s, n)
    ensures Within(AddVoter(s, x, staked, isProxy), n)
  {
    hide RealSum, VotesFor, EntrustedTo, Shaped, Cast;
    CastOfNewVoter(s, x, staked, isProxy);
    NewBallot(Cast(s.roll, s.tally), x, NOTHING);
    FollowersExist(s, x);
  }

  lemma {:induction false} RegisterIsOff(s: State, p: Name, n: real)
    requires WellFormed(s) && Within(s, n)
    ensures Within(RegProducer(s, p), n + if p in s.tally.votes then 0.0 else Abs(VotesFor(Cast(s.roll, s.tally), p)))
  {
    hide RealSum, VotesFor, EntrustedTo, Shaped, Cast;
    LastOnly(s.roll, s.tally, RegProducer(s, p).tally);
  }

  lemma {:induction false} LastOnly(g: Roll, t: Tally, t': Tally)
    requires Fits(g, t) && Fits(g, t') && t'.last == t.last
    ensures Cast(g, t') == Cast(g, t)
  {
  }

  // ---------------------------------------------------------------- runs

  /** What an action can put the tallies off by. */
  ghost function Misses(s: State, a: Action): real
    requires WellFormed(s)
  {
    match a
    case Vote(x, proxy, prods, f) => VoteMisses(s, x, proxy, prods, true, f)
    case FlagProxy(x, flag, f) =>
      if x in s.roll.voters && flag != s.roll.voters[x].isProxy && (flag ==> s.roll.voters[x].proxy.None?) then
        Drops(Dropped(SetFlag(s.roll, x, flag), s.tally, x, f)) as real
      else 0.0
    case ChangeStake(x, delta, f) =>
      if x in s.roll.voters && s.roll.voters[x].staked + delta >= 0 then
        var v := s.roll.voters[x];
        if v.producers != [] || v.proxy.Some? then
          VoteMisses(s.(roll := SetStake(s.roll, x, v.staked + delta)), x, v.proxy, v.producers, false, f)
        else 0.0
      else 0.0
    case Register(p) => if p in s.tally.votes then 0.0 else Abs(VotesFor(Cast(s.roll, s.tally), p))
    case Unregister(p) => 0.0
  }

  lemma {:induction false} RestakeIsOff(s: State, x: Name, delta: int, f: Scale, n: real)
    requires WellFormed(s) && Within(s, n)
    ensures var a := ChangeStake(x, delta, f); Misses(s, a) >= 0.0 && Within(Exec(s, a), n + Misses(s, a))
  {
    hide Shaped, UpdateVotes, Within, VoteMisses, AddVoter;
    if x !in s.roll.voters {
      if delta >= 0 { NewVoterIsOff(s, x, delta, false, n); }
    } else if s.roll.voters[x].staked + delta >= 0 {
      var v := s.roll.voters[x];
      var s' := s.(roll := SetStake(s.roll, x, v.staked + delta));
      SameWithin(s, s', n);
      if v.producers != [] || v.proxy.Some? {
        MissesSome(s', x, v.proxy, v.producers, false, f);
        if UpdateVotes(s', x, v.proxy, v.producers, false, f).Some? {
          VoteIsOff(s', x, v.proxy, v.producers, false, f, n);
        } else {
          Further(s, n, VoteMisses(s', x, v.proxy, v.producers, false, f));
        }
      }
    }
  }

  lemma {:induction false} MissesSome(s: State, x: Name, proxy: Option<Name>, prods: seq<Name>, voting: bool, f: Scale)
    requires WellFormed(s) && (!voting && x in s.roll.voters ==> proxy == s.roll.voters[x].proxy)
    ensures VoteMisses(s, x, proxy, prods, voting, f) >= 0.0
  {
    hide Shaped, Recount, Withdraw, Debt, VoteLoss, Cast;
    var r := UpdateVotes(s, x, proxy, prods, voting, f);
    if r.Some? && Withdraw(s.roll, s.tally, x, f).Some? {
      DebtIsSome(Cast(r.value.roll, r.value.tally));
      LossIsSome(s.roll, s.tally, x, proxy, CurrentWeight(s.roll.voters[x], s.tally.proxied[x], f), f);
    }
  }

  lemma {:induction false} Further(s: State, n: real, m: real)
    requires WellFormed(s) && Within(s, n) && m >= 0.0
    ensures Within(s, n + m)
  {
    hide VotesFor, EntrustedTo, Cast;
  }

  lemma {:induction false} ActionIsOff(s: State, a: Action, n: real)
    requires WellFormed(s) && Within(s, n)
    ensures Misses(s, a) >= 0.0 && Within(Exec(s, a), n + Misses(s, a))
  {
    hide Shaped, UpdateVotes, Propagate, Dropped, Within, Cast, VoteMisses, AddVoter, SetFlag, Restake, VotesFor;
    match a
    case Vote(x, proxy, prods, f) =>
      MissesSome(s, x, proxy, prods, true, f);
      if UpdateVotes(s, x, proxy, prods, true, f).Some? {
        VoteIsOff(s, x, proxy, prods, true, f, n);
      } else {
        Further(s, n, Misses(s, a));
      }
    case FlagProxy(x, flag, f) =>
      if x !in s.roll.voters {
        NewVoterIsOff(s, x, 0, flag, n);
      } else if flag != s.roll.voters[x].isProxy && (flag ==> s.roll.voters[x].proxy.None?) {
        FlagIsOff(s, x, flag, f, n);
        if Propagate(SetFlag(s.roll, x, flag), s.tally, x, f).None? { Further(s, n, Misses(s, a)); }
      }
    case ChangeStake(x, delta, f) => RestakeIsOff(s, x, delta, f, n);
    case Register(p) => RegisterIsOff(s, p, n);
    case Unregister(p) => SameWithin(s, Exec(s, a), n);
  }

  /** Neither a stake nor what is active makes a difference. */
  lemma {:induction false} SameWithin(s: State, s': State, n: real)
    requires WellFormed(s) && WellFormed(s') && Within(s, n) && s'.tally == s.tally
    requires s'.roll.voters.Keys == s.roll.voters.Keys
    requires forall y <- s.roll.voters ::
      s'.roll.voters[y].proxy == s.roll.voters[y].proxy && s'.roll.voters[y].producers == s.roll.voters[y].producers
    ensures Within(s', n)
  {
    hide Cast, Off, Shaped;
    SameCast(s.roll, s'.roll, s.tally);
  }

  ghost function AllMisses(s: State, run: seq<Action>): real
    requires WellFormed(s)
    decreases |run|
  {
    if run == [] then 0.0 else Misses(s, run[0]) + AllMisses(Exec(s, run[0]), run[1..])
  }

  /** In every run, from any tables and with any weights, no tally is off its definition by more than it was
      plus what the actions missed: one vote for each dropped change, and every weight below zero. */
  lemma {:induction false} RunIsOff(s: State, run: seq<Action>, n: real)
    requires WellFormed(s) && Within(s, n)
    ensures AllMisses(s, run) >= 0.0 && Within(Run(s, run), n + AllMisses(s, run))
    decreases |run|
  {
    hide Within, Misses, Exec, WellFormed;
    if run != [] {
      ActionIsOff(s, run[0], n);
      RunIsOff(Exec(s, run[0]), run[1..], n + Misses(s, run[0]));
    }
  }

  // ---------------------------------------------------------------- without negative weights

  /** How many weight changes an action drops. */
  ghost function Dropping(s: State, a: Action): nat
    requires WellFormed(s)
  {
    match a
    case Vote(x, proxy, prods, f) => VoteDrops(s, x, proxy, prods, true, f)
    case FlagProxy(x, flag, f) =>
      if x in s.roll.voters && flag != s.roll.voters[x].isProxy && (flag ==> s.roll.voters[x].proxy.None?) then
        Drops(Dropped(SetFlag(s.roll, x, flag), s.tally, x, f))
      else 0
    case ChangeStake(x, delta, f) =>
      if x in s.roll.voters && s.roll.voters[x].staked + delta >= 0 then
        var v := s.roll.voters[x];
        VoteDrops(s.(roll := SetStake(s.roll, x, v.staked + delta)), x, v.proxy, v.producers, false, f)
      else 0
    case _ => 0
  }

  ghost function VoteDrops(s: State, x: Name, proxy: Option<Name>, prods: seq<Name>, voting: bool, f: Scale): nat
    requires WellFormed(s)
  {
    if !MayVote(s, x, proxy, prods, voting, f) || Withdraw(s.roll, s.tally, x, f).None? then 0 else
      var w := CurrentWeight(s.roll.voters[x], s.tally.proxied[x], f);
      Drops(WithdrawDrop(s.roll, s.tally, x, f))
        + Drops(EntrustDrop(s.roll, Withdraw(s.roll, s.tally, x, f).value, proxy, w, f))
  }

  /** No row casts less than nothing. */
  ghost predicate Positive(s: State)
    requires WellFormed(s)
  {
    NonNegative(Cast(s.roll, s.tally))
  }

  lemma {:induction false} RowIsPositive(s: State, x: Name)
    requires WellFormed(s) && Positive(s) && x in s.roll.voters
    ensures s.tally.last[x] >= 0.0
  {
    assert Cast(s.roll, s.tally)[x].NonNegative();
  }

  lemma {:induction false} VoteMissesDrops(
    s: State, x: Name, proxy: Option<Name>, prods: seq<Name>, voting: bool, f: Scale)
    requires WellFormed(s) && (!voting && x in s.roll.voters ==> proxy == s.roll.voters[x].proxy) && Positive(s)
    requires UpdateVotes(s, x, proxy, prods, voting, f).Some? ==>
             Positive(UpdateVotes(s, x, proxy, prods, voting, f).value)
    ensures VoteMisses(s, x, proxy, prods, voting, f) <= VoteDrops(s, x, proxy, prods, voting, f) as real
  {
    hide Shaped, Withdraw, WithdrawDrop, EntrustDrop, Recount, Cast, NonNegative, Debt, Drops;
    var r := UpdateVotes(s, x, proxy, prods, voting, f);
    if r.Some? && Withdraw(s.roll, s.tally, x, f).Some? {
      var w := CurrentWeight(s.roll.voters[x], s.tally.proxied[x], f);
      NoDebt(Cast(r.value.roll, r.value.tally));
      RowIsPositive(s, x);
      FlooredAndNot(s.roll, s.tally, x, proxy, prods, w, f);
      RowIsPositive(r.value, x);
    }
  }

  lemma {:induction false} ActionMissesDrops(s: State, a: Action)
    requires WellFormed(s) && Positive(s) && Positive(Exec(s, a)) && Registered(s.roll, s.tally)
    ensures Misses(s, a) <= Dropping(s, a) as real
  {
    hide Shaped, UpdateVotes, Withdraw, WithdrawDrop, EntrustDrop, Dropped, Positive, VoteMisses, VoteDrops, Cast,
      VotesFor, AllRegistered;
    match a
    case Vote(x, proxy, prods, f) =>
      VoteMissesDrops(s, x, proxy, prods, true, f);
    case FlagProxy(x, flag, f) =>
    case ChangeStake(x, delta, f) =>
      if x in s.roll.voters && s.roll.voters[x].staked + delta >= 0 {
        var v := s.roll.voters[x];
        var s' := s.(roll := SetStake(s.roll, x, v.staked + delta));
        if v.producers != [] || v.proxy.Some? {
          assert Positive(s') by { SamePositive(s, s'); }
          VoteMissesDrops(s', x, v.proxy, v.producers, false, f);
        }
      }
    case Register(p) =>
      if p !in s.tally.votes { ApproversExist(s, p); }
    case Unregister(p) =>
  }

  lemma {:induction false} SamePositive(s: State, s': State)
    requires WellFormed(s) && WellFormed(s') && Positive(s) && s'.tally == s.tally
    requires s'.roll.voters.Keys == s.roll.voters.Keys
    requires forall y <- s.roll.voters ::
      s'.roll.voters[y].proxy == s.roll.voters[y].proxy && s'.roll.voters[y].producers == s.roll.voters[y].producers
    ensures Positive(s')
  {
    hide Cast, NonNegative, Shaped;
    SameCast(s.roll, s'.roll, s.tally);
  }

  ghost function AllDropped(s: State, run: seq<Action>): nat
    requires WellFormed(s)
    decreases |run|
  {
    if run == [] then 0 else Dropping(s, run[0]) + AllDropped(Exec(s, run[0]), run[1..])
  }

  /** Along the run no row casts less than nothing. */
  ghost predicate PositiveRun(s: State, run: seq<Action>)
    requires WellFormed(s)
    decreases |run|
  {
    Positive(s) && (run != [] ==> PositiveRun(Exec(s, run[0]), run[1..]))
  }

  /** A careless vote leaves a weight below zero behind. */
  lemma {:induction false} CarelessIsNegative(s: State, a: Action)
    requires WellFormed(s) && Registered(s.roll, s.tally) && Careless(s, a)
    ensures !Positive(Exec(s, a))
  {
    hide Shaped, Recount, Registered, Exec;
    var x, w := a.voter, WeightOf(s, a.voter, a.f);
    VoteLeadsTo(s, x, a.proxy, a.producers, a.f);
    FlooredAndNot(s.roll, s.tally, x, a.proxy, a.producers, w, a.f);
    var r := Exec(s, a);
    assert a.proxy.None? && a.producers != [];
    assert !Cast(r.roll, r.tally)[x].NonNegative();
  }

  lemma {:induction false} MissesAreDrops(s: State, run: seq<Action>)
    requires WellFormed(s) && PositiveRun(s, run) && Registered(s.roll, s.tally)
    ensures AllMisses(s, run) <= AllDropped(s, run) as real
    decreases |run|
  {
    hide Misses, Dropping, Exec, WellFormed, Positive, Registered, Careless;
    if run != [] {
      var s' := Exec(s, run[0]);
      assert Positive(s');
      ActionMissesDrops(s, run[0]);
      ActionKeepsRegistered(s, run[0]);
      if Careless(s, run[0]) { CarelessIsNegative(s, run[0]); }
      MissesAreDrops(s', run[1..]);
    }
  }

  /** In every run without negative weights, no producer's votes and no proxy's entrusted weight is off its
      definition by more than it was plus the number of changes that were dropped since. */
  lemma {:induction false} DriftIsBounded(s: State, run: seq<Action>, n: real)
    requires WellFormed(s) && Within(s, n) && PositiveRun(s, run) && Registered(s.roll, s.tally)
    ensures Within(Run(s, run), n + AllDropped(s, run) as real)
  {
    hide Within, AllMisses, AllDropped, Run, PositiveRun, WellFormed, Registered;
    RunIsOff(s, run, n);
    MissesAreDrops(s, run);
    Further(Run(s, run), n + AllMisses(s, run), AllDropped(s, run) as real - AllMisses(s, run));
  }

  /** The empty tables are not off at all. */
  lemma NothingIsOff()
    ensures WellFormed(EMPTY) && Within(EMPTY, 0.0) && Registered(EMPTY.roll, EMPTY.tally)
  {
  }

  /** From the empty tables. */
  lemma {:induction false} DriftFromEmpty(run: seq<Action>)
    requires WellFormed(EMPTY) && PositiveRun(EMPTY, run)
    ensures Within(Run(EMPTY, run), AllDropped(EMPTY, run) as real)
  {
    hide Within, AllDropped, Run, PositiveRun, WellFormed, Registered;
    NothingIsOff();
    DriftIsBounded(EMPTY, run, 0.0);
  }
}
