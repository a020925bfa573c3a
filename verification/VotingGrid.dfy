/** Vote weights on a grid. When every weight is a multiple of one step of more than one vote, no change is small
    enough to be dropped, so the tallies are exact in every run. */
module VotingGrid {
  import opened Sums
  import opened Voting
  import opened VotingTallies
  import opened VotingRuns

  type Step = h: real | h > 1.0 witness 2.0

  function Times(k: real, n: int): real { k * (n as real) }

  /** A multiple of the step `h`. */
  ghost predicate Multiple(h: Step, r: real) { exists k: int :: Times(h, k) == r }

  ghost predicate GridScale(h: Step, f: Scale) { forall n: nat :: Multiple(h, f(n)) }

  ghost predicate OnGrid(h: Step, t: Tally) {
    (forall x <- t.last :: Multiple(h, t.last[x])) && (forall x <- t.proxied :: Multiple(h, t.proxied[x]))
  }

  lemma {:induction false} TimesAdd(h: real, i: int, j: int)
    ensures Times(h, i + j) == Times(h, i) + Times(h, j) && Times(h, i - j) == Times(h, i) - Times(h, j)
    ensures Times(h, 0) == 0.0
    ensures h > 1.0 && Abs(Times(h, i) - Times(h, j)) <= 1.0 ==> i == j
  {
    var n := (i - j) as real;
    assert h * ((i + j) as real) == h * (i as real) + h * (j as real) && h * n == h * (i as real) - h * (j as real);
    if h > 1.0 && i != j { assert if n > 0.0 then h * n > n else h * n < n; }
  }

  lemma MultipleAdd(h: Step, a: real, b: real)
    requires Multiple(h, a) && Multiple(h, b)
    ensures Multiple(h, a + b) && Multiple(h, a - b)
    ensures Abs(a - b) <= 1.0 ==> a == b
  {
    var i :| Times(h, i) == a;
    var j :| Times(h, j) == b;
    TimesAdd(h, i, j);
  }

  lemma GridChange(h: Step, g: Roll, t: Tally, x: Name, f: Scale)
    requires Shaped(g) && Fits(g, t) && x in g.voters && OnGrid(h, t) && GridScale(h, f)
    ensures Multiple(h, t.last[x] + Change(g, t, x, f)) && Multiple(h, Change(g, t, x, f))
    ensures Abs(Change(g, t, x, f)) <= 1.0 ==> Change(g, t, x, f) == 0.0
  {
    hide Multiple;
    assert ShapedVoter(g, x);
    var n: nat := g.voters[x].staked;
    MultipleAdd(h, f(n), t.proxied[x]);
    MultipleAdd(h, t.last[x] + Change(g, t, x, f), t.last[x]);
  }

  lemma GridUpdate(h: Step, t: Tally, x: Name, w: real, q: Name, d: real)
    requires OnGrid(h, t)
    ensures Multiple(h, w) ==> OnGrid(h, Set(t, x, w))
    ensures q in t.proxied && Multiple(h, d) ==> OnGrid(h, AddProxied(t, q, d))
  {
    hide Multiple;
    if q in t.proxied && Multiple(h, d) { MultipleAdd(h, t.proxied[q], d); }
  }

  lemma IdleBallots(v: Voter)
    ensures Idle(BallotOf(v, 0.0)) && Idle(NOTHING)
  {
  }

  lemma IdleCancels(l: Ballot, l': Ballot)
    requires Idle(l) && Idle(l')
    ensures Cancels(Of(l), l') && Cancels(NO_DRIFT, l')
  {
    OfIs(l);
    hide Of;
  }

  /** On the grid no propagation drops a change, and it stays on the grid. */
  lemma {:induction false} GridPropagates(h: Step, g: Roll, t: Tally, x: Name, f: Scale)
    requires Shaped(g) && Fits(g, t) && x in g.voters && OnGrid(h, t) && GridScale(h, f) && Registered(g, t)
    ensures Idle(Dropped(g, t, x, f))
    ensures Propagate(g, t, x, f).Some? && OnGrid(h, Propagate(g, t, x, f).value)
    decreases g.rank[x]
  {
    hide RealSum, Propagate, Dropped, Multiple, OnGrid, Registered, Change, ShapedVoter, Shaped, Idle, BallotOf,
      GridScale, ApplyDeltas,
      SameDelta, AllRegistered;
    IdleBallots(g.voters[x]);
    var d := Change(g, t, x, f);
    GridChange(h, g, t, x, f);
    if Abs(d) <= 1.0 {
      PropagateQuiet(g, t, x, f);
      GridUpdate(h, t, x, t.last[x] + d, x, d);
    } else if g.voters[x].proxy.Some? {
      PropagatePush(g, t, x, f);
      var q := g.voters[x].proxy.value;
      GridUpdate(h, t, x, t.last[x] + d, q, d);
      var t' := AddProxied(t, q, d);
      SameProducersRegistered(g, t, t');
      GridPropagates(h, g, t', q, f);
      GridUpdate(h, Propagate(g, t', q, f).value, x, t.last[x] + d, q, d);
    } else {
      RegisteredRow(g, t, x);
      PropagateSpread(g, t, x, f);
      var deltas := SameDelta(g.voters[x].producers, d);
      var r := ApplyDeltas(t, deltas, false);
      DeltasKeepWeights(t, deltas, false);
      GridSame(h, t, r);
      GridUpdate(h, r, x, t.last[x] + d, x, d);
    }
  }

  lemma GridSame(h: Step, t: Tally, r: Tally)
    requires OnGrid(h, t) && r.last == t.last && r.proxied == t.proxied
    ensures OnGrid(h, r)
  {
    hide Multiple;
  }

  lemma GridWithdraw(h: Step, g: Roll, t: Tally, x: Name, f: Scale)
    requires Shaped(g) && Fits(g, t) && x in g.voters && OnGrid(h, t) && GridScale(h, f) && Registered(g, t)
    ensures Idle(WithdrawDrop(g, t, x, f))
    ensures var r := Withdraw(g, t, x, f); r.Some? && OnGrid(h, r.value) && Registered(g, r.value)
  {
    hide Propagate, Dropped, Multiple, OnGrid, Registered, AddProxied, Shaped, ShapedVoter, GridScale;
    ProxyHasRow(g, x);
    if g.voters[x].proxy.Some? {
      MultipleNegate(h, t, x);
      GridPush(h, g, t, g.voters[x].proxy.value, -t.last[x], f);
    }
    SameProducersRegistered(g, t, Withdraw(g, t, x, f).value);
  }

  lemma GridRecounts(h: Step, g: Roll, t: Tally, x: Name, proxy: Option<Name>, prods: seq<Name>, w: real, f: Scale)
    requires Shaped(g) && Fits(g, t) && x in g.voters && OnGrid(h, t) && GridScale(h, f) && Registered(g, t)
    requires (proxy.Some? ==> proxy.value in g.voters) && Multiple(h, w)
    ensures LosslessRecount(g, t, x, proxy, w, f)
    ensures Recount(g, t, x, proxy, prods, w, f).Some? && OnGrid(h, Recount(g, t, x, proxy, prods, w, f).value)
  {
    hide Multiple, OnGrid, Registered, ApplyDeltas, BallotDeltas, Withdraw, WithdrawDrop, Entrust, EntrustDrop,
      Shaped, Cancels, Of, Idle;
    GridWithdraw(h, g, t, x, f);
    var t1 := Withdraw(g, t, x, f).value;
    GridEntrust(h, g, t1, proxy, w, f);
    IdleCancels(WithdrawDrop(g, t, x, f), EntrustDrop(g, t1, proxy, w, f));
    var t2 := Entrust(g, t1, proxy, w, f).value;
    var d := BallotDeltas(Losing(g.voters[x], t.last[x]), t.last[x], Gaining(proxy, prods, w), w);
    DeltasKeepWeights(t2, d, true);
    GridSame(h, t2, ApplyDeltas(t2, d, true));
    GridUpdate(h, ApplyDeltas(t2, d, true), x, w, x, w);
  }

  lemma GridEntrust(h: Step, g: Roll, t: Tally, proxy: Option<Name>, w: real, f: Scale)
    requires Shaped(g) && Fits(g, t) && OnGrid(h, t) && GridScale(h, f) && Registered(g, t) && Multiple(h, w)
    requires proxy.Some? ==> proxy.value in g.voters
    ensures Idle(EntrustDrop(g, t, proxy, w, f))
    ensures var r := Entrust(g, t, proxy, w, f); r.Some? && OnGrid(h, r.value)
  {
    hide Propagate, Dropped, Multiple, OnGrid, Registered, AddProxied, Shaped, GridScale;
    if proxy.Some? { GridPush(h, g, t, proxy.value, w, f); }
  }

  lemma DeltasKeepWeights(t: Tally, d: map<Name, real>, floor: bool)
    ensures ApplyDeltas(t, d, floor).last == t.last && ApplyDeltas(t, d, floor).proxied == t.proxied
  {
  }

  lemma MultipleNegate(h: Step, t: Tally, x: Name)
    requires OnGrid(h, t) && x in t.last
    ensures Multiple(h, -t.last[x])
  {
    var i :| Times(h, i) == t.last[x];
    TimesAdd(h, 0, i);
  }

  lemma GridPush(h: Step, g: Roll, t: Tally, q: Name, d: real, f: Scale)
    requires Shaped(g) && Fits(g, t) && q in g.voters && OnGrid(h, t) && GridScale(h, f) && Registered(g, t)
    requires Multiple(h, d)
    ensures Fits(g, AddProxied(t, q, d)) && Idle(Dropped(g, AddProxied(t, q, d), q, f))
    ensures var r := Propagate(g, AddProxied(t, q, d), q, f); r.Some? && OnGrid(h, r.value)
  {
    hide RealSum, Propagate, Dropped, Multiple, OnGrid, Registered, ShapedVoter;
    GridUpdate(h, t, q, d, q, d);
    SameProducersRegistered(g, t, AddProxied(t, q, d));
    GridPropagates(h, g, AddProxied(t, q, d), q, f);
  }

  // ---------------------------------------------------------------- runs

  ghost predicate OnGridAction(h: Step, a: Action) {
    match a
    case Vote(_, _, _, f) => GridScale(h, f)
    case FlagProxy(_, _, f) => GridScale(h, f)
    case ChangeStake(_, _, f) => GridScale(h, f)
    case _ => true
  }

  lemma GridWeight(h: Step, s: State, x: Name, f: Scale)
    requires WellFormed(s) && OnGrid(h, s.tally) && GridScale(h, f) && x in s.roll.voters
    ensures Multiple(h, CurrentWeight(s.roll.voters[x], s.tally.proxied[x], f))
  {
    hide Multiple, OnGrid, GridScale, ShapedVoter;
    GridChange(h, s.roll, s.tally, x, f);
  }

  lemma GridVotes(h: Step, s: State, x: Name, proxy: Option<Name>, prods: seq<Name>, voting: bool, f: Scale)
    requires WellFormed(s) && Registered(s.roll, s.tally) && OnGrid(h, s.tally) && GridScale(h, f)
    requires !voting && x in s.roll.voters ==> proxy == s.roll.voters[x].proxy
    ensures LosslessVote(s, x, proxy, prods, voting, f)
    ensures var r := UpdateVotes(s, x, proxy, prods, voting, f); r.Some? ==> OnGrid(h, r.value.tally)
  {
    hide Multiple, OnGrid, GridScale, Registered, Recount, LosslessRecount, ShapedVoter;
    if MayVote(s, x, proxy, prods, voting, f) {
      GridWeight(h, s, x, f);
      GridRecounts(h, s.roll, s.tally, x, proxy, prods, CurrentWeight(s.roll.voters[x], s.tally.proxied[x], f), f);
    }
  }

  lemma GridAddVoter(h: Step, s: State, x: Name, staked: nat, isProxy: bool)
    requires WellFormed(s) && OnGrid(h, s.tally) && x !in s.roll.voters
    ensures OnGrid(h, AddVoter(s, x, staked, isProxy).tally)
  {
    hide ShapedVoter;
    assert Times(h, 0) == 0.0;
  }

  lemma GridAction(h: Step, s: State, a: Action)
    requires Inv(s) && OnGrid(h, s.tally) && OnGridAction(h, a)
    ensures LosslessAction(s, a) && OnGrid(h, Exec(s, a).tally)
  {
    hide Multiple, OnGrid, GridScale, UpdateVotes, LosslessVote, Propagate, Lossless, Balanced, AddVoter, ShapedVoter,
      SetFlag, SetStake;
    match a
    case Vote(x, proxy, prods, f) =>
      assert Registered(s.roll, s.tally) by { InvRegistered(s); }
      GridVotes(h, s, x, proxy, prods, true, f);
    case FlagProxy(x, flag, f) =>
      if x !in s.roll.voters {
        GridAddVoter(h, s, x, 0, flag);
      } else if flag ==> s.roll.voters[x].proxy.None? {
        GridFlag(h, s, x, flag, f);
      }
    case ChangeStake(x, delta, f) =>
      if x !in s.roll.voters {
        if delta >= 0 { GridAddVoter(h, s, x, delta, false); }
      } else if s.roll.voters[x].staked + delta >= 0 {
        GridStake(h, s, x, s.roll.voters[x].staked + delta, f);
      }
    case Register(p) => GridSame(h, s.tally, RegProducer(s, p).tally);
    case Unregister(p) =>
  }

  lemma GridStake(h: Step, s: State, x: Name, staked: nat, f: Scale)
    requires Inv(s) && OnGrid(h, s.tally) && GridScale(h, f) && x in s.roll.voters
    ensures var v := s.roll.voters[x];
            var s' := s.(roll := SetStake(s.roll, x, staked));
            && x in s'.roll.voters && s'.roll.voters[x].proxy == v.proxy
            && LosslessVote(s', x, v.proxy, v.producers, false, f)
            && var r := UpdateVotes(s', x, v.proxy, v.producers, false, f); r.Some? ==> OnGrid(h, r.value.tally)
  {
    hide Multiple, OnGrid, GridScale, UpdateVotes, LosslessVote, Balanced, ShapedVoter, SetStake;
    var s' := s.(roll := SetStake(s.roll, x, staked));
    SetStakeKeepsInv(s, x, staked);
    InvRegistered(s');
    StakeOnly(s.roll, x, staked);
    GridVotes(h, s', x, s.roll.voters[x].proxy, s.roll.voters[x].producers, false, f);
  }

  lemma StakeOnly(g: Roll, x: Name, staked: nat)
    requires Shaped(g) && x in g.voters
    ensures x in SetStake(g, x, staked).voters && SetStake(g, x, staked).voters[x].proxy == g.voters[x].proxy
  {
  }

  lemma InvRegistered(s: State)
    requires Inv(s)
    ensures Registered(s.roll, s.tally)
  {
  }

  lemma GridFlag(h: Step, s: State, x: Name, flag: bool, f: Scale)
    requires Inv(s) && OnGrid(h, s.tally) && GridScale(h, f) && x in s.roll.voters
    requires flag ==> s.roll.voters[x].proxy.None?
    ensures Lossless(SetFlag(s.roll, x, flag), s.tally, x, f)
    ensures var r := Propagate(SetFlag(s.roll, x, flag), s.tally, x, f); r.Some? ==> OnGrid(h, r.value)
  {
    hide Multiple, OnGrid, GridScale, Propagate, Dropped, Tallied, NonNegative, ShapedVoter, Cancels;
    SetFlagBalanced(s.roll, s.tally, x, flag);
    GridPropagates(h, SetFlag(s.roll, x, flag), s.tally, x, f);
    IdleCancels(NOTHING, Dropped(SetFlag(s.roll, x, flag), s.tally, x, f));
  }

  ghost predicate GridActions(h: Step, run: seq<Action>) { forall a <- run :: OnGridAction(h, a) }

  lemma {:induction false} GridRun(h: Step, s: State, run: seq<Action>)
    requires Inv(s) && OnGrid(h, s.tally) && GridActions(h, run)
    ensures LosslessRun(s, run)
    decreases |run|
  {
    hide Balanced, OnGrid, Exec, LosslessAction, OnGridAction;
    if run != [] {
      GridAction(h, s, run[0]);
      ActionKeepsInv(s, run[0]);
      assert GridActions(h, run[1..]);
      GridRun(h, Exec(s, run[0]), run[1..]);
    }
  }

  /** From the empty tables, every run whose weights are multiples of one step of more than one vote keeps every
      tally equal to the sum that defines it, and the floor at zero is never met. */
  lemma GridRunsAreExact(h: Step, run: seq<Action>)
    requires GridActions(h, run)
    ensures Inv(Run(EMPTY, run)) && forall k :: 0 <= k < |run| ==> !FlooredAt(EMPTY, run, k)
  {
    hide GridActions, Run, FlooredAt, LosslessRun;
    EmptyKeepsInv();
    GridRun(h, EMPTY, run);
    RunKeepsInv(EMPTY, run);
  }
}
