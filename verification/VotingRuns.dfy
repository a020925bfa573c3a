/** Whole runs of the voting actions: the tables keep their shape in every run, and the tallies
    equal their definition throughout a run exactly when it loses no weight change. */
module VotingRuns {
  import opened Sums
  import opened Voting
  import opened VotingTallies

  // ---------------------------------------------------------------- update_votes

  /** While `x` casts a ballot of weight `w`, no weight change is dropped, or what is dropped by the
      withdrawal of the old ballot is made up for by what is dropped by the new one. */
  ghost predicate LosslessRecount(g: Roll, t: Tally, x: Name, proxy: Option<Name>, w: real, f: Scale)
    requires Shaped(g) && Fits(g, t) && x in g.voters && (proxy.Some? ==> proxy.value in g.voters)
  {
    Withdraw(g, t, x, f).Some? ==>
      Cancels(Of(WithdrawDrop(g, t, x, f)), EntrustDrop(g, Withdraw(g, t, x, f).value, proxy, w, f))
  }

  /** The floor at zero changes the votes of some producer. */
  ghost predicate Floored(g: Roll, t: Tally, x: Name, proxy: Option<Name>, prods: seq<Name>, w: real, f: Scale)
    requires Shaped(g) && Fits(g, t) && x in g.voters && (proxy.Some? ==> proxy.value in g.voters)
  {
    var t1 := Withdraw(g, t, x, f);
    t1.Some? &&
      var t2 := Entrust(g, t1.value, proxy, w, f);
      t2.Some? &&
        var d := BallotDeltas(Losing(g.voters[x], t.last[x]), t.last[x], Gaining(proxy, prods, w), w);
        ApplyDeltas(t2.value, d, true) != ApplyDeltas(t2.value, d, false)
  }

  /** The tallies after a recount are those of the new ballot if and only if nothing is lost; and then the
      floor at zero is not met. */
  lemma RecountTally(g: Roll, t: Tally, x: Name, proxy: Option<Name>, prods: seq<Name>, w: real, f: Scale)
    requires Shaped(g) && Fits(g, t) && x in g.voters && ValidBallot(x, proxy, prods) && w >= 0.0
    requires proxy.Some? ==> proxy.value in g.voters && Clear(g, proxy.value, x)
    requires Registered(g, t) && (proxy.None? ==> AllRegistered(t, prods))
    requires var c := BallotOf(g.voters[x], t.last[x]);
             Midway(g, t, x, c, NO_DRIFT, NOTHING) && NonNegative(With(g, t, x, c))
    ensures var r := Recount(g, t, x, proxy, prods, w, f);
            var c' := BallotOf(g.voters[x].(proxy := proxy, producers := prods), w);
            && r.Some? && r.value.last[x] == w && Registered(g, r.value)
            && (Tallied(r.value, With(g, r.value, x, c')) <==> LosslessRecount(g, t, x, proxy, w, f))
            && (LosslessRecount(g, t, x, proxy, w, f) ==>
                  NonNegative(With(g, r.value, x, c')) && !Floored(g, t, x, proxy, prods, w, f))
  {
    hide RealSum, Withdraw, Entrust, ApplyDeltas, WithdrawDrop, EntrustDrop, ShapedVoter, Cancels, Addressed, Reaches,
      NonNegative, Tallied,
      TalliedBut, With, Registered, Shaped, Clear, AllRegistered, Of, Drift.Plus;
    var v := g.voters[x];
    var last := t.last[x];
    RecountNeverAborts(g, t, x, proxy, prods, w, f);
    WithNonNegative(g, t, x, BallotOf(v, last), BallotOf(v, last));
    WithdrawTally(g, t, x, f);
    OfIs(WithdrawDrop(g, t, x, f));
    var t1 := Withdraw(g, t, x, f).value;
    var l, l' := WithdrawDrop(g, t, x, f), EntrustDrop(g, t1, proxy, w, f);
    EntrustTally(g, t1, x, Undone(v, last), proxy, w, f, Of(l));
    var t2 := Entrust(g, t1, proxy, w, f).value;
    var c := Undone(v, last).(proxy := proxy, toProxy := w);
    var c' := BallotOf(v.(proxy := proxy, producers := prods), w);
    var d := BallotDeltas(Losing(v, last), last, Gaining(proxy, prods, w), w);
    DeltasAreRegistered(g, t, x, proxy, prods, w);
    DropsAreAddressed(g, t, t1, t2, x, proxy, w, f);
    AddressedReaches(t2, l);
    CountTally(g, t2, x, c, c', d, Of(l), l');
    SameProducersRegistered(g, t, ApplyDeltas(t2, d, true));
    RecountEnds(g, ApplyDeltas(t2, d, true), x, c', w);
  }

  lemma DeltasAreRegistered(g: Roll, t: Tally, x: Name, proxy: Option<Name>, prods: seq<Name>, w: real)
    requires Fits(g, t) && x in g.voters && Registered(g, t) && (proxy.None? ==> AllRegistered(t, prods))
    ensures BallotDeltas(Losing(g.voters[x], t.last[x]), t.last[x], Gaining(proxy, prods, w), w).Keys <= t.votes.Keys
  {
    RegisteredRow(g, t, x);
  }

  lemma RecountEnds(g: Roll, t: Tally, x: Name, c: Ballot, w: real)
    requires Fits(g, t) && x in g.voters && Registered(g, t)
    ensures With(g, Set(t, x, w), x, c) == With(g, t, x, c)
    ensures Tallied(Set(t, x, w), With(g, t, x, c)) <==> Tallied(t, With(g, t, x, c))
    ensures Registered(g, Set(t, x, w))
  {
    hide RealSum, VotesFor, EntrustedTo;
  }

  lemma DropsAreAddressed(g: Roll, t: Tally, t1: Tally, t2: Tally, x: Name, proxy: Option<Name>, w: real, f: Scale)
    requires Shaped(g) && Fits(g, t) && Fits(g, t1) && Fits(g, t2) && x in g.voters && Registered(g, t)
    requires t1.votes.Keys == t.votes.Keys == t2.votes.Keys && (proxy.Some? ==> proxy.value in g.voters)
    ensures Addressed(t2, WithdrawDrop(g, t, x, f)) && Addressed(t2, EntrustDrop(g, t1, proxy, w, f))
  {
    hide Registered, Dropped, ShapedVoter, Addressed, Shaped;
    assert Addressed(t2, NOTHING) by { NothingIsAddressed(t2); }
    ProxyHasRow(g, x);
    if g.voters[x].proxy.Some? {
      PushDropAddressed(g, t, t2, g.voters[x].proxy.value, -t.last[x], f);
    }
    if proxy.Some? {
      SameProducersRegistered(g, t, t1);
      PushDropAddressed(g, t1, t2, proxy.value, w, f);
    }
  }

  lemma NothingReaches(t: Tally)
    ensures Reaches(t, NO_DRIFT)
  {
  }

  lemma NothingIsAddressed(t: Tally)
    ensures Addressed(t, NOTHING)
  {
  }

  lemma PushDropAddressed(g: Roll, t: Tally, t2: Tally, q: Name, d: real, f: Scale)
    requires Shaped(g) && Fits(g, t) && Fits(g, t2) && q in g.voters && Registered(g, t)
    requires t2.votes.Keys == t.votes.Keys
    ensures Fits(g, AddProxied(t, q, d)) && Addressed(t2, Dropped(g, AddProxied(t, q, d), q, f))
  {
    hide Registered, Dropped, ShapedVoter, Addressed, Shaped;
    SameProducersRegistered(g, t, AddProxied(t, q, d));
    DroppedIsAddressed(g, AddProxied(t, q, d), q, f);
    SameAddresses(AddProxied(t, q, d), t2, Dropped(g, AddProxied(t, q, d), q, f));
  }

  lemma MidwayOfInv(s: State, x: Name)
    requires Inv(s) && x in s.roll.voters
    ensures Registered(s.roll, s.tally)
    ensures var c := BallotOf(s.roll.voters[x], s.tally.last[x]);
            Midway(s.roll, s.tally, x, c, NO_DRIFT, NOTHING) && NonNegative(With(s.roll, s.tally, x, c))
  {
    hide RealSum, VotesFor, EntrustedTo, Tallied, TalliedBut, NonNegative;
    CastIsWith(s.roll, s.tally, x);
    NoDrift(s.tally, Cast(s.roll, s.tally));
  }

  /** Once the new ballot is stored, the tables are balanced if the tallies count that ballot, and not
      otherwise. */
  lemma BallotStored(g: Roll, t: Tally, x: Name, v: Voter, g': Roll)
    requires Fits(g, t) && x in g.voters && g'.voters == g.voters[x := v] && Registered(g, t)
    requires AllRegistered(t, v.producers)
    ensures var b := With(g, t, x, BallotOf(v, t.last[x]));
            Fits(g', t) && (Balanced(g', t) <==> NonNegative(b) && Tallied(t, b))
  {
    hide Tallied, NonNegative, Cast, With, BallotOf;
    StoredIsWith(g, t, x, v, g');
  }

  ghost predicate LosslessVote(s: State, x: Name, proxy: Option<Name>, prods: seq<Name>, voting: bool, f: Scale)
    requires WellFormed(s)
  {
    MayVote(s, x, proxy, prods, voting, f) ==>
      LosslessRecount(s.roll, s.tally, x, proxy, CurrentWeight(s.roll.voters[x], s.tally.proxied[x], f), f)
  }

  ghost predicate FlooredVote(s: State, x: Name, proxy: Option<Name>, prods: seq<Name>, voting: bool, f: Scale)
    requires WellFormed(s)
  {
    && MayVote(s, x, proxy, prods, voting, f)
    && Floored(s.roll, s.tally, x, proxy, prods, CurrentWeight(s.roll.voters[x], s.tally.proxied[x], f), f)
  }

  /** A vote succeeds exactly when its own checks pass, and keeps every tally equal to its definition
      exactly when nothing is lost. */
  lemma UpdateVotesKeepsInv(s: State, x: Name, proxy: Option<Name>, prods: seq<Name>, voting: bool, f: Scale)
    requires Inv(s)
    requires !voting && x in s.roll.voters ==> proxy == s.roll.voters[x].proxy
    ensures var r := UpdateVotes(s, x, proxy, prods, voting, f);
            && (r.Some? <==> MayVote(s, x, proxy, prods, voting, f))
            && (r.Some? ==> (Inv(r.value) <==> LosslessVote(s, x, proxy, prods, voting, f)))
    ensures LosslessVote(s, x, proxy, prods, voting, f) ==> !FlooredVote(s, x, proxy, prods, voting, f)
  {
    hide RealSum, Tallied, NonNegative, Recount, LosslessRecount, Registered, ShapedVoter, Midway, With, Balanced,
      Floored;
    if MayVote(s, x, proxy, prods, voting, f) {
      var g, t := s.roll, s.tally;
      var v := g.voters[x];
      var w := CurrentWeight(v, t.proxied[x], f);
      assert w >= 0.0 by { InvWeight(s, x, f); }
      MidwayOfInv(s, x);
      if proxy.Some? { ProxyIsClear(g, x, proxy.value); }
      RecountTally(g, t, x, proxy, prods, w, f);
      var r := Recount(g, t, x, proxy, prods, w, f).value;
      BallotStored(g, r, x, v.(proxy := proxy, producers := prods), StoreBallot(g, x, proxy, prods, voting));
    }
  }

  lemma InvWeight(s: State, x: Name, f: Scale)
    requires Inv(s) && x in s.roll.voters
    ensures CurrentWeight(s.roll.voters[x], s.tally.proxied[x], f) >= 0.0
  {
    hide RealSum, Tallied, NonNegative, Registered, ShapedVoter, TalliedBut;
    NoDrift(s.tally, Cast(s.roll, s.tally));
    WeightNonNegative(s.roll, s.tally, Cast(s.roll, s.tally), x, f, NO_DRIFT);
  }

  // ---------------------------------------------------------------- the other actions

  lemma PropagateBalanced(g: Roll, t: Tally, x: Name, f: Scale)
    requires Shaped(g) && Fits(g, t) && Balanced(g, t) && x in g.voters
    ensures var r := Propagate(g, t, x, f);
            r.Some? && (Balanced(g, r.value) <==> Lossless(g, t, x, f))
  {
    hide RealSum, VotesFor, EntrustedTo, Tallied, TalliedBut, NonNegative, Propagate, Dropped, ShapedVoter, Addressed,
      Registered,
      Absorbs, Cancels, Reaches, Overlay, Drawn, Cast, Shaped;
    var b := Cast(g, t);
    CastIsDrawn(g, t, t);
    NoDrift(t, b);
    PropagateNeverAborts(g, t, x, f);
    PropagateDrift(g, t, x, f, b, {}, NO_DRIFT);
    var r := Propagate(g, t, x, f).value;
    CastIsDrawn(g, t, r);
    SameProducersRegistered(g, t, r);
    NothingReaches(r);
    DroppedIsAddressed(g, t, x, f);
    SameAddresses(t, r, Dropped(g, t, x, f));
    DriftCancels(r, Cast(g, r), NO_DRIFT, Dropped(g, t, x, f));
    NothingAbsorbed(Dropped(g, t, x, f));
  }

  /** Flipping the proxy flag keeps the invariant if and only if no weight change is dropped. */
  lemma SetFlagKeepsInv(s: State, x: Name, flag: bool, f: Scale)
    requires Inv(s) && x in s.roll.voters && (flag ==> s.roll.voters[x].proxy.None?)
    ensures var g := SetFlag(s.roll, x, flag);
            var r := Propagate(g, s.tally, x, f);
            r.Some? && (Inv(s.(roll := g, tally := r.value)) <==> Lossless(g, s.tally, x, f))
  {
    hide Balanced, Propagate, Lossless, ShapedVoter, SetFlag;
    SetFlagBalanced(s.roll, s.tally, x, flag);
    PropagateBalanced(SetFlag(s.roll, x, flag), s.tally, x, f);
  }

  lemma SetFlagBalanced(g: Roll, t: Tally, x: Name, flag: bool)
    requires Shaped(g) && Fits(g, t) && Balanced(g, t) && x in g.voters && (flag ==> g.voters[x].proxy.None?)
    ensures Fits(SetFlag(g, x, flag), t) && Balanced(SetFlag(g, x, flag), t)
  {
    hide RealSum, Tallied, NonNegative, ShapedVoter, AllRegistered;
    assert Cast(SetFlag(g, x, flag), t) == Cast(g, t);
  }

  lemma SetStakeKeepsInv(s: State, x: Name, staked: nat)
    requires Inv(s) && x in s.roll.voters
    ensures Inv(s.(roll := SetStake(s.roll, x, staked)))
  {
    hide RealSum, VotesFor, EntrustedTo, Tallied, NonNegative, ShapedVoter;
    assert Cast(SetStake(s.roll, x, staked), s.tally) == Cast(s.roll, s.tally);
  }

  lemma AddVoterKeepsInv(s: State, x: Name, staked: nat, isProxy: bool)
    requires Inv(s) && x !in s.roll.voters
    ensures Inv(AddVoter(s, x, staked, isProxy))
  {
    hide RealSum, VotesFor, EntrustedTo, ShapedVoter, NonNegative, Cast;
    var b := Cast(s.roll, s.tally);
    CastOfNewVoter(s, x, staked, isProxy);
    NewBallot(b, x, NOTHING);
    FollowersExist(s, x);
  }

  lemma CastOfNewVoter(s: State, x: Name, staked: nat, isProxy: bool)
    requires WellFormed(s) && x !in s.roll.voters
    ensures var r := AddVoter(s, x, staked, isProxy);
            Cast(r.roll, r.tally) == Cast(s.roll, s.tally)[x := NOTHING] && x !in Cast(s.roll, s.tally)
  {
    hide Shaped;
  }

  lemma NewBallot(b: Ballots, x: Name, c: Ballot)
    requires x !in b && c == NOTHING
    ensures forall p :: VotesFor(b[x := c], p) == VotesFor(b, p) && EntrustedTo(b[x := c], p) == EntrustedTo(b, p)
    ensures NonNegative(b) ==> NonNegative(b[x := c])
  {
    forall p ensures VotesFor(b[x := c], p) == VotesFor(b, p) && EntrustedTo(b[x := c], p) == EntrustedTo(b, p) {
      hide RealSum, VotesFor, EntrustedTo;
      VotesForUpdate(b, x, c, p);
      EntrustedToUpdate(b, x, c, p);
    }
  }

  /** Nobody follows an account that has no row. */
  lemma FollowersExist(s: State, x: Name)
    requires Shaped(s.roll) && Fits(s.roll, s.tally) && x !in s.roll.voters
    ensures EntrustedTo(Cast(s.roll, s.tally), x) == 0.0
  {
    var b := Cast(s.roll, s.tally);
    forall y <- b ensures b[y].ToProxy(x) == 0.0 {
      assert ShapedVoter(s.roll, y);
    }
    RealSumZero(ProxyColumn(b, x));
  }

  /** Nobody votes for a producer that is not registered yet. */
  lemma ApproversExist(s: State, p: Name)
    requires Fits(s.roll, s.tally) && Registered(s.roll, s.tally) && p !in s.tally.votes
    ensures VotesFor(Cast(s.roll, s.tally), p) == 0.0
  {
    var b := Cast(s.roll, s.tally);
    forall y <- b ensures b[y].ToProducer(p) == 0.0 {
      assert AllRegistered(s.tally, s.roll.voters[y].producers);
    }
    RealSumZero(ProducerColumn(b, p));
  }

  lemma RegProducerKeepsInv(s: State, p: Name)
    requires Inv(s)
    ensures Inv(RegProducer(s, p))
  {
    hide RealSum, VotesFor, EntrustedTo, NonNegative, ShapedVoter;
    assert Cast(RegProducer(s, p).roll, RegProducer(s, p).tally) == Cast(s.roll, s.tally);
    if p !in s.tally.votes {
      ApproversExist(s, p);
      RealSumUpdate(s.tally.votes, p, 0.0);
    }
  }

  // ---------------------------------------------------------------- runs

  datatype Action =
    | Vote(voter: Name, proxy: Option<Name>, producers: seq<Name>, f: Scale)
    | FlagProxy(voter: Name, flag: bool, f: Scale)
    | ChangeStake(voter: Name, delta: int, f: Scale)
    | Register(producer: Name)
    | Unregister(producer: Name)

  ghost function Attempt(s: State, a: Action): (r: Option<State>)
    requires WellFormed(s)
    ensures r.Some? ==> WellFormed(r.value)
  {
    match a
    case Vote(x, proxy, prods, f) => UpdateVotes(s, x, proxy, prods, true, f)
    case FlagProxy(x, flag, f) => RegProxy(s, x, flag, f)
    case ChangeStake(x, delta, f) => Restake(s, x, delta, f)
    case Register(p) => Some(RegProducer(s, p))
    case Unregister(p) => Deactivate(s, p)
  }

  /** An aborted action leaves the state as it was. */
  ghost function Exec(s: State, a: Action): (r: State)
    requires WellFormed(s)
    ensures WellFormed(r)
  {
    var r := Attempt(s, a);
    if r.Some? then r.value else s
  }

  /** Every state a run reaches is well formed, so its proxy graph has no cycle. */
  ghost function Run(s: State, run: seq<Action>): (r: State)
    requires WellFormed(s)
    ensures WellFormed(r)
    decreases |run|
  {
    if run == [] then s else Run(Exec(s, run[0]), run[1..])
  }

  /** No weight change is lost by action `a`. */
  ghost predicate LosslessAction(s: State, a: Action)
    requires WellFormed(s)
  {
    match a
    case Vote(x, proxy, prods, f) => LosslessVote(s, x, proxy, prods, true, f)
    case FlagProxy(x, flag, f) =>
      x in s.roll.voters && flag != s.roll.voters[x].isProxy && (flag ==> s.roll.voters[x].proxy.None?) ==>
        Lossless(SetFlag(s.roll, x, flag), s.tally, x, f)
    case ChangeStake(x, delta, f) =>
      x in s.roll.voters && s.roll.voters[x].staked + delta >= 0 ==>
        var v := s.roll.voters[x];
        LosslessVote(s.(roll := SetStake(s.roll, x, v.staked + delta)), x, v.proxy, v.producers, false, f)
    case Register(p) => true
    case Unregister(p) => true
  }

  /** The floor at zero changes the votes of some producer in action `a`. */
  ghost predicate FlooredAction(s: State, a: Action)
    requires WellFormed(s)
  {
    match a
    case Vote(x, proxy, prods, f) => FlooredVote(s, x, proxy, prods, true, f)
    case ChangeStake(x, delta, f) =>
      x in s.roll.voters && s.roll.voters[x].staked + delta >= 0 &&
        var v := s.roll.voters[x];
        FlooredVote(s.(roll := SetStake(s.roll, x, v.staked + delta)), x, v.proxy, v.producers, false, f)
    case _ => false
  }

  ghost predicate LosslessRun(s: State, run: seq<Action>)
    requires WellFormed(s)
    decreases |run|
  {
    run != [] ==> LosslessAction(s, run[0]) && LosslessRun(Exec(s, run[0]), run[1..])
  }

  /** An action keeps every tally exact if and only if it loses no weight change. */
  lemma ActionKeepsInv(s: State, a: Action)
    requires Inv(s)
    ensures Inv(Exec(s, a)) <==> LosslessAction(s, a)
    ensures LosslessAction(s, a) ==> !FlooredAction(s, a)
  {
    hide Balanced, Propagate, Lossless, LosslessRecount, Recount, UpdateVotes, LosslessVote, FlooredVote, ShapedVoter,
      SetFlag,
      SetStake, AddVoter, MayVote, Restake;
    match a
    case Vote(x, proxy, prods, f) =>
      UpdateVotesKeepsInv(s, x, proxy, prods, true, f);
      RefusedVote(s, x, proxy, prods, true, f);
    case FlagProxy(x, flag, f) =>
      if x !in s.roll.voters {
        AddVoterKeepsInv(s, x, 0, flag);
      } else if flag ==> s.roll.voters[x].proxy.None? {
        SetFlagKeepsInv(s, x, flag, f);
      }
    case ChangeStake(x, delta, f) => RestakeKeepsInv(s, x, delta, f);
    case Register(p) => RegProducerKeepsInv(s, p);
    case Unregister(p) =>
  }

  lemma RefusedVote(s: State, x: Name, proxy: Option<Name>, prods: seq<Name>, voting: bool, f: Scale)
    requires WellFormed(s)
    ensures !MayVote(s, x, proxy, prods, voting, f) ==> LosslessVote(s, x, proxy, prods, voting, f)
  {
  }

  /** A stake change never aborts for lack of a proxy, a producer or a valid ballot: the stored ballot
      can always be re-cast. */
  lemma RestakeKeepsInv(s: State, x: Name, delta: int, f: Scale)
    requires Inv(s)
    ensures Restake(s, x, delta, f).Some? <==>
            (if x in s.roll.voters then s.roll.voters[x].staked else 0) + delta >= 0
    ensures Inv(Exec(s, ChangeStake(x, delta, f))) <==> LosslessAction(s, ChangeStake(x, delta, f))
    ensures LosslessAction(s, ChangeStake(x, delta, f)) ==> !FlooredAction(s, ChangeStake(x, delta, f))
  {
    hide Balanced, Propagate, Dropped, LosslessRecount, Recount, UpdateVotes, ShapedVoter, AddVoter, MayVote,
      FlooredVote;
    if x !in s.roll.voters {
      if delta >= 0 { AddVoterKeepsInv(s, x, delta, false); }
    } else if s.roll.voters[x].staked + delta >= 0 {
      var v := s.roll.voters[x];
      var s' := s.(roll := SetStake(s.roll, x, v.staked + delta));
      SetStakeKeepsInv(s, x, v.staked + delta);
      StoredBallotIsValid(s', x, f);
      UpdateVotesKeepsInv(s', x, v.proxy, v.producers, false, f);
      if v.proxy.None? {
        NoProxyNoLoss(s'.roll, s'.tally, x, CurrentWeight(s'.roll.voters[x], s'.tally.proxied[x], f), f);
      }
    }
  }

  /** Who follows no proxy before and after loses nothing. */
  lemma NoProxyNoLoss(g: Roll, t: Tally, x: Name, w: real, f: Scale)
    requires Shaped(g) && Fits(g, t) && x in g.voters && g.voters[x].proxy.None?
    ensures LosslessRecount(g, t, x, None, w, f)
  {
    hide Propagate, Dropped, ShapedVoter;
  }

  lemma StoredBallotIsValid(s: State, x: Name, f: Scale)
    requires Inv(s) && x in s.roll.voters
    ensures MayVote(s, x, s.roll.voters[x].proxy, s.roll.voters[x].producers, false, f)
  {
    hide Tallied, NonNegative;
    assert ShapedVoter(s.roll, x);
    assert AllRegistered(s.tally, s.roll.voters[x].producers);
  }

  lemma EmptyKeepsInv()
    ensures Inv(EMPTY)
  {
    hide VotesFor, EntrustedTo;
  }

  ghost predicate ExactAt(s: State, run: seq<Action>, k: nat)
    requires WellFormed(s) && k <= |run|
  {
    Inv(Run(s, run[..k]))
  }

  /** A run keeps each producer's votes, each proxy's entrusted weight and the grand total equal to the
      sums that define them, in every state along the way, if and only if it loses no weight change. */
  lemma {:induction false} RunKeepsInv(s: State, run: seq<Action>)
    requires Inv(s)
    ensures (forall k :: 0 <= k <= |run| ==> ExactAt(s, run, k)) <==> LosslessRun(s, run)
    ensures LosslessRun(s, run) ==> Inv(Run(s, run))
    ensures LosslessRun(s, run) ==> forall k :: 0 <= k < |run| ==> !FlooredAt(s, run, k)
    decreases |run|
  {
    ExactNow(s, run);
    assert run[..|run|] == run && (ExactAt(s, run, |run|) <==> Inv(Run(s, run)));
    hide Exec, LosslessAction, Inv, WellFormed, ExactAt, FlooredAt, FlooredAction;
    if run != [] {
      var s' := Exec(s, run[0]);
      ActionKeepsInv(s, run[0]);
      ExactNow(s', run[1..]);
      forall k: nat | 0 < k <= |run| ensures ExactAt(s, run, k) <==> ExactAt(s', run[1..], k - 1) {
        ExactNext(s, run, k);
      }
      assert ExactAt(s, run, 1) <==> LosslessAction(s, run[0]);
      if LosslessAction(s, run[0]) {
        RunKeepsInv(s', run[1..]);
        if LosslessRun(s, run) {
          forall k: nat | k <= |run| ensures ExactAt(s, run, k) {
            if k > 0 { assert ExactAt(s', run[1..], k - 1); }
          }
          forall k: nat | k < |run| ensures !FlooredAt(s, run, k) {
            FlooredNext(s, run, k);
            if k > 0 { assert !FlooredAt(s', run[1..], k - 1); }
          }
        } else {
          var k: nat :| k <= |run| - 1 && !ExactAt(s', run[1..], k);
          assert !ExactAt(s, run, k + 1);
        }
      }
    }
  }

  /** Action `k` of the run meets the floor. */
  ghost predicate FlooredAt(s: State, run: seq<Action>, k: nat)
    requires WellFormed(s) && k < |run|
  {
    FlooredAction(Run(s, run[..k]), run[k])
  }

  lemma FlooredNext(s: State, run: seq<Action>, k: nat)
    requires WellFormed(s) && k < |run|
    ensures FlooredAt(s, run, k) <==>
            if k == 0 then FlooredAction(s, run[0]) else FlooredAt(Exec(s, run[0]), run[1..], k - 1)
  {
    if k == 0 {
      hide FlooredAction;
      assert run[..0] == [];
    } else {
      hide FlooredAction, Exec, WellFormed, Run;
      RunTail(s, run, k);
    }
  }

  lemma ExactNow(s: State, run: seq<Action>)
    requires WellFormed(s)
    ensures ExactAt(s, run, 0) <==> Inv(s)
  {
    hide Inv;
    assert run[..0] == [];
  }

  lemma ExactNext(s: State, run: seq<Action>, k: nat)
    requires WellFormed(s) && 0 < k <= |run|
    ensures ExactAt(s, run, k) <==> ExactAt(Exec(s, run[0]), run[1..], k - 1)
  {
    hide Inv, Exec, WellFormed, Run;
    RunTail(s, run, k);
  }

  lemma {:induction false} RunThen(s: State, run: seq<Action>, a: Action)
    requires WellFormed(s)
    ensures Run(s, run + [a]) == Exec(Run(s, run), a)
    decreases |run|
  {
    hide Exec, WellFormed;
    if run == [] {
      assert run + [a] == [a] && [a][1..] == [];
    } else {
      RunThen(Exec(s, run[0]), run[1..], a);
      assert (run + [a])[1..] == run[1..] + [a];
    }
  }

  /** A run that is cut off goes on from the state after its first action. */
  lemma {:induction false} RunTail(s: State, run: seq<Action>, k: nat)
    requires WellFormed(s) && 0 < k <= |run|
    ensures Run(s, run[..k]) == Run(Exec(s, run[0]), run[1..][..k - 1])
  {
    hide Exec, WellFormed;
    assert run[..k][1..] == run[1..][..k - 1];
  }

  // ---------------------------------------------------------------- the proxy graph

  /** Where `n` proxy hops lead from `x`, if that far. */
  ghost function Follow(g: Roll, x: Name, n: nat): (y: Option<Name>)
    requires Shaped(g) && x in g.voters
    ensures y.Some? ==> y.value in g.voters && (n > 0 ==> g.rank[y.value] < g.rank[x])
    decreases n
  {
    if n == 0 then Some(x) else
      assert ShapedVoter(g, x);
      if g.voters[x].proxy.None? then None else Follow(g, g.voters[x].proxy.value, n - 1)
  }

  /** In no run, with or without dropped changes, does a proxy chain come back to where it started. */
  lemma ProxyGraphIsAcyclic(run: seq<Action>, x: Name, n: nat)
    requires x in Run(EMPTY, run).roll.voters && n > 0
    ensures Follow(Run(EMPTY, run).roll, x, n) != Some(x)
  {
    hide Run;
    var y := Follow(Run(EMPTY, run).roll, x, n);
  }

  /** Propagation aborts on no table whose stored ballots are all registered, whatever the weights. */
  lemma {:induction false} PropagateNeverAborts(g: Roll, t: Tally, x: Name, f: Scale)
    requires Shaped(g) && Fits(g, t) && x in g.voters && Registered(g, t)
    ensures Propagate(g, t, x, f).Some?
    decreases g.rank[x]
  {
    hide RealSum, ShapedVoter, Dropped, Propagate;
    if Abs(Change(g, t, x, f)) <= 1.0 {
      PropagateQuiet(g, t, x, f);
    } else if g.voters[x].proxy.Some? {
      PropagatePush(g, t, x, f);
      var q := g.voters[x].proxy.value;
      PropagateNeverAborts(g, AddProxied(t, q, Change(g, t, x, f)), q, f);
    } else {
      RegisteredRow(g, t, x);
      PropagateAborts(g, t, x, f);
    }
  }

  lemma PushNeverAborts(g: Roll, t: Tally, q: Name, d: real, f: Scale)
    requires Shaped(g) && Fits(g, t) && q in g.voters && Registered(g, t)
    ensures Fits(g, AddProxied(t, q, d)) && Propagate(g, AddProxied(t, q, d), q, f).Some?
  {
    hide Propagate, Registered, ShapedVoter;
    SameProducersRegistered(g, t, AddProxied(t, q, d));
    PropagateNeverAborts(g, AddProxied(t, q, d), q, f);
  }

  lemma WithdrawNeverAborts(g: Roll, t: Tally, x: Name, f: Scale)
    requires Shaped(g) && Fits(g, t) && x in g.voters && Registered(g, t)
    ensures Withdraw(g, t, x, f).Some? && Registered(g, Withdraw(g, t, x, f).value)
  {
    hide Propagate, Registered, AddProxied, Shaped, ShapedVoter;
    ProxyHasRow(g, x);
    if g.voters[x].proxy.Some? {
      PushNeverAborts(g, t, g.voters[x].proxy.value, -t.last[x], f);
    }
    SameProducersRegistered(g, t, Withdraw(g, t, x, f).value);
  }

  lemma RecountNeverAborts(g: Roll, t: Tally, x: Name, proxy: Option<Name>, prods: seq<Name>, w: real, f: Scale)
    requires Shaped(g) && Fits(g, t) && x in g.voters && Registered(g, t)
    requires proxy.Some? ==> proxy.value in g.voters
    ensures Recount(g, t, x, proxy, prods, w, f).Some?
  {
    hide Propagate, ApplyDeltas, BallotDeltas, Registered, AddProxied, Withdraw, ShapedVoter;
    WithdrawNeverAborts(g, t, x, f);
    if proxy.Some? {
      PushNeverAborts(g, Withdraw(g, t, x, f).value, proxy.value, w, f);
    }
  }

  /** ... so a vote succeeds exactly when its own checks pass. */
  lemma VoteAbortsOnlyOnItsChecks(s: State, x: Name, proxy: Option<Name>, prods: seq<Name>, voting: bool, f: Scale)
    requires WellFormed(s) && Registered(s.roll, s.tally)
    requires !voting && x in s.roll.voters ==> proxy == s.roll.voters[x].proxy
    ensures UpdateVotes(s, x, proxy, prods, voting, f).Some? <==> MayVote(s, x, proxy, prods, voting, f)
  {
    hide Recount, Registered, ShapedVoter;
    if MayVote(s, x, proxy, prods, voting, f) {
      var w := CurrentWeight(s.roll.voters[x], s.tally.proxied[x], f);
      RecountNeverAborts(s.roll, s.tally, x, proxy, prods, w, f);
    }
  }
}
