/** What happens when two factors are at most one vote per unit of stake apart: a run from the empty tables that
    leaves a negative weight, then an unregistered producer in a ballot, then a vote that propagation aborts. */
module VotingSteepness {
  import opened Sums
  import opened Voting
  import opened VotingTallies
  import opened VotingRuns
  import opened VotingRegistration
  import opened VotingSteps
  import opened VotingDrift
  import opened VotingGrid
  import opened VotingLinear

  function ScaleOf(k: real): Scale
    requires k >= 0.0
  {
    ScaleIsScale(k);
    n => Times(k, n)
  }

  lemma ScaleIsScale(k: real)
    requires k >= 0.0
    ensures forall n: nat :: Times(k, n) >= 0.0
  {
  }

  // ---------------------------------------------------------------- the run

  /** Tables without producers. */
  function Bare(
    voters: map<Name, Voter>, rank: map<Name, nat>, last: map<Name, real>, proxied: map<Name, real>, stake: int): State
  {
    State(Roll(voters, rank), map[], Tally(last, proxied, map[], 0.0), stake)
  }

  const PROXY := Voter(None, [], 0, true)
  const VOTER := Voter(None, [], 1, false)

  /** Account 1 is a proxy without stake, 2 one with one unit, and 3 a voter with one unit. */
  const STAKED := Bare(
    map[1 := PROXY, 2 := VOTER.(isProxy := true), 3 := VOTER], map[1 := 0, 2 := 0, 3 := 0],
    map[1 := 0.0, 2 := 0.0, 3 := 0.0], map[1 := 0.0, 2 := 0.0, 3 := 0.0], 0)

  /** 3 follows 2. */
  function Followed(k: real): State {
    Bare(map[1 := PROXY, 2 := VOTER.(isProxy := true), 3 := VOTER.(proxy := Some(2))], map[1 := 1, 2 := 0, 3 := 1],
         map[1 := 0.0, 2 := k + k, 3 := k], map[1 := 0.0, 2 := k, 3 := 0.0], 1)
  }

  /** 2 is no longer registered as a proxy, though 3 follows it still. */
  function Unflagged(k: real): State {
    Bare(map[1 := PROXY, 2 := VOTER, 3 := VOTER.(proxy := Some(2))], map[1 := 1, 2 := 0, 3 := 1],
         map[1 := 0.0, 2 := k, 3 := k], map[1 := 0.0, 2 := k, 3 := 0.0], 1)
  }

  /** 2 follows 1. */
  function Chained(k: real): State {
    Bare(map[1 := PROXY, 2 := VOTER.(proxy := Some(1)), 3 := VOTER.(proxy := Some(2))], map[1 := 0, 2 := 1, 3 := 2],
         map[1 := k, 2 := k, 3 := k], map[1 := k, 2 := k, 3 := 0.0], 1)
  }

  /** A unit is worth `k'` by now. When 3 leaves, 2 takes that weight and does not tell 1. */
  function Forgotten(k: real, k': real): State {
    Bare(map[1 := PROXY, 2 := VOTER.(proxy := Some(1)), 3 := VOTER], map[1 := 0, 2 := 1, 3 := 2],
         map[1 := k, 2 := k', 3 := k'], map[1 := k, 2 := 0.0, 3 := 0.0], 1)
  }

  /** When 2 leaves as well, 1 is charged more than it was ever given. */
  function Owing(k: real, k': real): State {
    Bare(map[1 := PROXY, 2 := VOTER, 3 := VOTER], map[1 := 0, 2 := 1, 3 := 2],
         map[1 := k - k', 2 := k', 3 := k'], map[1 := k - k', 2 := 0.0, 3 := 0.0], 1)
  }

  /** Account 1 lists a producer that was never registered. */
  function Listed(k: real, k': real): State {
    var s := Owing(k, k');
    s.(roll := s.roll.(voters := s.roll.voters[1 := PROXY.(producers := [99])]))
  }

  /** No row lists a producer. */
  ghost predicate Blank(s: State) { forall x <- s.roll.voters :: s.roll.voters[x].producers == [] }

  lemma {:induction false} BlankIsRegistered(s: State)
    requires Blank(s)
    ensures Registered(s.roll, s.tally)
  {
  }

  lemma {:induction false} StakedIsReached(f: Scale)
    ensures WellFormed(EMPTY)
    ensures Run(EMPTY, [FlagProxy(1, true, f), FlagProxy(2, true, f), ChangeStake(2, 1, f), ChangeStake(3, 1, f)]) ==
            STAKED
  {
    hide Run, Exec, WellFormed, Shaped;
    EmptyKeepsInv();
    var s1 := Bare(map[1 := PROXY], map[1 := 0], map[1 := 0.0], map[1 := 0.0], 0);
    var s2 := Bare(map[1 := PROXY, 2 := PROXY], map[1 := 0, 2 := 0], map[1 := 0.0, 2 := 0.0], map[1 := 0.0, 2 := 0.0],
                   0);
    var s3 := s2.(roll := s2.roll.(voters := map[1 := PROXY, 2 := VOTER.(isProxy := true)]));
    RunOfFour(EMPTY, FlagProxy(1, true, f), FlagProxy(2, true, f), ChangeStake(2, 1, f), ChangeStake(3, 1, f));
    FirstStake(EMPTY, 1, 0, true, f);
    assert Exec(EMPTY, FlagProxy(1, true, f)) == s1;
    FirstStake(s1, 2, 0, true, f);
    assert Exec(s1, FlagProxy(2, true, f)) == s2;
    Stakes(s2, 2, 1, f);
    assert Exec(s2, ChangeStake(2, 1, f)) == s3;
    FirstStake(s3, 3, 1, false, f);
    assert AddVoter(s3, 3, 1, false) == STAKED;
  }

  lemma {:induction false} RunOfFour(s: State, a: Action, b: Action, c: Action, d: Action)
    requires WellFormed(s)
    ensures Run(s, [a, b, c, d]) == Exec(Exec(Exec(Exec(s, a), b), c), d)
  {
    hide Exec, WellFormed;
    assert [a, b, c, d][1..] == [b, c, d] && [b, c, d][1..] == [c, d] && [c, d][1..] == [d] && [d][1..] == [];
    var s1 := Exec(s, a);
    var s2 := Exec(s1, b);
    var s3 := Exec(s2, c);
    assert Run(s3, [d]) == Exec(s3, d);
    assert Run(s2, [c, d]) == Run(s3, [d]);
    assert Run(s1, [b, c, d]) == Run(s2, [c, d]);
  }

  lemma Reranked()
    ensures Rerank(map[1 := 0, 2 := 0, 3 := 0], Some(2)) == map[1 := 1, 2 := 0, 3 := 1]
    ensures Rerank(map[1 := 1, 2 := 0, 3 := 1], Some(1)) == map[1 := 0, 2 := 1, 3 := 2]
  {
  }

  lemma {:induction false} FollowedIsNext(f: Scale, k: real)
    requires f(1) == k >= 0.0 && WellFormed(STAKED)
    ensures Exec(STAKED, Vote(3, Some(2), [], f)) == Followed(k)
  {
    hide Exec, WellFormed, Registered;
    Reranked();
    hide Rerank;
    assert Registered(STAKED.roll, STAKED.tally) by { BlankIsRegistered(STAKED); }
    FollowsIdle(STAKED, 3, 2, f, k, k + k);
  }

  lemma {:induction false} UnflaggedIsNext(f: Scale, k: real)
    requires f(1) == k && WellFormed(Followed(k))
    ensures Exec(Followed(k), FlagProxy(2, false, f)) == Unflagged(k)
  {
    hide Exec, Propagate, Shaped;
    var s := Followed(k);
    TakesWeight(SetFlag(s.roll, 2, false), s.tally, 2, f, k);
    FlagLeadsTo(s, 2, false, f, Set(s.tally, 2, k));
  }

  lemma {:induction false} ChainedIsNext(f: Scale, k: real)
    requires f(0) == 0.0 && f(1) == k > 0.0 && WellFormed(Unflagged(k))
    ensures Exec(Unflagged(k), Vote(2, Some(1), [], f)) == Chained(k)
  {
    hide Exec, WellFormed, Registered;
    Reranked();
    hide Rerank;
    var s := Unflagged(k);
    assert Registered(s.roll, s.tally) by { BlankIsRegistered(s); }
    assert s.tally.proxied[1] + k == k;
    FollowsIdle(Unflagged(k), 2, 1, f, k, k);
  }

  lemma {:induction false} ForgottenIsNext(f: Scale, k: real, k': real)
    requires 0.0 < k < k' <= k + 1.0 && f(1) == k' && WellFormed(Chained(k))
    ensures Exec(Chained(k), Vote(3, None, [], f)) == Forgotten(k, k')
  {
    hide Exec, WellFormed, Registered;
    var s := Chained(k);
    assert Registered(s.roll, s.tally) by { BlankIsRegistered(s); }
    LeavesIdle(s, 3, 2, f, k', k');
  }

  lemma {:induction false} OwingIsNext(f: Scale, k: real, k': real)
    requires 0.0 < k < k' && f(0) == 0.0 && f(1) == k' && WellFormed(Forgotten(k, k'))
    ensures Exec(Forgotten(k, k'), Vote(2, None, [], f)) == Owing(k, k')
  {
    hide Exec, WellFormed, Registered;
    var s := Forgotten(k, k');
    assert Registered(s.roll, s.tally) by { BlankIsRegistered(s); }
    LeavesIdle(Forgotten(k, k'), 2, 1, f, k', k - k');
  }

  function ToOwing(f: Scale, f': Scale): seq<Action> {
    [FlagProxy(1, true, f), FlagProxy(2, true, f), ChangeStake(2, 1, f), ChangeStake(3, 1, f)]
    + [Vote(3, Some(2), [], f)] + [FlagProxy(2, false, f)] + [Vote(2, Some(1), [], f)]
    + [Vote(3, None, [], f')] + [Vote(2, None, [], f')]
  }

  /** At any two factors at most one vote per unit apart, a run from the empty tables leaves account 1 with a
      negative weight. */
  lemma {:induction false} NegativeWeightIsReached(f: Scale, f': Scale, k: real, k': real)
    requires Linear(f, k) && Linear(f', k') && 0.0 < k < k' <= k + 1.0
    ensures Run(EMPTY, ToOwing(f, f')) == Owing(k, k') && !Positive(Owing(k, k'))
  {
    hide Run, Exec, WellFormed, Followed, Unflagged, Chained, Forgotten, Owing;
    LinearValues(f, k);
    LinearValues(f', k');
    hide Linear;
    StakedIsReached(f);
    var run := [FlagProxy(1, true, f), FlagProxy(2, true, f), ChangeStake(2, 1, f), ChangeStake(3, 1, f)];
    RunThen(EMPTY, run, Vote(3, Some(2), [], f));
    run := run + [Vote(3, Some(2), [], f)];
    FollowedIsNext(f, k);
    RunThen(EMPTY, run, FlagProxy(2, false, f));
    run := run + [FlagProxy(2, false, f)];
    UnflaggedIsNext(f, k);
    RunThen(EMPTY, run, Vote(2, Some(1), [], f));
    run := run + [Vote(2, Some(1), [], f)];
    ChainedIsNext(f, k);
    RunThen(EMPTY, run, Vote(3, None, [], f'));
    run := run + [Vote(3, None, [], f')];
    ForgottenIsNext(f', k, k');
    RunThen(EMPTY, run, Vote(2, None, [], f'));
    OwingIsNext(f', k, k');
    OwingIsNegative(k, k');
  }

  lemma {:induction false} LinearValues(f: Scale, k: real)
    requires Linear(f, k)
    ensures f(0) == 0.0 && f(1) == k
  {
  }

  lemma {:induction false} OwingIsNegative(k: real, k': real)
    requires k < k' && WellFormed(Owing(k, k'))
    ensures !Positive(Owing(k, k'))
  {
    hide Shaped;
    var s := Owing(k, k');
    assert !Cast(s.roll, s.tally)[1].NonNegative();
  }

  /** From there account 1 may list a producer that was never registered. */
  lemma {:induction false} UnregisteredProducerIsStored(f: Scale, k: real, k': real)
    requires f(0) == 0.0 && k < k' && WellFormed(Owing(k, k'))
    ensures Careless(Owing(k, k'), Vote(1, None, [99], f))
    ensures Exec(Owing(k, k'), Vote(1, None, [99], f)) == Listed(k, k')
  {
    hide Exec, Registered, Shaped, Propagate;
    var s := Owing(k, k');
    assert Registered(s.roll, s.tally) by { BlankIsRegistered(s); }
    assert 99 in [99];
    BareVote(s, 1, None, [99], f, s.tally, s.tally);
  }

  /** Then a vote that passes all its checks aborts all the same, because propagation does not find that
      producer. */
  lemma {:induction false} PropagationAborts(f: Scale, k: real, k': real)
    requires f(0) == 0.0 && f(1) == k' > 1.0 && k < k' && WellFormed(Listed(k, k'))
    ensures MayVote(Listed(k, k'), 2, Some(1), [], true, f) && UpdateVotes(Listed(k, k'), 2, Some(1), [], true, f).None?
  {
    hide UpdateVotes, Shaped;
    assert 99 in Listed(k, k').roll.voters[1].producers;
    NotFound(Listed(k, k'), 2, 1, f, k');
  }

  /** Entrusting weight to a proxy that lists an unregistered producer aborts. */
  lemma {:induction false} NotFound(s: State, x: Name, q: Name, f: Scale, w: real)
    requires WellFormed(s) && x in s.roll.voters && q in s.roll.voters && s.roll.voters[q].proxy.None?
    requires s.roll.voters[x].proxy.None? && w == WeightOf(s, x, f) >= 0.0
    requires !AllRegistered(s.tally, s.roll.voters[q].producers)
    requires Abs(CurrentWeight(s.roll.voters[q], s.tally.proxied[q] + w, f) - s.tally.last[q]) > 1.0
    ensures UpdateVotes(s, x, Some(q), [], true, f).None?
  {
    hide Propagate, Shaped, MayVote;
    PropagateAborts(s.roll, AddProxied(s.tally, q, w), q, f);
  }

  // ---------------------------------------------------------------- steepness is what it takes

  lemma {:induction false} Shallow(K: Factors) returns (k: real, k': real)
    requires !Steep(K) && forall k :: k in K ==> k >= 0.0
    ensures k in K && k' in K && k < k' <= k + 1.0
  {
    var a, b :| a in K && b in K && a != b && Abs(b - a) <= 1.0;
    if a < b { k, k' := a, b; } else { k, k' := b, a; }
  }

  lemma {:induction false} ToOwingIsLinear(f: Scale, f': Scale, k: real, k': real, K: Factors)
    requires Linear(f, k) && Linear(f', k') && k in K && k' in K
    ensures LinearActions(ToOwing(f, f'), K) && LinearAction(Vote(1, None, [99], f'), K)
  {
    hide Linear;
  }

  lemma {:induction false} ScaleIsLinear(k: real)
    requires k >= 0.0
    ensures Linear(ScaleOf(k), k)
  {
    hide Times;
  }

  ghost predicate AlwaysPositive(K: Factors) {
    EmptyKeepsInv();
    forall run :: LinearActions(run, K) ==> Positive(Run(EMPTY, run))
  }

  /** No run leads to a vote that passes its own checks and aborts. */
  ghost predicate NeverStuck(K: Factors) {
    EmptyKeepsInv();
    forall run, x, proxy, prods, f :: LinearActions(run, K) ==>
      (UpdateVotes(Run(EMPTY, run), x, proxy, prods, true, f).Some? <==>
       MayVote(Run(EMPTY, run), x, proxy, prods, true, f))
  }

  /** In the runs at positive factors from `K` no weight ever goes below zero if and only if any two of the factors
      are more than one vote per unit apart. */
  lemma {:induction false} SteepnessDecides(K: Factors)
    requires forall k :: k in K ==> k > 0.0
    ensures AlwaysPositive(K) <==> Steep(K)
  {
    hide Run, LinearActions, Positive, WellFormed, Steady, Steep, Linear;
    EmptyKeepsInv();
    EmptyIsSteady(K);
    if Steep(K) {
      forall run | LinearActions(run, K) ensures Positive(Run(EMPTY, run)) {
        RunKeepsSteady(EMPTY, run, K);
        SteadyIsPositive(Run(EMPTY, run), K);
      }
    } else {
      var k, k' := Shallow(K);
      ScaleIsLinear(k);
      ScaleIsLinear(k');
      NegativeWeightIsReached(ScaleOf(k), ScaleOf(k'), k, k');
      ToOwingIsLinear(ScaleOf(k), ScaleOf(k'), k, k', K);
    }
  }

  lemma {:induction false} SteadyIsPositive(s: State, K: Factors)
    requires Steady(s, K) && WellFormed(s)
    ensures Positive(s)
  {
    hide Cast, NonNegative, Registered, Factored, ProxiesExact, Shaped;
  }

  /** ... and, if a unit of stake is never worth less than one vote, no propagation ever aborts under that
      condition and no other. */
  lemma {:induction false} SteepnessDecidesAborts(K: Factors)
    requires forall k :: k in K ==> k >= 1.0
    ensures NeverStuck(K) <==> Steep(K)
  {
    hide Run, LinearActions, Shaped, Steep, Linear, UpdateVotes, MayVote;
    EmptyKeepsInv();
    if Steep(K) {
      forall run, x, proxy, prods, f | LinearActions(run, K)
        ensures UpdateVotes(Run(EMPTY, run), x, proxy, prods, true, f).Some? <==>
                MayVote(Run(EMPTY, run), x, proxy, prods, true, f)
      {
        LinearRunsNeverAbort(run, K, x, proxy, prods, f);
      }
    } else {
      var k, k' := Shallow(K);
      StuckIsReached(k, k', K);
    }
  }

  lemma {:induction false} StuckIsReached(k: real, k': real, K: Factors)
    requires k in K && k' in K && 1.0 <= k < k' <= k + 1.0
    ensures !NeverStuck(K)
  {
    hide Run, LinearActions, WellFormed, Linear, UpdateVotes, MayVote, ToOwing, Listed, Owing;
    EmptyKeepsInv();
    ScaleIsLinear(k);
    ScaleIsLinear(k');
    var f, f' := ScaleOf(k), ScaleOf(k');
    NegativeWeightIsReached(f, f', k, k');
    ToOwingIsLinear(f, f', k, k', K);
    LinearValues(f', k');
    UnregisteredProducerIsStored(f', k, k');
    var a := Vote(1, None, [99], f');
    RunThen(EMPTY, ToOwing(f, f'), a);
    assert LinearActions(ToOwing(f, f') + [a], K) by { LinearPlus(ToOwing(f, f'), a, K); }
    PropagationAborts(f', k, k');
  }

  lemma {:induction false} LinearPlus(run: seq<Action>, a: Action, K: Factors)
    requires LinearActions(run, K) && LinearAction(a, K)
    ensures LinearActions(run + [a], K)
  {
    hide LinearAction;
  }
}
