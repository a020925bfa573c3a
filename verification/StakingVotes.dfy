/** Staking and voting together: a stake change also re-casts the vote of whoever's stake it is. */
module StakingVotes {
  import opened Sums
  import S = Staking
  import SR = StakingRuns
  import V = Voting
  import T = VotingTallies
  import R = VotingRuns
  import L = VotingLinear

  type Name = nat

  const MIN_ACTIVATED_STAKE := 1500000000000

  datatype System = System(stake: S.State, votes: V.State)

  datatype Action =
    | Delegate(payer: Name, receiver: Name, net: int, cpu: int, transfer: bool, now: nat, f: V.Scale)
    | Undelegate(payer: Name, receiver: Name, net: int, cpu: int, now: nat, f: V.Scale)
    | Refund(owner: Name, now: nat)
    | Ballot(a: R.Action)   // any voting action but a stake change

  /** The staking tables go first, then the vote is cast again; if either aborts, nothing has happened. */
  ghost function Restaked(s: System, t: Option<S.State>, from: Name, delta: int, f: V.Scale): (r: Option<System>)
    requires V.WellFormed(s.votes)
    ensures r.Some? ==> V.WellFormed(r.value.votes)
  {
    if t.None? then None else
      var v := V.Restake(s.votes, from, delta, f);
      if v.None? then None else Some(System(t.value, v.value))
  }

  predicate Activated(v: V.State) { v.activatedStake >= MIN_ACTIVATED_STAKE }

  ghost function Attempt(s: System, a: Action): (r: Option<System>)
    requires V.WellFormed(s.votes)
    ensures r.Some? ==> V.WellFormed(r.value.votes)
  {
    match a
    case Delegate(p, x, n, c, t, now, f) =>
      Restaked(s, S.Delegate(s.stake, p, x, n, c, t, now), if t then x else p, n + c, f)
    case Undelegate(p, x, n, c, now, f) =>
      Restaked(s, S.Undelegate(s.stake, p, x, n, c, Activated(s.votes), now), p, -n - c, f)
    case Refund(o, now) =>
      var t := S.ClaimRefund(s.stake, o, now);
      if t.None? then None else Some(s.(stake := t.value))
    case Ballot(a) => if a.ChangeStake? then None else Some(s.(votes := R.Exec(s.votes, a)))
  }

  ghost function Exec(s: System, a: Action): (r: System)
    requires V.WellFormed(s.votes)
    ensures V.WellFormed(r.votes)
  {
    var r := Attempt(s, a);
    if r.Some? then r.value else s
  }

  ghost function Run(s: System, run: seq<Action>): (r: System)
    requires V.WellFormed(s.votes)
    ensures V.WellFormed(r.votes)
    decreases |run|
  {
    if run == [] then s else Run(Exec(s, run[0]), run[1..])
  }

  // ---------------------------------------------------------------- one stake, two tables

  function StakeOf(v: V.State, x: Name): int { if x in v.roll.voters then v.roll.voters[x].staked else 0 }

  /** What staking says an account votes with is what its voter row says. */
  ghost predicate Linked(s: System) { forall x: Name :: S.StakedBy(s.stake.staked, x) == StakeOf(s.votes, x) }

  lemma {:induction false} VoteKeepsStakes(
    s: V.State, x: Name, proxy: Option<Name>, prods: seq<Name>, voting: bool, f: V.Scale, y: Name)
    requires V.WellFormed(s) && (!voting && x in s.roll.voters ==> proxy == s.roll.voters[x].proxy)
    requires V.UpdateVotes(s, x, proxy, prods, voting, f).Some?
    ensures StakeOf(V.UpdateVotes(s, x, proxy, prods, voting, f).value, y) == StakeOf(s, y)
  {
    hide V.Shaped, V.Recount, V.Rerank;
  }

  lemma {:induction false} BallotKeepsStakes(s: V.State, a: R.Action, y: Name)
    requires V.WellFormed(s) && !a.ChangeStake?
    ensures StakeOf(R.Exec(s, a), y) == StakeOf(s, y)
  {
    hide V.Shaped, V.UpdateVotes, V.Propagate;
    match a
    case Vote(x, proxy, prods, f) =>
      if V.UpdateVotes(s, x, proxy, prods, true, f).Some? { VoteKeepsStakes(s, x, proxy, prods, true, f, y); }
    case FlagProxy(x, flag, f) =>
    case Register(p) =>
    case Unregister(p) =>
  }

  /** A stake change moves one stake; and on registered ballots only the stake itself can stop it. */
  lemma {:induction false} RestakeLaw(s: V.State, x: Name, delta: int, f: V.Scale, y: Name)
    requires V.WellFormed(s) && T.Registered(s.roll, s.tally)
    ensures var r := V.Restake(s, x, delta, f);
            && (r.Some? <==> StakeOf(s, x) + delta >= 0)
            && (r.Some? ==> StakeOf(r.value, y) == StakeOf(s, y) + if y == x then delta else 0)
  {
    hide V.Shaped, V.UpdateVotes, T.Registered, V.MayVote;
    if x in s.roll.voters && s.roll.voters[x].staked + delta >= 0 {
      var v := s.roll.voters[x];
      var s' := s.(roll := V.SetStake(s.roll, x, v.staked + delta));
      StakeKeepsRegistered(s, x, v.staked + delta);
      L.StoredBallotMayBeCast(s', x, f);
      R.VoteAbortsOnlyOnItsChecks(s', x, v.proxy, v.producers, false, f);
      VoteKeepsStakes(s', x, v.proxy, v.producers, false, f, y);
    }
  }

  lemma {:induction false} StakeKeepsRegistered(s: V.State, x: Name, staked: nat)
    requires V.WellFormed(s) && T.Registered(s.roll, s.tally) && x in s.roll.voters
    ensures var s' := s.(roll := V.SetStake(s.roll, x, staked)); V.WellFormed(s') && T.Registered(s'.roll, s'.tally)
  {
    hide V.Shaped, V.AllRegistered;
  }

  /** What a stake change does to the stake that is voted with, and that it stays nonnegative. */
  lemma {:induction false} ChangeBwStakes(
    s: S.State, payer: Name, receiver: Name, net: int, cpu: int, transfer: bool, now: nat, y: Name)
    requires S.ChangeBw(s, payer, receiver, net, cpu, transfer, now).Some?
    ensures var r := S.ChangeBw(s, payer, receiver, net, cpu, transfer, now).value;
            var from := if transfer then receiver else payer;
            && S.StakedBy(s.staked, from) + net + cpu >= 0
            && S.StakedBy(r.staked, y) == S.StakedBy(s.staked, y) + if y == from then net + cpu else 0
  {
    hide S.Net, S.Transfer, S.PutDelegated, S.PutTotals;
  }

  // ---------------------------------------------------------------- single actions

  /** Delegating both ways succeeds exactly when the staking tables allow it: the vote never stands in the way. */
  lemma {:induction false} VoteNeverStandsInTheWay(s: System, a: Action)
    requires V.WellFormed(s.votes) && T.Registered(s.votes.roll, s.votes.tally) && Linked(s)
    ensures a.Delegate? ==>
      (Attempt(s, a).Some? <==> S.Delegate(s.stake, a.payer, a.receiver, a.net, a.cpu, a.transfer, a.now).Some?)
    ensures a.Undelegate? ==>
      (Attempt(s, a).Some? <==>
         S.Undelegate(s.stake, a.payer, a.receiver, a.net, a.cpu, Activated(s.votes), a.now).Some?)
  {
    hide V.Restake, T.Registered, V.Shaped, S.ChangeBw;
    if a.Delegate? && S.Delegate(s.stake, a.payer, a.receiver, a.net, a.cpu, a.transfer, a.now).Some? {
      var from := if a.transfer then a.receiver else a.payer;
      ChangeBwStakes(s.stake, a.payer, a.receiver, a.net, a.cpu, a.transfer, a.now, from);
      RestakeLaw(s.votes, from, a.net + a.cpu, a.f, from);
    } else if a.Undelegate? &&
              S.Undelegate(s.stake, a.payer, a.receiver, a.net, a.cpu, Activated(s.votes), a.now).Some? {
      ChangeBwStakes(s.stake, a.payer, a.receiver, -a.net, -a.cpu, false, a.now, a.payer);
      RestakeLaw(s.votes, a.payer, -a.net - a.cpu, a.f, a.payer);
    }
  }

  lemma {:induction false} StaysLinked(
    s: System, payer: Name, receiver: Name, net: int, cpu: int, transfer: bool, now: nat, f: V.Scale, y: Name)
    requires V.WellFormed(s.votes) && T.Registered(s.votes.roll, s.votes.tally) && Linked(s)
    requires S.ChangeBw(s.stake, payer, receiver, net, cpu, transfer, now).Some?
    ensures var v := V.Restake(s.votes, if transfer then receiver else payer, net + cpu, f);
            && v.Some?
            && S.StakedBy(S.ChangeBw(s.stake, payer, receiver, net, cpu, transfer, now).value.staked, y) ==
               StakeOf(v.value, y)
  {
    hide V.Restake, T.Registered, V.Shaped, S.ChangeBw;
    var from := if transfer then receiver else payer;
    ChangeBwStakes(s.stake, payer, receiver, net, cpu, transfer, now, y);
    RestakeLaw(s.votes, from, net + cpu, f, y);
  }

  lemma {:induction false} ActionKeepsLinked(s: System, a: Action)
    requires V.WellFormed(s.votes) && T.Registered(s.votes.roll, s.votes.tally) && Linked(s)
    ensures Linked(Exec(s, a))
  {
    hide V.Restake, T.Registered, V.Shaped, S.ChangeBw, R.Exec;
    forall y: Name ensures S.StakedBy(Exec(s, a).stake.staked, y) == StakeOf(Exec(s, a).votes, y) {
      if Attempt(s, a).Some? {
        match a
        case Delegate(p, x, n, c, t, now, f) => StaysLinked(s, p, x, n, c, t, now, f, y);
        case Undelegate(p, x, n, c, now, f) => StaysLinked(s, p, x, -n, -c, false, now, f, y);
        case Refund(o, now) =>
        case Ballot(b) => BallotKeepsStakes(s.votes, b, y);
      }
    }
  }

  // ---------------------------------------------------------------- runs

  /** Weights are proportional to stake at factors from `K`, and eosio.stake does not stake for itself. */
  ghost predicate Plain(a: Action, K: L.Factors) {
    match a
    case Delegate(p, _, _, _, _, _, f) => p != S.STAKE && exists k :: k in K && L.Linear(f, k)
    case Undelegate(p, _, _, _, _, f) => p != S.STAKE && exists k :: k in K && L.Linear(f, k)
    case Refund(_, _) => true
    case Ballot(b) => L.LinearAction(b, K)
  }

  /** Both halves are in order, and linked. */
  ghost predicate Sound(s: System, K: L.Factors) { S.Inv(s.stake) && L.Steady(s.votes, K) && Linked(s) }

  lemma {:induction false} SoundVotes(s: System, K: L.Factors)
    requires Sound(s, K)
    ensures V.WellFormed(s.votes) && T.Registered(s.votes.roll, s.votes.tally)
  {
    hide S.Inv, V.Shaped, T.Registered, L.Factored, L.ProxiesExact, T.NonNegative;
  }

  lemma {:induction false} ActionKeepsStaking(s: System, a: Action, K: L.Factors)
    requires V.WellFormed(s.votes) && S.Inv(s.stake) && Plain(a, K)
    ensures S.Inv(Exec(s, a).stake)
  {
    hide S.Inv, V.Restake, V.WellFormed, S.Delegate, S.Undelegate, S.ClaimRefund, R.Exec, L.Linear, L.LinearAction;
    match a
    case Delegate(p, x, n, c, t, now, f) => SR.ActionKeepsInv(s.stake, SR.Delegating(p, x, n, c, t, now));
    case Undelegate(p, x, n, c, now, f) =>
      SR.ActionKeepsInv(s.stake, SR.Undelegating(p, x, n, c, Activated(s.votes), now));
    case Refund(o, now) => SR.ActionKeepsInv(s.stake, SR.Refunding(o, now));
    case Ballot(b) =>
  }

  lemma {:induction false} ActionKeepsSteady(s: System, a: Action, K: L.Factors)
    requires L.Steady(s.votes, K) && L.Steep(K) && Plain(a, K)
    ensures V.WellFormed(s.votes) && L.Steady(Exec(s, a).votes, K)
  {
    hide L.Steady, L.Steep, V.Restake, V.WellFormed, S.Delegate, S.Undelegate, S.ClaimRefund, L.Linear;
    L.SteadyIs(s.votes, K);
    L.SteadyMeans(s.votes, K, {});
    match a
    case Delegate(p, x, n, c, t, now, f) =>
      var k :| k in K && L.Linear(f, k);
      L.RestakeSteady(s.votes, if t then x else p, n + c, f, k, K);
    case Undelegate(p, x, n, c, now, f) =>
      var k :| k in K && L.Linear(f, k);
      L.RestakeSteady(s.votes, p, -n - c, f, k, K);
    case Refund(o, now) =>
    case Ballot(b) =>
      hide R.Exec;
      L.ActionSteady(s.votes, b, K);
  }

  /** In every such run eosio.stake holds what is delegated and pending, what an account votes with is on both sides
      what it delegates, and the votes are steady. */
  lemma {:induction false} RunKeepsSound(s: System, run: seq<Action>, K: L.Factors)
    requires Sound(s, K) && L.Steep(K) && forall a <- run :: Plain(a, K)
    ensures V.WellFormed(s.votes) && Sound(Run(s, run), K)
    decreases |run|
  {
    hide S.Inv, L.Steady, L.Steep, Linked, Plain, Exec, V.WellFormed, T.Registered;
    SoundVotes(s, K);
    if run != [] {
      ActionKeepsStaking(s, run[0], K);
      ActionKeepsSteady(s, run[0], K);
      ActionKeepsLinked(s, run[0]);
      RunKeepsSound(Exec(s, run[0]), run[1..], K);
    }
  }

  lemma {:induction false} GenesisIsSound(liquid: map<Name, int>, K: L.Factors)
    requires S.Liquid(liquid, S.STAKE) == 0
    ensures Sound(System(S.State(map[], map[], map[], map[], liquid), V.EMPTY), K)
  {
    hide S.Inv, L.Steady;
    SR.GenesisKeepsInv(liquid);
    L.EmptyIsSteady(K);
  }

  /** In every state of every such run an account can take back stake, at any factor, if and only if it has delegated
      that much and the chain is activated; and its voter row has exactly what it delegates in all. */
  lemma {:induction false} StakeCanBeTakenBack(s: System, run: seq<Action>, K: L.Factors, a: Action)
    requires Sound(s, K) && L.Steep(K) && (forall b <- run :: Plain(b, K)) && a.Undelegate?
    ensures V.WellFormed(s.votes)
    ensures var r := Run(s, run);
            var b := S.Delegated(r.stake.delband, (a.payer, a.receiver));
            && (Attempt(r, a).Some? <==>
                  a.net >= 0 && a.cpu >= 0 && a.net + a.cpu > 0 && r.votes.activatedStake >= 1500000000000
                    && b.net >= a.net
                    && b.cpu >= a.cpu)
            && StakeOf(r.votes, a.payer) == S.SumOf(r.stake.delband, a.payer, S.Out)
  {
    hide L.Steady, L.Steep, Plain, Attempt, V.WellFormed, T.Registered, S.Undelegate, S.SumOf, Run, S.Rows, S.Backed;
    RunKeepsSound(s, run, K);
    var r := Run(s, run);
    SoundVotes(r, K);
    VoteNeverStandsInTheWay(r, a);
    SR.UndelegateAborts(r.stake, a.payer, a.receiver, a.net, a.cpu, Activated(r.votes), a.now);
    assert S.Agrees(r.stake, a.payer);
  }
}
