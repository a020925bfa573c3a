/** The grand total, by which the pay of producers is divided, over whole runs. */
module VotingTotal {
  import opened Sums
  import opened Voting
  import opened VotingTallies
  import opened VotingRuns
  import opened VotingDrift

  /** By how much the votes of all producers exceed the grand total. */
  ghost function Gap(t: Tally): real { RealSum(t.votes) - t.total }

  lemma {:induction false} PropagateKeepsGap(g: Roll, t: Tally, x: Name, f: Scale)
    requires Shaped(g) && Fits(g, t) && x in g.voters && Propagate(g, t, x, f).Some?
    ensures Gap(Propagate(g, t, x, f).value) == Gap(t)
  {
    hide Shaped, Propagate, Dropped, RealSum, VotesFor, EntrustedTo, Cast, Drawn, Overlay, Absorbs, NonNegative;
    var b := Cast(g, t);
    DriftIsOne(t, b);
    CastIsDrawn(g, t, t);
    PropagateDrift(g, t, x, f, b, {}, DriftOf(t, b));
  }

  /** What the floor hides in a recount: the votes it adds that the total never sees. */
  ghost function Hidden(g: Roll, t: Tally, x: Name, proxy: Option<Name>, prods: seq<Name>, w: real, f: Scale): real
    requires Shaped(g) && Fits(g, t) && x in g.voters && (proxy.Some? ==> proxy.value in g.voters)
  {
    var r, r' := Unfloored(g, t, x, proxy, prods, w, f), Recount(g, t, x, proxy, prods, w, f);
    if r.None? || r'.None? then 0.0 else RealSum(r'.value.votes) - RealSum(r.value.votes)
  }

  /** Without the floor, all votes and the total move alike. */
  lemma {:induction false} UnflooredKeepsGap(
    g: Roll, t: Tally, x: Name, proxy: Option<Name>, prods: seq<Name>, w: real, f: Scale)
    requires Shaped(g) && Fits(g, t) && x in g.voters && (proxy.Some? ==> prods == [])
    requires proxy.Some? ==> proxy.value in g.voters && Clear(g, proxy.value, x)
    requires Unfloored(g, t, x, proxy, prods, w, f).Some? && Withdraw(g, t, x, f).Some?
    ensures Gap(Unfloored(g, t, x, proxy, prods, w, f).value) == Gap(t)
  {
    hide Shaped, Unfloored, Withdraw, Cast, With, Clear, AfterWithdraw, EntrustDrop, RealSum, VotesFor, EntrustedTo,
      Counted, BallotOf;
    var b := Cast(g, t);
    var l := DriftOf(t, b);
    DriftIsOne(t, b);
    CastIsWith(g, t, x);
    RecountLaw(g, t, x, proxy, prods, w, f, l);
    AfterWithdrawTotal(g, t, x, f, l);
  }

  lemma {:induction false} RecountMovesGap(
    g: Roll, t: Tally, x: Name, proxy: Option<Name>, prods: seq<Name>, w: real, f: Scale)
    requires Shaped(g) && Fits(g, t) && x in g.voters && (proxy.Some? ==> prods == [])
    requires proxy.Some? ==> proxy.value in g.voters && Clear(g, proxy.value, x)
    requires Recount(g, t, x, proxy, prods, w, f).Some?
    ensures Gap(Recount(g, t, x, proxy, prods, w, f).value) == Gap(t) + Hidden(g, t, x, proxy, prods, w, f)
    ensures Hidden(g, t, x, proxy, prods, w, f) >= 0.0
  {
    hide Shaped, Recount, Unfloored, Withdraw, Clear, RealSum;
    FlooredAndNot(g, t, x, proxy, prods, w, f);
    Withdrawn(g, t, x, proxy, prods, w, f);
    UnflooredKeepsGap(g, t, x, proxy, prods, w, f);
    var r, r' := Unfloored(g, t, x, proxy, prods, w, f).value, Recount(g, t, x, proxy, prods, w, f).value;
    SameTotals(g, t, x, proxy, prods, w, f);
    SumIsMonotone(r.votes, r'.votes);
  }

  lemma {:induction false} AfterWithdrawTotal(g: Roll, t: Tally, x: Name, f: Scale, l: Drift)
    requires Shaped(g) && Fits(g, t) && x in g.voters
    ensures AfterWithdraw(g, t, x, f, l).total == l.total
  {
    hide Shaped, WithdrawDrop;
  }

  lemma {:induction false} SameTotals(
    g: Roll, t: Tally, x: Name, proxy: Option<Name>, prods: seq<Name>, w: real, f: Scale)
    requires Shaped(g) && Fits(g, t) && x in g.voters && (proxy.Some? ==> proxy.value in g.voters)
    requires Recount(g, t, x, proxy, prods, w, f).Some?
    ensures Unfloored(g, t, x, proxy, prods, w, f).value.total == Recount(g, t, x, proxy, prods, w, f).value.total
  {
    hide Shaped, Withdraw, Entrust, BallotDeltas, RealSum;
  }

  lemma {:induction false} SumIsMonotone(m: map<Name, real>, m': map<Name, real>)
    requires m.Keys == m'.Keys && forall p <- m :: m'[p] >= m[p]
    ensures RealSum(m') >= RealSum(m)
  {
    hide RealSum;
    var d := map p | p in m :: m'[p] - m[p];
    RealSumAdd(m, d);
    assert AddColumns(m, d) == m';
    RealSumNonNegative(d);
  }

  /** What the floor hides in an action. */
  ghost function HiddenBy(s: State, a: Action): real
    requires WellFormed(s)
  {
    match a
    case Vote(x, proxy, prods, f) => HiddenVote(s, x, proxy, prods, true, f)
    case ChangeStake(x, delta, f) =>
      if x in s.roll.voters && s.roll.voters[x].staked + delta >= 0 then
        var v := s.roll.voters[x];
        if v.producers != [] || v.proxy.Some? then
          HiddenVote(s.(roll := SetStake(s.roll, x, v.staked + delta)), x, v.proxy, v.producers, false, f)
        else 0.0
      else 0.0
    case _ => 0.0
  }

  ghost function HiddenVote(s: State, x: Name, proxy: Option<Name>, prods: seq<Name>, voting: bool, f: Scale): real
    requires WellFormed(s)
  {
    if MayVote(s, x, proxy, prods, voting, f) then
      Hidden(s.roll, s.tally, x, proxy, prods, CurrentWeight(s.roll.voters[x], s.tally.proxied[x], f), f)
    else 0.0
  }

  lemma {:induction false} VoteMovesGap(
    s: State, x: Name, proxy: Option<Name>, prods: seq<Name>, voting: bool, f: Scale)
    requires WellFormed(s) && (!voting && x in s.roll.voters ==> proxy == s.roll.voters[x].proxy)
    ensures HiddenVote(s, x, proxy, prods, voting, f) >= 0.0
    ensures var r := UpdateVotes(s, x, proxy, prods, voting, f);
            if r.Some? then Gap(r.value.tally) == Gap(s.tally) + HiddenVote(s, x, proxy, prods, voting, f)
            else HiddenVote(s, x, proxy, prods, voting, f) == 0.0
  {
    hide Shaped, Recount, Unfloored, Gap, RealSum, Clear;
    if MayVote(s, x, proxy, prods, voting, f) {
      var w := CurrentWeight(s.roll.voters[x], s.tally.proxied[x], f);
      if proxy.Some? { ProxyIsClear(s.roll, x, proxy.value); }
      if Recount(s.roll, s.tally, x, proxy, prods, w, f).Some? {
        RecountMovesGap(s.roll, s.tally, x, proxy, prods, w, f);
      }
    }
  }

  lemma {:induction false} ActionMovesGap(s: State, a: Action)
    requires WellFormed(s)
    ensures HiddenBy(s, a) >= 0.0 && Gap(Exec(s, a).tally) == Gap(s.tally) + HiddenBy(s, a)
  {
    hide Shaped, UpdateVotes, Propagate, HiddenVote, RealSum, SetFlag;
    match a
    case Vote(x, proxy, prods, f) => VoteMovesGap(s, x, proxy, prods, true, f);
    case FlagProxy(x, flag, f) =>
      if x in s.roll.voters && (flag ==> s.roll.voters[x].proxy.None?) {
        FlagFits(s, x, flag);
        if Propagate(SetFlag(s.roll, x, flag), s.tally, x, f).Some? {
          PropagateKeepsGap(SetFlag(s.roll, x, flag), s.tally, x, f);
        }
      }
    case ChangeStake(x, delta, f) =>
      if x in s.roll.voters && s.roll.voters[x].staked + delta >= 0 {
        var v := s.roll.voters[x];
        VoteMovesGap(s.(roll := SetStake(s.roll, x, v.staked + delta)), x, v.proxy, v.producers, false, f);
      }
    case Register(p) =>
      if p !in s.tally.votes { RealSumUpdate(s.tally.votes, p, 0.0); }
    case Unregister(p) =>
  }

  ghost function AllHidden(s: State, run: seq<Action>): real
    requires WellFormed(s)
    decreases |run|
  {
    if run == [] then 0.0 else HiddenBy(s, run[0]) + AllHidden(Exec(s, run[0]), run[1..])
  }

  /** In every run, from any tables and with any weights, the grand total falls behind the sum of all votes by
      exactly what the floor at zero hides. */
  lemma {:induction false} TotalLaw(s: State, run: seq<Action>)
    requires WellFormed(s)
    ensures AllHidden(s, run) >= 0.0 && Gap(Run(s, run).tally) == Gap(s.tally) + AllHidden(s, run)
    decreases |run|
  {
    hide HiddenBy, Exec, WellFormed, Gap;
    if run != [] {
      ActionMovesGap(s, run[0]);
      TotalLaw(Exec(s, run[0]), run[1..]);
    }
  }
}
