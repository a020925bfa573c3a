/** A run in which lost weight changes keep the only eligible producer out of the schedule. */
module ElectionInstances {
  import opened Sums
  import opened Election
  import V = Voting
  import R = VotingRuns
  import G = VotingGrid
  import L = VotingLinear
  import I = VotingInstances
  import K = VotingClock

  /** An inactive producer with fewer votes than none keeps an active one out of the schedule. */
  lemma {:induction false} InTheWay(ps: Producers, d: real, e: real)
    requires ps == map[7 := Producer(e, true), 8 := Producer(-d, false)] && 0.0 < e < d
    ensures IsIndex(ps, [8, 7]) && Blocked(ps, [8, 7]) && !IsTop(ps, [])
  {
    var idx: seq<Name> := [8, 7];
    assert idx[0] == 8 && idx[1] == 7 && ps[7].Eligible();
    assert !ps[idx[0]].Eligible() && ps[idx[1]].Eligible();
  }

  /** A run from the empty tables leads there. */
  lemma {:induction false} NegativeVotesBlock(
    f: V.Scale, f': V.Scale, k: real, k': real, st: nat, u: nat, st': nat, u': nat)
    requires L.Linear(f, k) && L.Linear(f', k') && I.SlipsUp(k, k', st, u) && I.SlipsDown(k, k', st', u')
    requires G.Times(k, st') + G.Times(k, u') - G.Times(k', st') < G.Times(k', st) - (G.Times(k, st) + G.Times(k, u))
    ensures V.WellFormed(V.EMPTY)
    ensures var s := R.Run(V.EMPTY, I.ToNegative(f, f', st, u, st', u'));
            && s.active.Keys == s.tally.votes.Keys
            && IsIndex(ProducersOf(s), [8, 7]) && Blocked(ProducersOf(s), [8, 7]) && !IsTop(ProducersOf(s), [])
  {
    hide R.Run, V.WellFormed, I.ToNegative, L.Linear, G.Times, IsIndex, Blocked, IsTop;
    I.NegativeVotesAreReached(f, f', k, k', st, u, st', u');
    var s := R.Run(V.EMPTY, I.ToNegative(f, f', st, u, st', u'));
    InTheWay(ProducersOf(s), -s.tally.votes[8], s.tally.votes[7]);
  }

  /** The factors of weeks 965 and 966, in July 2018, are such. */
  lemma {:induction false} ScheduleIsBlockedInJuly(
    r: real, f: V.Scale, f': V.Scale, st: nat, u: nat, st': nat, u': nat)
    requires K.WeekRoot(r) && L.Linear(f, K.RPow(r, 965)) && L.Linear(f', K.RPow(r, 966))
    requires st == 1172890 && u == 15739 && st' == 1206201 && u' == 16186
    ensures V.WellFormed(V.EMPTY)
    ensures var s := R.Run(V.EMPTY, I.ToNegative(f, f', st, u, st', u'));
            s.active.Keys == s.tally.votes.Keys && IsIndex(ProducersOf(s), [8, 7]) && Blocked(ProducersOf(s), [8, 7])
  {
    hide R.Run, V.WellFormed, I.ToNegative, L.Linear, G.Times, K.RPow, K.WeekRoot, I.SlipsUp, I.SlipsDown, IsIndex,
      Blocked, IsTop;
    K.JulySlips(r);
    NegativeVotesBlock(f, f', K.RPow(r, 965), K.RPow(r, 966), st, u, st', u');
  }
}
