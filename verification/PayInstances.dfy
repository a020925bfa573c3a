/** A run in which a lost weight change stops a producer from being paid. */
module PayInstances {
  import opened Sums
  import opened ProducerPay
  import V = Voting
  import T = VotingTallies
  import R = VotingRuns
  import G = VotingGrid
  import L = VotingLinear
  import I = VotingInstances
  import K = VotingClock

  function OnVotes(acts: seq<R.Action>): seq<Action> {
    seq(|acts|, i requires 0 <= i < |acts| => OnVote(acts[i]))
  }

  lemma PaddedTwice(m: map<Name, int>, k: map<Name, bool>, k': map<Name, bool>)
    requires m.Keys <= k.Keys <= k'.Keys
    ensures Padded(Padded(m, k), k') == Padded(m, k')
  {
  }

  lemma PaddedAlready(m: map<Name, int>, k: map<Name, bool>)
    requires m.Keys == k.Keys
    ensures Padded(m, k) == m
  {
  }

  /** A run of voting actions is a run of the voting tables; the pay tables get their rows. */
  lemma {:induction false} RunOfVotes(s: State, acts: seq<R.Action>)
    requires V.WellFormed(s.voting) && s.unpaid.Keys == s.voting.active.Keys == s.lastClaim.Keys
    ensures s.voting.active.Keys <= R.Run(s.voting, acts).active.Keys
    ensures Run(s, OnVotes(acts)) == OnVotingTables(s, R.Run(s.voting, acts))
    decreases |acts|
  {
    hide Padded, V.WellFormed, R.Exec;
    if acts == [] {
      PaddedAlready(s.unpaid, s.voting.active);
      PaddedAlready(s.lastClaim, s.voting.active);
    } else {
      var v := R.Exec(s.voting, acts[0]);
      var s' := OnVotingTables(s, v);
      assert OnVotes(acts)[1..] == OnVotes(acts[1..]) && OnVotes(acts)[0] == OnVote(acts[0]);
      ProducersStay(s.voting, acts[0]);
      PaddedRows(s.unpaid, v.active);
      PaddedRows(s.lastClaim, v.active);
      RunOfVotes(s', acts[1..]);
      PaddedTwice(s.unpaid, v.active, R.Run(v, acts[1..]).active);
      PaddedTwice(s.lastClaim, v.active, R.Run(v, acts[1..]).active);
    }
  }

  lemma PaddedRows(m: map<Name, int>, k: map<Name, bool>)
    ensures Padded(m, k).Keys == k.Keys
  {
  }

  /** The pay tables after the votes and one block of producer 7. */
  function Waiting(v: V.State): State {
    GENESIS.(voting := v, unpaid := map[7 := 1, 8 := 0], lastClaim := map[7 := 0, 8 := 0], totalUnpaid := 1,
             lastFill := 1)
  }

  function ToWaiting(acts: seq<R.Action>): seq<Action> { OnVotes(acts) + [Block(7, 1)] }

  /** The run in which a proxy drops a change and then withdraws its vote, and one block. */
  lemma {:induction false} WaitingIsReached(f: V.Scale, f': V.Scale, k: real, k': real, st: nat, u: nat)
    requires L.Linear(f, k) && L.Linear(f', k') && I.SlipsUp(k, k', st, u)
    ensures V.WellFormed(GENESIS.voting)
    ensures Run(GENESIS, ToWaiting(I.ToClamped(f, f', st, u))) == Waiting(R.Run(V.EMPTY, I.ToClamped(f, f', st, u)))
  {
    hide R.Run, V.WellFormed, Run, Exec, I.ToClamped, L.Linear;
    var acts := I.ToClamped(f, f', st, u);
    I.FloorBreaksTotal(f, f', k, k', st, u);
    FirstBlock(R.Run(V.EMPTY, acts));
    RunOfVotes(GENESIS, acts);
    RunThen(GENESIS, OnVotes(acts), Block(7, 1));
  }

  lemma {:induction false} FirstBlock(v: V.State)
    requires V.WellFormed(v) && v.active == map[7 := true, 8 := true] && v.activatedStake >= MIN_ACTIVATED_STAKE
    ensures Exec(OnVotingTables(GENESIS, v), Block(7, 1)) == Waiting(v)
  {
    hide V.WellFormed;
    assert Padded(map[], v.active) == map[7 := 0, 8 := 0];
  }

  lemma {:induction false} RunThen(s: State, run: seq<Action>, a: Action)
    requires V.WellFormed(s.voting)
    ensures Run(s, run + [a]) == Exec(Run(s, run), a)
    decreases |run|
  {
    hide Exec, V.WellFormed;
    if run == [] {
      assert run + [a] == [a] && [a][1..] == [];
    } else {
      RunThen(Exec(s, run[0]), run[1..], a);
      assert (run + [a])[1..] == run[1..] + [a];
    }
  }

  /** More votes than there are in all claim more than the whole bucket. */
  lemma TooManyVotes(bucket: int, votes: real, total: real)
    requires bucket >= MIN_PERVOTE_PAY && 0.0 < total < votes && (bucket as real) * (votes - total) >= total
    ensures ByVotes(bucket, votes, total) > bucket
  {
    var b := bucket as real;
    var all := b * votes;
    assert all >= (b + 1.0) * total by { assert b * (votes - total) == all - b * total; }
    DivideBy(all, b + 1.0, total);
    var exact := (bucket as real) * votes / total;
    assert exact == all / total;
    assert exact.Floor >= bucket + 1;
  }

  lemma DivideBy(a: real, b: real, c: real)
    requires a >= b * c && c > 0.0
    ensures a / c >= b
  {
    var q := a / c;
    assert q * c == a;
    if q < b { assert q * c < b * c; }
  }

  /** A day later producer 7, the only one with votes, claims its pay. Its votes are more than the total, and claim
      more than the bucket holds, so the claim is refused. */
  lemma {:induction false} LostChangeStopsPay(
    f: V.Scale, f': V.Scale, k: real, k': real, st: nat, u: nat, supply: nat)
    requires L.Linear(f, k) && L.Linear(f', k') && I.SlipsUp(k, k', st, u) && supply == 10000000000000
    requires 3000000.0 * (G.Times(k', st) - (G.Times(k, st) + G.Times(k, u))) >= k
    ensures V.WellFormed(GENESIS.voting)
    ensures var s := Run(GENESIS, ToWaiting(I.ToClamped(f, f', st, u)));
            && MayClaim(s, 7, DAY + 2) && Fill(s, supply, DAY + 2).Some? && ClaimRewards(s, 7, supply, DAY + 2) == None
  {
    hide R.Run, V.WellFormed, I.ToClamped, L.Linear, G.Times, Run, ToWaiting, ClaimRewards, Fill, MayClaim;
    WaitingIsReached(f, f', k, k', st, u);
    I.FloorBreaksTotal(f, f', k, k', st, u);
    var d := G.Times(k', st) - (G.Times(k, st) + G.Times(k, u));
    Refused(R.Run(V.EMPTY, I.ToClamped(f, f', st, u)), k, d, supply);
  }

  lemma {:induction false} Refused(v: V.State, k: real, d: real, supply: nat)
    requires v.active == map[7 := true, 8 := true] && v.activatedStake >= MIN_ACTIVATED_STAKE
    requires v.tally.votes == map[7 := k, 8 := 0.0] && v.tally.total == k - d
    requires 0.0 < d <= 1.0 < k <= 3000000.0 * d && supply == 10000000000000
    ensures var s := Waiting(v);
            && MayClaim(s, 7, DAY + 2) && Fill(s, supply, DAY + 2).Some? && ClaimRewards(s, 7, supply, DAY + 2) == None
  {
    var tokens := NewTokens(supply, DAY + 1);
    assert tokens >= 20000000;
    hide NewTokens, ByVotes, ByBlocks;
    var after := Fill(Waiting(v), supply, DAY + 2).value;
    assert after.perVote >= 3000000;
    LargeBucket(after.perVote as real, d);
    assert k - (k - d) == d;
    TooManyVotes(after.perVote, k, k - d);
  }

  lemma LargeBucket(bucket: real, d: real)
    requires bucket >= 3000000.0 && d > 0.0
    ensures bucket * d >= 3000000.0 * d
  {
  }

  /** That is what happens if the two factors are those of weeks 965 and 966, in July 2018. */
  lemma {:induction false} PayStopsInJuly(r: real, f: V.Scale, f': V.Scale, st: nat, u: nat, supply: nat)
    requires K.WeekRoot(r) && L.Linear(f, K.RPow(r, 965)) && L.Linear(f', K.RPow(r, 966))
    requires st == 1172890 && u == 15739 && supply == 10000000000000
    ensures V.WellFormed(GENESIS.voting)
    ensures var s := Run(GENESIS, ToWaiting(I.ToClamped(f, f', st, u)));
            && MayClaim(s, 7, DAY + 2) && Fill(s, supply, DAY + 2).Some? && ClaimRewards(s, 7, supply, DAY + 2) == None
  {
    hide R.Run, V.WellFormed, I.ToClamped, L.Linear, G.Times, K.RPow, K.WeekRoot, I.SlipsUp, I.SlipsDown, Run,
      ToWaiting,
      ClaimRewards, Fill, MayClaim;
    K.JulySlips(r);
    LostChangeStopsPay(f, f', K.RPow(r, 965), K.RPow(r, 966), st, u, supply);
  }
}
