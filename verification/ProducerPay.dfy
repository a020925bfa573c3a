/** Producer pay: inflation fills two buckets, and producers draw on them by blocks produced and by votes.
    The per-vote half relies on the voting tallies. */
module ProducerPay {
  import opened Sums
  import opened RamMath
  import V = Voting
  import T = VotingTallies
  import R = VotingRuns

  type Name = V.Name

  const MIN_PERVOTE_PAY := 1000000
  const MIN_ACTIVATED_STAKE := 1500000000000
  const DAY := 24 * 3600 * 1000000
  const YEAR := 52 * 7 * DAY
  const CONTINUOUS_RATE := 0.04879

  /** `bpay`, `vpay` and `savings` are the core balances of eosio.bpay, eosio.vpay and eosio.saving;
      `issued` is all inflation so far and `earned` what each account was paid so far. */
  datatype State = State(
    voting: V.State,
    unpaid: map<Name, int>,
    lastClaim: map<Name, int>,
    totalUnpaid: int,
    perVote: int,
    perBlock: int,
    lastFill: int,
    bpay: int,
    vpay: int,
    savings: int,
    issued: int,
    earned: map<Name, int>)

  // ---------------------------------------------------------------- actions

  function OnBlock(s: State, producer: Name, now: nat): State {
    if s.voting.activatedStake < MIN_ACTIVATED_STAKE then s else
      var s1 := if s.lastFill == 0 then s.(lastFill := now) else s;
      if producer !in s.unpaid then s1 else
        s1.(totalUnpaid := s.totalUnpaid + 1, unpaid := s.unpaid[producer := s.unpaid[producer] + 1])
  }

  /** The shares of newly issued tokens: savings, per-block bucket, per-vote bucket. */
  function Shares(tokens: nat): (int, int, int) {
    var toProducers := tokens / 5;
    (tokens - toProducers, toProducers / 4, toProducers - toProducers / 4)
  }

  /** Inflation of the token supply over some microseconds. */
  function NewTokens(supply: nat, usecs: nat): (tokens: nat) {
    var exact := CONTINUOUS_RATE * (supply as real) * (usecs as real) / (YEAR as real);
    InflationIsNonNegative(supply as real, usecs as real);
    exact.Floor
  }

  lemma InflationIsNonNegative(supply: real, usecs: real)
    requires supply >= 0.0 && usecs >= 0.0
    ensures CONTINUOUS_RATE * supply * usecs / (YEAR as real) >= 0.0
  {
    assert CONTINUOUS_RATE * supply >= 0.0;
    assert CONTINUOUS_RATE * supply * usecs >= 0.0;
  }

  predicate FillIsDue(s: State, now: nat) { s.lastFill > 0 && now > s.lastFill }

  /** Inflation since the last fill. The token contract refuses empty issues and transfers. */
  function Fill(s: State, supply: nat, now: nat): Option<State> {
    if !FillIsDue(s, now) then Some(s) else
      var tokens := NewTokens(supply, now - s.lastFill);
      var (save, block, vote) := Shares(tokens);
      if save <= 0 || block <= 0 || vote <= 0 then None else
        Some(s.(issued := s.issued + tokens, savings := s.savings + save, bpay := s.bpay + block, vpay := s.vpay + vote,
                perVote := s.perVote + vote, perBlock := s.perBlock + block, lastFill := now))
  }

  /** What `blocks` out of `total` unpaid blocks earn from the per-block bucket. */
  function ByBlocks(bucket: int, blocks: int, total: int): int {
    if total > 0 then (bucket * blocks) / total else 0
  }

  /** What `votes` out of `total` vote weight earn from the per-vote bucket; small pay is held back. */
  function ByVotes(bucket: int, votes: real, total: real): int {
    var pay := if total > 0.0 then ((bucket as real) * votes / total).Floor else 0;
    if pay < MIN_PERVOTE_PAY then 0 else pay
  }

  function BlockPay(s: State, x: Name): int
    requires x in s.unpaid
  {
    ByBlocks(s.perBlock, s.unpaid[x], s.totalUnpaid)
  }

  function VotePay(s: State, x: Name): int
    requires x in s.voting.tally.votes
  {
    ByVotes(s.perVote, s.voting.tally.votes[x], s.voting.tally.total)
  }

  function Earned(s: State, x: Name): int { if x in s.earned then s.earned[x] else 0 }

  /** Pays both draws and resets the producer's counters. A payment the bucket's account cannot cover
      would abort the claim. */
  function Pay(s: State, x: Name, now: nat): Option<State>
    requires x in s.unpaid && x in s.voting.tally.votes
  {
    var block, vote := BlockPay(s, x), VotePay(s, x);
    if block > s.bpay || vote > s.vpay then None else
      Some(s.(perVote := s.perVote - vote, perBlock := s.perBlock - block,
              totalUnpaid := s.totalUnpaid - s.unpaid[x],
              unpaid := s.unpaid[x := 0], lastClaim := s.lastClaim[x := now],
              bpay := s.bpay - block, vpay := s.vpay - vote, earned := s.earned[x := Earned(s, x) + block + vote]))
  }

  /** The checks of `claimrewards`. */
  predicate MayClaim(s: State, x: Name, now: nat) {
    && x in s.voting.active && s.voting.active[x] && x in s.unpaid && x in s.lastClaim && x in s.voting.tally.votes
    && s.voting.activatedStake >= MIN_ACTIVATED_STAKE && now - s.lastClaim[x] > DAY
  }

  function ClaimRewards(s: State, x: Name, supply: nat, now: nat): Option<State> {
    if !MayClaim(s, x, now) then None else
      var f := Fill(s, supply, now);
      if f.None? then None else
        Pay(f.value, x, now)
  }

  /** Takes over new voting tables; a newly registered producer starts with no unpaid blocks and no claim. */
  function OnVotingTables(s: State, v: V.State): State {
    s.(voting := v, unpaid := Padded(s.unpaid, v.active), lastClaim := Padded(s.lastClaim, v.active))
  }

  /** A voting action. */
  ghost function OnVoting(s: State, a: R.Action): State
    requires V.WellFormed(s.voting)
  {
    OnVotingTables(s, R.Exec(s.voting, a))
  }

  function Padded(m: map<Name, int>, keys: map<Name, bool>): map<Name, int> {
    map p | p in keys :: if p in m then m[p] else 0
  }

  // ---------------------------------------------------------------- invariant

  /** Blocks add up, both buckets are nonnegative and fully funded, and every issued token is saved,
      waiting in a bucket, or paid. */
  ghost predicate Funded(s: State) {
    && s.unpaid.Keys == s.voting.active.Keys && s.lastClaim.Keys == s.voting.active.Keys
    && (forall x <- s.unpaid :: s.unpaid[x] >= 0)
    && s.totalUnpaid == Sum(s.unpaid)
    && s.perBlock == s.bpay >= 0 && s.perVote == s.vpay >= 0
    && s.issued == s.savings + s.bpay + s.vpay + Sum(s.earned)
  }

  ghost predicate Inv(s: State) { T.Inv(s.voting) && Funded(s) }

  /** The tallies make every producer's votes a share of the total. */
  lemma VotesAreShares(v: V.State, x: Name)
    requires T.Inv(v) && x in v.tally.votes
    ensures 0.0 <= v.tally.votes[x] <= v.tally.total
  {
    forall p <- v.tally.votes ensures v.tally.votes[p] >= 0.0 {
      T.TalliesNonNegative(T.Cast(v.roll, v.tally), p);
    }
    hide T.VotesFor, T.EntrustedTo, T.NonNegative, RealSum;
    RealSumNonNegative(v.tally.votes);
  }

  lemma ShareOfBucket(bucket: real, votes: real, total: real)
    requires bucket >= 0.0 && 0.0 <= votes <= total && total > 0.0
    ensures 0.0 <= bucket * votes / total <= bucket
  {
    assert bucket * votes <= bucket * total;
    assert (bucket * total) / total == bucket;
  }

  lemma BlockShare(bucket: int, blocks: int, total: int)
    requires bucket >= 0 && 0 <= blocks <= total && total > 0
    ensures 0 <= (bucket * blocks) / total <= bucket
  {
    MulLe(blocks, total, bucket);
    MulLe(0, blocks, bucket);
    MulCancelLe((bucket * blocks) / total, bucket, total);
  }

  /** With exact tallies neither draw ever exceeds its bucket. */
  lemma DrawsAreCovered(s: State, x: Name)
    requires Inv(s) && x in s.unpaid
    ensures x in s.voting.tally.votes
    ensures 0 <= BlockPay(s, x) <= s.bpay && 0 <= VotePay(s, x) <= s.vpay
  {
    hide T.Balanced, Sum;
    SumNonNegative(s.unpaid);
    if s.totalUnpaid > 0 { BlockShare(s.perBlock, s.unpaid[x], s.totalUnpaid); }
    VotesAreShares(s.voting, x);
    var t := s.voting.tally;
    if t.total > 0.0 { ShareOfBucket(s.perVote as real, t.votes[x], t.total); }
  }

  /** The split of new tokens loses nothing, and is possible at all from twenty units on. */
  lemma SharesAddUp(tokens: nat)
    ensures var (save, block, vote) := Shares(tokens);
            save + block + vote == tokens && 0 <= block <= vote && (block > 0 <==> tokens >= 20)
  {
  }

  /** Filling fails exactly when there is too little inflation to split, and keeps the funds. */
  lemma FillKeepsFunded(s: State, supply: nat, now: nat)
    requires Funded(s)
    ensures Fill(s, supply, now).Some? <==> FillIsDue(s, now) ==> NewTokens(supply, now - s.lastFill) >= 20
    ensures Fill(s, supply, now).Some? ==>
              var r := Fill(s, supply, now).value;
              Funded(r) && r.voting == s.voting && r.unpaid == s.unpaid && r.totalUnpaid == s.totalUnpaid
                && r.lastClaim == s.lastClaim
  {
    hide Sum, NewTokens;
    if FillIsDue(s, now) { SharesAddUp(NewTokens(supply, now - s.lastFill)); }
  }

  /** The per-block draw never exceeds its bucket, whatever the votes are. */
  lemma BlockDrawIsCovered(s: State, x: Name)
    requires Funded(s) && x in s.unpaid
    ensures 0 <= BlockPay(s, x) <= s.bpay
  {
    hide Sum;
    SumNonNegative(s.unpaid);
    if s.totalUnpaid > 0 { BlockShare(s.perBlock, s.unpaid[x], s.totalUnpaid); }
  }

  lemma VotePayIsNonNegative(s: State, x: Name)
    requires x in s.voting.tally.votes
    ensures VotePay(s, x) >= 0
  {
  }

  /** With funded buckets a claim that passes its checks is refused in two cases only: there is too little
      inflation to split, or the producer's votes claim more than the whole per-vote bucket. */
  lemma ClaimKeepsFunded(s: State, x: Name, supply: nat, now: nat)
    requires V.WellFormed(s.voting) && Funded(s)
    ensures var r := ClaimRewards(s, x, supply, now);
            && (r.Some? <==>
                  && x in s.voting.active && s.voting.active[x] && s.voting.activatedStake >= MIN_ACTIVATED_STAKE
                  && now - s.lastClaim[x] > DAY
                  && (FillIsDue(s, now) ==> NewTokens(supply, now - s.lastFill) >= 20)
                  && var after := Fill(s, supply, now); after.Some? && VotePay(after.value, x) <= after.value.vpay)
            && (r.Some? ==> Funded(r.value) && r.value.voting == s.voting)
  {
    hide Sum, BlockPay, VotePay, V.Shaped, NewTokens, Shares;
    FillKeepsFunded(s, supply, now);
    if MayClaim(s, x, now) && Fill(s, supply, now).Some? {
      var s1 := Fill(s, supply, now).value;
      hide Fill;
      BlockDrawIsCovered(s1, x);
      VotePayIsNonNegative(s1, x);
      SumUpdate(s1.unpaid, x, 0);
      SumUpdate(s1.earned, x, Earned(s1, x) + BlockPay(s1, x) + VotePay(s1, x));
    }
  }

  /** While the tallies are exact, no producer's votes claim more than the bucket: a claim is paid in full
      whenever its checks pass and there is inflation to split. */
  lemma ClaimKeepsInv(s: State, x: Name, supply: nat, now: nat)
    requires Inv(s)
    ensures var r := ClaimRewards(s, x, supply, now);
            && (r.Some? <==>
                  && x in s.voting.active && s.voting.active[x] && s.voting.activatedStake >= MIN_ACTIVATED_STAKE
                  && now - s.lastClaim[x] > DAY
                  && (FillIsDue(s, now) ==> NewTokens(supply, now - s.lastFill) >= 20))
            && (r.Some? ==> Inv(r.value))
  {
    hide T.Balanced, Sum, BlockPay, VotePay, V.Shaped, NewTokens, Fill, ClaimRewards;
    FillKeepsFunded(s, supply, now);
    ClaimKeepsFunded(s, x, supply, now);
    if x in s.voting.active && Fill(s, supply, now).Some? {
      DrawsAreCovered(Fill(s, supply, now).value, x);
    }
  }

  lemma OnBlockKeepsFunded(s: State, producer: Name, now: nat)
    requires Funded(s)
    ensures Funded(OnBlock(s, producer, now)) && OnBlock(s, producer, now).voting == s.voting
  {
    hide Sum;
    if producer in s.unpaid { SumUpdate(s.unpaid, producer, s.unpaid[producer] + 1); }
  }

  /** Votes and registrations never unsettle the funds. */
  lemma OnVotingKeepsFunded(s: State, a: R.Action)
    requires V.WellFormed(s.voting) && Funded(s)
    ensures Funded(OnVoting(s, a))
  {
    hide Sum, R.Exec, V.Shaped;
    ProducersStay(s.voting, a);
    NewRowsAreZero(s.unpaid, R.Exec(s.voting, a).active);
  }

  /** They keep the tallies that the per-vote pay rests on exactly when no weight change is lost. */
  lemma OnVotingKeepsInv(s: State, a: R.Action)
    requires Inv(s)
    ensures Inv(OnVoting(s, a)) <==> R.LosslessAction(s.voting, a)
  {
    hide T.Balanced, Funded, R.LosslessAction, R.Exec, V.Shaped;
    OnVotingKeepsFunded(s, a);
    R.ActionKeepsInv(s.voting, a);
  }

  /** No action erases a producer. */
  lemma ProducersStay(v: V.State, a: R.Action)
    requires V.WellFormed(v)
    ensures v.active.Keys <= R.Exec(v, a).active.Keys
  {
    hide V.Recount, V.Propagate, V.ShapedVoter;
  }

  lemma {:induction false} NewRowsAreZero(m: map<Name, int>, keys: map<Name, bool>)
    requires m.Keys <= keys.Keys
    ensures Sum(Padded(m, keys)) == Sum(m)
    decreases keys.Keys - m.Keys
  {
    hide Sum;
    if keys.Keys == m.Keys {
      assert Padded(m, keys) == m;
    } else {
      var k :| k in keys && k !in m;
      var m' := m[k := 0];
      SumUpdate(m, k, 0);
      assert k in keys.Keys - m.Keys && k !in keys.Keys - m'.Keys;
      NewRowsAreZero(m', keys);
      assert Padded(m, keys) == Padded(m', keys);
    }
  }

  // ---------------------------------------------------------------- runs

  datatype Action =
    | OnVote(a: R.Action)
    | Block(producer: Name, now: nat)
    | Claim(owner: Name, supply: nat, now: nat)

  ghost function Exec(s: State, a: Action): (r: State)
    requires V.WellFormed(s.voting)
    ensures V.WellFormed(r.voting)
  {
    match a
    case OnVote(v) => OnVoting(s, v)
    case Block(p, now) => OnBlock(s, p, now)
    case Claim(x, supply, now) => var r := ClaimRewards(s, x, supply, now); if r.Some? then r.value else s
  }

  ghost function Run(s: State, run: seq<Action>): (r: State)
    requires V.WellFormed(s.voting)
    ensures V.WellFormed(r.voting)
    decreases |run|
  {
    if run == [] then s else Run(Exec(s, run[0]), run[1..])
  }

  lemma ActionKeepsFunded(s: State, a: Action)
    requires V.WellFormed(s.voting) && Funded(s)
    ensures Funded(Exec(s, a))
  {
    hide Funded, OnVoting, OnBlock, ClaimRewards, V.WellFormed;
    match a
    case OnVote(v) => OnVotingKeepsFunded(s, v);
    case Block(p, now) => OnBlockKeepsFunded(s, p, now);
    case Claim(x, supply, now) => ClaimKeepsFunded(s, x, supply, now);
  }

  /** In every run of votes, blocks and claims, whatever weight changes are lost: unpaid blocks add up, both
      buckets are nonnegative and fully funded, and every issued token is saved, waiting or paid. */
  lemma {:induction false} RunKeepsFunded(s: State, run: seq<Action>)
    requires V.WellFormed(s.voting) && Funded(s)
    ensures Funded(Run(s, run))
    decreases |run|
  {
    hide Funded, Exec, V.WellFormed;
    if run != [] {
      ActionKeepsFunded(s, run[0]);
      RunKeepsFunded(Exec(s, run[0]), run[1..]);
    }
  }

  ghost predicate LosslessRun(s: State, run: seq<Action>)
    requires V.WellFormed(s.voting)
    decreases |run|
  {
    run != [] ==> (run[0].OnVote? ==> R.LosslessAction(s.voting, run[0].a)) && LosslessRun(Exec(s, run[0]), run[1..])
  }

  lemma ActionKeepsInv(s: State, a: Action)
    requires Inv(s)
    ensures Inv(Exec(s, a)) <==> (a.OnVote? ==> R.LosslessAction(s.voting, a.a))
  {
    hide Funded, OnVoting, OnBlock, ClaimRewards, T.Balanced, R.LosslessAction, V.WellFormed;
    match a
    case OnVote(v) => OnVotingKeepsInv(s, v);
    case Block(p, now) => OnBlockKeepsFunded(s, p, now);
    case Claim(x, supply, now) => ClaimKeepsInv(s, x, supply, now);
  }

  /** In a run that loses no weight change every claim that passes its checks finds its pay. */
  lemma {:induction false} RunKeepsInv(s: State, run: seq<Action>)
    requires Inv(s) && LosslessRun(s, run)
    ensures Inv(Run(s, run))
    decreases |run|
  {
    hide Funded, T.Balanced, Exec, R.LosslessAction, V.Shaped;
    if run != [] {
      ActionKeepsInv(s, run[0]);
      RunKeepsInv(Exec(s, run[0]), run[1..]);
    }
  }

  const GENESIS := State(V.EMPTY, map[], map[], 0, 0, 0, 0, 0, 0, 0, 0, map[])

  lemma GenesisKeepsInv()
    ensures Inv(GENESIS)
  {
    hide T.Inv;
    R.EmptyKeepsInv();
    SumZero<Name>(map[]);
  }
}
