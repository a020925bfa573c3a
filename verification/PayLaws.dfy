/** What blocks, inflation and claims do to the pay tables, in numbers. */
module PayLaws {
  import opened Sums
  import opened RamMath
  import opened ProducerPay
  import V = Voting

  type Name = nat

  /** A block counts for its producer, if that is registered, once enough stake takes part; the first such block
      starts the clock of inflation. */
  lemma BlockIsCounted(s: State, producer: Name, now: nat)
    ensures var r := OnBlock(s, producer, now);
            var counts := s.voting.activatedStake >= 1500000000000 && producer in s.unpaid;
            && r.totalUnpaid == s.totalUnpaid + (if counts then 1 else 0)
            && r.unpaid.Keys == s.unpaid.Keys
            && (forall x <- s.unpaid :: r.unpaid[x] == s.unpaid[x] + if counts && x == producer then 1 else 0)
            && r.lastFill == (if s.voting.activatedStake >= 1500000000000 && s.lastFill == 0 then now else s.lastFill)
            && r == s.(totalUnpaid := r.totalUnpaid, unpaid := r.unpaid, lastFill := r.lastFill)
  {
  }

  /** A year of 364 days brings 4.879 percent of the supply, in proportion to the time, truncated. */
  lemma {:induction false} InflationLaw(supply: nat, usecs: nat, tokens: nat)
    requires tokens == NewTokens(supply, usecs)
    ensures var year := 364 * 24 * 3600 * 1000000;
            tokens * (100000 * year) <= 4879 * supply * usecs < (tokens + 1) * (100000 * year)
  {
    var a, year := supply * usecs, 364 * 24 * 3600 * 1000000;
    var exact := CONTINUOUS_RATE * (supply as real) * (usecs as real) / (YEAR as real);
    assert (a as real) == (supply as real) * (usecs as real);
    assert CONTINUOUS_RATE * (supply as real) * (usecs as real) == CONTINUOUS_RATE * (a as real);
    hide NewTokens;
    assert exact == (4879 * a) as real / ((100000 * year) as real);
    FloorLaw(4879 * a, 100000 * year, exact, tokens);
    assert 4879 * a == 4879 * supply * usecs;
  }

  lemma FloorLaw(a: int, b: int, exact: real, k: int)
    requires b > 0 && exact == a as real / b as real && k == exact.Floor
    ensures k * b <= a < (k + 1) * b
  {
    assert exact * (b as real) == a as real;
    assert k as real <= exact < (k + 1) as real;
    Scale(k as real, exact, b as real);
    ScaleLess(exact, (k + 1) as real, b as real);
    assert (k as real) * (b as real) == (k * b) as real && ((k + 1) as real) * (b as real) == ((k + 1) * b) as real;
  }

  lemma Scale(a: real, b: real, c: real)
    requires a <= b && c >= 0.0
    ensures a * c <= b * c
  {
  }

  lemma ScaleLess(a: real, b: real, c: real)
    requires a < b && c > 0.0
    ensures a * c < b * c
  {
  }

  /** Of that a fifth, truncated, is for producers, of which a quarter, truncated, goes to the bucket for blocks and
      the rest to the bucket for votes; all else is saved. Nothing happens before the first block that counts, or
      when no time has passed. */
  lemma {:induction false} BucketsAreFilled(s: State, supply: nat, now: nat)
    requires Fill(s, supply, now).Some?
    ensures var r := Fill(s, supply, now).value;
            var tokens, block, vote := r.issued - s.issued, r.perBlock - s.perBlock, r.perVote - s.perVote;
            && (if s.lastFill <= 0 || now <= s.lastFill then r == s
                else
                  && tokens == NewTokens(supply, now - s.lastFill) && r.lastFill == now
                  && 5 * (block + vote) <= tokens < 5 * (block + vote) + 5
                  && 4 * block <= block + vote < 4 * block + 4)
            && r.savings == s.savings + tokens - block - vote && r.bpay == s.bpay + block && r.vpay == s.vpay + vote
            && r == s.(issued := r.issued, savings := r.savings, bpay := r.bpay, vpay := r.vpay, perVote := r.perVote,
                       perBlock := r.perBlock, lastFill := r.lastFill)
  {
    hide NewTokens;
  }

  /** The part of a bucket that some votes out of all are entitled to. */
  function Share(bucket: int, votes: real, total: real): real
    requires total > 0.0
  {
    (bucket as real) * votes / total
  }

  /** A claim pays its producer the share of the filled per-block bucket that its unpaid blocks are of all unpaid
      blocks, truncated; and the share of the per-vote bucket that its votes are of all votes, truncated, unless
      that is less than a hundred tokens: then nothing. It starts the producer's counters over and touches nobody
      else's. */
  lemma {:induction false} ClaimPays(s: State, x: Name, supply: nat, now: nat)
    requires ClaimRewards(s, x, supply, now).Some?
    ensures var s1, r := Fill(s, supply, now).value, ClaimRewards(s, x, supply, now).value;
            && Fill(s, supply, now).Some? && x in s1.unpaid && x in s1.voting.tally.votes
            && var d, e := s1.bpay - r.bpay, s1.vpay - r.vpay;
               var all, total := s1.totalUnpaid, s1.voting.tally.total;
               && (if all > 0 then d * all <= s1.perBlock * s1.unpaid[x] < (d + 1) * all else d == 0)
               && (if total > 0.0 then
                     var share := Share(s1.perVote, s1.voting.tally.votes[x], total);
                     if share < 1000000.0 then e == 0 else e as real <= share < (e + 1) as real
                   else e == 0)
               && r.perBlock == s1.perBlock - d && r.perVote == s1.perVote - e
               && r.earned == s1.earned[x := (if x in s1.earned then s1.earned[x] else 0) + d + e]
               && r.totalUnpaid == all - s1.unpaid[x]
               && r.unpaid == s1.unpaid[x := 0] && r.lastClaim == s1.lastClaim[x := now]
               && r.savings == s1.savings && r.issued == s1.issued && r.voting == s1.voting && r.lastFill == s1.lastFill
  {
    hide Fill, ByBlocks, ByVotes, Share;
    var s1 := Fill(s, supply, now).value;
    SameProducers(s, supply, now);
    BlockShareLaw(s1.perBlock, s1.unpaid[x], s1.totalUnpaid);
    VoteShareLaw(s1.perVote, s1.voting.tally.votes[x], s1.voting.tally.total);
  }

  lemma SameProducers(s: State, supply: nat, now: nat)
    requires Fill(s, supply, now).Some?
    ensures var r := Fill(s, supply, now).value;
            r.voting == s.voting && r.unpaid == s.unpaid && r.lastClaim == s.lastClaim && r.earned == s.earned
  {
    hide NewTokens;
  }

  lemma BlockShareLaw(bucket: int, blocks: int, total: int)
    ensures var d := ByBlocks(bucket, blocks, total);
            if total > 0 then d * total <= bucket * blocks < (d + 1) * total else d == 0
  {
  }

  lemma VoteShareLaw(bucket: int, votes: real, total: real)
    ensures var e := ByVotes(bucket, votes, total);
            if total > 0.0 then
              var share := Share(bucket, votes, total);
              if share < 1000000.0 then e == 0 else e as real <= share < (e + 1) as real
            else e == 0
  {
  }

  /** On funded buckets a claim is accepted if and only if its producer is active and has not claimed for more than a
      day, enough stake takes part, inflation since the last filling comes to at least twenty units, and its part of
      the per-vote bucket is not more than there is. */
  lemma {:induction false} ClaimIsAccepted(s: State, x: Name, supply: nat, now: nat)
    requires V.WellFormed(s.voting) && Funded(s) && s.lastFill >= 0
    ensures ClaimRewards(s, x, supply, now).Some? <==>
            && x in s.voting.active && s.voting.active[x] && x in s.lastClaim && now - s.lastClaim[x] > 86400000000
            && s.voting.activatedStake >= 1500000000000
            && (0 < s.lastFill < now ==>
                  4879 * supply * (now - s.lastFill) >= 20 * (100000 * (364 * 24 * 3600 * 1000000)))
            && var after := Fill(s, supply, now);
               after.Some? && (s.voting.tally.total > 0.0 ==>
                 var share := Share(after.value.perVote, s.voting.tally.votes[x], s.voting.tally.total);
                 share < 1000000.0 || share < (after.value.vpay + 1) as real)
  {
    hide Fill, ByBlocks, ByVotes, Share, NewTokens, ClaimRewards, V.Shaped, Sum;
    ClaimKeepsFunded(s, x, supply, now);
    FillKeepsFunded(s, supply, now);
    if 0 < s.lastFill < now {
      InflationLaw(supply, now - s.lastFill, NewTokens(supply, now - s.lastFill));
      Enough(4879 * supply * (now - s.lastFill), 100000 * (364 * 24 * 3600 * 1000000),
             NewTokens(supply, now - s.lastFill));
    }
    if x in s.voting.active && Fill(s, supply, now).Some? {
      var s1 := Fill(s, supply, now).value;
      VoteShareLaw(s1.perVote, s1.voting.tally.votes[x], s1.voting.tally.total);
    }
  }

  lemma Enough(a: int, year: int, tokens: int)
    requires year > 0 && tokens * year <= a < (tokens + 1) * year
    ensures tokens >= 20 <==> a >= 20 * year
  {
    if tokens >= 20 { MulLe(20, tokens, year); } else { MulLe(tokens + 1, 20, year); }
  }
}
