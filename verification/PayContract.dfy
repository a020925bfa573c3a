/** `onblock` and `claimrewards` on fields updated in place, beside the voting tables they read. Every
    change to those tables goes through this class, which adds the rows of new producers. */
module PayContract {
  import opened Sums
  import opened ProducerPay
  import opened VotingContract

  class Payroll {
    const voting: SystemContract
    var unpaid: map<Name, int>
    var lastClaim: map<Name, int>
    var totalUnpaid: int
    var perVote: int
    var perBlock: int
    var lastFill: int
    var bpay: int
    var vpay: int
    var savings: int
    var issued: int
    var earned: map<Name, int>

    ghost function View(): State
      reads this, voting
    {
      State(voting.View(), unpaid, lastClaim, totalUnpaid, perVote, perBlock, lastFill, bpay, vpay, savings, issued,
            earned)
    }

    ghost predicate Valid()
      reads this, voting
    {
      voting.Valid() && Funded(View())
    }

    constructor (voting: SystemContract)
      requires voting.Valid()
      ensures this.voting == voting && Valid()
      ensures View() == OnVotingTables(GENESIS, voting.View())
    {
      this.voting := voting;
      unpaid, lastClaim := Padded(map[], voting.active), Padded(map[], voting.active);
      totalUnpaid, perVote, perBlock, lastFill := 0, 0, 0, 0;
      bpay, vpay, savings, issued, earned := 0, 0, 0, 0, map[];
      new;
      NewRowsAreZero(map[], voting.active);
      SumZero<Name>(map[]);
    }

    /** A newly registered producer starts with no unpaid blocks and no claim. */
    method AddRows()
      modifies this
      ensures View() == OnVotingTables(old(View()), voting.View())
    {
      unpaid := Padded(unpaid, voting.active);
      lastClaim := Padded(lastClaim, voting.active);
    }

    method Vote(x: Name, proxy: Option<Name>, prods: seq<Name>, f: V.Scale) returns (ok: bool)
      requires Valid()
      modifies this, voting
      ensures Valid() && View() == OnVoting(old(View()), R.Vote(x, proxy, prods, f))
      ensures ok <==> R.Attempt(old(voting.View()), R.Vote(x, proxy, prods, f)).Some?
    {
      hide Funded, V.WellFormed, V.UpdateVotes;
      OnVotingKeepsFunded(View(), R.Vote(x, proxy, prods, f));
      ok := voting.UpdateVotes(x, proxy, prods, true, f);
      AddRows();
    }

    method RegProxy(x: Name, flag: bool, f: V.Scale) returns (ok: bool)
      requires Valid()
      modifies this, voting
      ensures Valid() && View() == OnVoting(old(View()), R.FlagProxy(x, flag, f))
      ensures ok <==> R.Attempt(old(voting.View()), R.FlagProxy(x, flag, f)).Some?
    {
      hide Funded, V.WellFormed, V.RegProxy;
      OnVotingKeepsFunded(View(), R.FlagProxy(x, flag, f));
      ok := voting.RegProxy(x, flag, f);
      AddRows();
    }

    method ChangeStake(x: Name, delta: int, f: V.Scale) returns (ok: bool)
      requires Valid()
      modifies this, voting
      ensures Valid() && View() == OnVoting(old(View()), R.ChangeStake(x, delta, f))
      ensures ok <==> R.Attempt(old(voting.View()), R.ChangeStake(x, delta, f)).Some?
    {
      hide Funded, V.WellFormed, V.Restake;
      OnVotingKeepsFunded(View(), R.ChangeStake(x, delta, f));
      ok := voting.ChangeStake(x, delta, f);
      AddRows();
    }

    method RegProducer(p: Name)
      requires Valid()
      modifies this, voting
      ensures Valid() && View() == OnVoting(old(View()), R.Register(p))
    {
      hide Funded, V.WellFormed;
      OnVotingKeepsFunded(View(), R.Register(p));
      voting.RegProducer(p);
      AddRows();
    }

    method UnregProducer(p: Name) returns (ok: bool)
      requires Valid()
      modifies this, voting
      ensures Valid() && View() == OnVoting(old(View()), R.Unregister(p))
      ensures ok <==> R.Attempt(old(voting.View()), R.Unregister(p)).Some?
    {
      hide Funded, V.WellFormed, V.Deactivate;
      OnVotingKeepsFunded(View(), R.Unregister(p));
      ok := voting.UnregProducer(p);
      AddRows();
    }

    /** Counts a produced block once enough stake takes part. */
    method OnBlock(producer: Name, now: nat)
      requires Valid()
      modifies this
      ensures Valid() && View() == ProducerPay.OnBlock(old(View()), producer, now)
    {
      hide Funded, V.WellFormed;
      OnBlockKeepsFunded(View(), producer, now);
      if voting.activatedStake < MIN_ACTIVATED_STAKE {
        return;
      }
      if lastFill == 0 {
        lastFill := now;
      }
      if producer in unpaid {
        totalUnpaid := totalUnpaid + 1;
        unpaid := unpaid[producer := unpaid[producer] + 1];
      }
    }

    /** Issues what inflation accrued and spreads it over savings and the two buckets. */
    method FillBuckets(supply: nat, now: nat) returns (ok: bool)
      modifies this
      ensures Fill(old(View()), supply, now) == if ok then Some(View()) else None
      ensures !ok ==> View() == old(View())
    {
      hide NewTokens;
      if now <= lastFill || lastFill <= 0 {
        return true;
      }
      var tokens := NewTokens(supply, now - lastFill);
      var toProducers := tokens / 5;
      var toSavings := tokens - toProducers;
      var toBlocks := toProducers / 4;
      var toVotes := toProducers - toBlocks;
      if toSavings <= 0 || toBlocks <= 0 || toVotes <= 0 {
        return false;
      }
      issued, savings, bpay, vpay := issued + tokens, savings + toSavings, bpay + toBlocks, vpay + toVotes;
      perVote := perVote + toVotes;
      perBlock := perBlock + toBlocks;
      lastFill := now;
      return true;
    }

    method BlockDraw(x: Name) returns (pay: int)
      requires x in unpaid
      ensures pay == BlockPay(View(), x)
    {
      pay := 0;
      if totalUnpaid > 0 {
        pay := (perBlock * unpaid[x]) / totalUnpaid;
      }
    }

    method VoteDraw(x: Name) returns (pay: int)
      requires x in voting.totalVotes
      ensures pay == ByVotes(perVote, voting.totalVotes[x], voting.totalWeight)
    {
      pay := 0;
      if voting.totalWeight > 0.0 {
        pay := ((perVote as real) * voting.totalVotes[x] / voting.totalWeight).Floor;
      }
      if pay < MIN_PERVOTE_PAY {
        pay := 0;
      }
    }

    /** Pays `x` its part of both buckets, unless an account runs short. */
    method Draw(x: Name, now: nat) returns (ok: bool)
      requires x in unpaid && x in voting.View().tally.votes
      modifies this
      ensures Pay(old(View()), x, now) == if ok then Some(View()) else None
      ensures !ok ==> View() == old(View())
    {
      hide BlockPay, VotePay, ByVotes, SystemContract.View;
      VotesAre();
      ghost var s := View();
      var block := BlockDraw(x);
      var vote := VoteDraw(x);
      assert vote == VotePay(s, x) by { VotePayIs(x); }
      if block > bpay || vote > vpay {
        return false;
      }
      Disburse(x, block, vote);
      StartOver(x, now);
      assert voting.View() == s.voting;
      ok := true;
    }

    method Disburse(x: Name, block: int, vote: int)
      modifies this`perVote, this`perBlock, this`bpay, this`vpay, this`earned
      ensures perVote == old(perVote) - vote && perBlock == old(perBlock) - block
      ensures bpay == old(bpay) - block && vpay == old(vpay) - vote
      ensures earned == old(earned)[x := (if x in old(earned) then old(earned)[x] else 0) + block + vote]
    {
      perVote, perBlock := perVote - vote, perBlock - block;
      bpay, vpay := bpay - block, vpay - vote;
      earned := earned[x := (if x in earned then earned[x] else 0) + block + vote];
    }

    /** The producer has no unpaid blocks any more, and has claimed now. */
    method StartOver(x: Name, now: nat)
      requires x in unpaid
      modifies this`totalUnpaid, this`unpaid, this`lastClaim
      ensures totalUnpaid == old(totalUnpaid) - old(unpaid)[x]
      ensures unpaid == old(unpaid)[x := 0] && lastClaim == old(lastClaim)[x := now]
    {
      totalUnpaid := totalUnpaid - unpaid[x];
      lastClaim := lastClaim[x := now];
      unpaid := unpaid[x := 0];
    }

    lemma VotesAre()
      ensures voting.View().tally.votes == voting.totalVotes
    {
    }

    lemma VotePayIs(x: Name)
      requires x in voting.totalVotes
      ensures x in voting.View().tally.votes
      ensures VotePay(View(), x) == ByVotes(perVote, voting.totalVotes[x], voting.totalWeight)
    {
      hide ByVotes;
    }

    method Restore(
      ghost s: State, lastFill: int, perVote: int, perBlock: int, bpay: int, vpay: int, savings: int, issued: int)
      requires View() == s.(lastFill := this.lastFill, perVote := this.perVote, perBlock := this.perBlock,
                            bpay := this.bpay, vpay := this.vpay, savings := this.savings, issued := this.issued)
      requires s.lastFill == lastFill && s.perVote == perVote && s.perBlock == perBlock
      requires s.bpay == bpay && s.vpay == vpay && s.savings == savings && s.issued == issued
      modifies this
      ensures View() == s
    {
      this.lastFill, this.perVote, this.perBlock := lastFill, perVote, perBlock;
      this.bpay, this.vpay, this.savings, this.issued := bpay, vpay, savings, issued;
    }

    /** A claim that an account cannot cover takes back the filling of the buckets as well. */
    method ClaimRewards(x: Name, supply: nat, now: nat) returns (ok: bool)
      requires Valid()
      modifies this
      ensures ProducerPay.ClaimRewards(old(View()), x, supply, now) == if ok then Some(View()) else None
      ensures !ok ==> View() == old(View())
      ensures Valid()
    {
      hide Funded, Fill, Pay, V.WellFormed;
      ghost var s := View();
      ClaimKeepsFunded(s, x, supply, now);
      RowsExist(s, x);
      if x !in voting.active || !voting.active[x] || voting.activatedStake < MIN_ACTIVATED_STAKE
        || now - lastClaim[x] <= DAY {
        return false;
      }
      var savedFill, savedVote, savedBlock := lastFill, perVote, perBlock;
      var savedBpay, savedVpay, savedSavings, savedIssued := bpay, vpay, savings, issued;
      ok := FillBuckets(supply, now);
      if ok {
        FillTouches(s, supply, now);
        ok := Draw(x, now);
        if !ok {
          Restore(s, savedFill, savedVote, savedBlock, savedBpay, savedVpay, savedSavings, savedIssued);
        }
      }
    }
  }

  lemma RowsExist(s: State, x: Name)
    requires V.WellFormed(s.voting) && Funded(s)
    ensures x in s.voting.active ==> x in s.unpaid && x in s.lastClaim && x in s.voting.tally.votes
  {
  }

  lemma FillTouches(s: State, supply: nat, now: nat)
    requires Fill(s, supply, now).Some?
    ensures var r := Fill(s, supply, now).value;
            r == s.(lastFill := r.lastFill, perVote := r.perVote, perBlock := r.perBlock,
                    bpay := r.bpay, vpay := r.vpay, savings := r.savings, issued := r.issued)
  {
    hide NewTokens;
  }
}
