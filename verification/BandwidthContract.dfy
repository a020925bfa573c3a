/** `delegatebw` and `undelegatebw` whole: the staking tables change in place, then the stored vote is cast again in
    the voting tables, and a failure of either rolls both back. */
module BandwidthContract {
  import opened Sums
  import opened StakingVotes
  import V = Voting
  import C = StakingContract
  import W = VotingContract

  class Bandwidth {
    const tables: C.StakingTables
    const voting: W.SystemContract

    ghost function View(): System
      reads tables, voting
    {
      System(tables.View(), voting.View())
    }

    ghost predicate Valid()
      reads voting
    {
      voting.Valid()
    }

    constructor (liquid: map<Name, int>)
      ensures Valid() && fresh(tables) && fresh(voting)
      ensures View() == System(S.State(map[], map[], map[], map[], liquid), V.EMPTY)
    {
      tables := new C.StakingTables(liquid);
      voting := new W.SystemContract();
    }

    /** The end of `changebw`, once the staking tables have changed. */
    method Recast(from: Name, delta: int, f: V.Scale, saved: S.State) returns (ok: bool)
      requires Valid()
      modifies tables, voting
      ensures Valid()
      ensures V.Restake(old(voting.View()), from, delta, f) == if ok then Some(voting.View()) else None
      ensures ok ==> tables.View() == old(tables.View())
      ensures !ok ==> voting.View() == old(voting.View()) && tables.View() == saved
    {
      hide V.Restake, V.WellFormed;
      ok := voting.ChangeStake(from, delta, f);
      if !ok { tables.Restore(saved); }
    }

    method DelegateBw(payer: Name, receiver: Name, net: int, cpu: int, transfer: bool, now: nat, f: V.Scale)
      returns (ok: bool)
      requires Valid()
      modifies tables, voting
      ensures Valid()
      ensures Attempt(old(View()), Delegate(payer, receiver, net, cpu, transfer, now, f)) ==
              if ok then Some(View()) else None
      ensures !ok ==> View() == old(View())
    {
      hide V.Restake, V.WellFormed, S.Delegate;
      var saved := S.State(tables.delband, tables.totals, tables.refunds, tables.staked, tables.liquid);
      ok := tables.DelegateBw(payer, receiver, net, cpu, transfer, now);
      if ok { ok := Recast(if transfer then receiver else payer, net + cpu, f, saved); }
    }

    method UndelegateBw(payer: Name, receiver: Name, net: int, cpu: int, now: nat, f: V.Scale) returns (ok: bool)
      requires Valid()
      modifies tables, voting
      ensures Valid()
      ensures Attempt(old(View()), Undelegate(payer, receiver, net, cpu, now, f)) == if ok then Some(View()) else None
      ensures !ok ==> View() == old(View())
    {
      hide V.Restake, V.WellFormed, S.Undelegate;
      var saved := S.State(tables.delband, tables.totals, tables.refunds, tables.staked, tables.liquid);
      ok := tables.UndelegateBw(payer, receiver, net, cpu, voting.activatedStake >= MIN_ACTIVATED_STAKE, now);
      if ok { ok := Recast(payer, -net - cpu, f, saved); }
    }
  }
}
