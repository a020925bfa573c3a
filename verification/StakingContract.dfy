/** The staking actions as the contract runs them, table by table; a failed check rolls everything
    back. */
module StakingContract {
  import opened Sums
  import opened Staking

  class StakingTables {
    var delband: Delegations
    var totals: map<Name, Resources>
    var refunds: map<Name, Refund>
    var staked: map<Name, int>
    var liquid: map<Name, int>

    ghost function View(): State
      reads this
    {
      State(delband, totals, refunds, staked, liquid)
    }

    constructor (liquid: map<Name, int>)
      ensures View() == State(map[], map[], map[], map[], liquid)
    {
      delband, totals, refunds, staked := map[], map[], map[], map[];
      this.liquid := liquid;
    }

    method Restore(s: State)
      modifies this
      ensures View() == s
    {
      delband, totals, refunds, staked, liquid := s.delband, s.totals, s.refunds, s.staked, s.liquid;
    }

    /** The row from `from` to `receiver`: created, changed, or erased at zero. */
    method ChangeDelegation(from: Name, receiver: Name, net: int, cpu: int) returns (ok: bool)
      modifies this`delband
      ensures var b := Delegated(old(delband), (from, receiver));
              var b' := Bandwidth(b.net + net, b.cpu + cpu);
              && ok == (b'.net >= 0 && b'.cpu >= 0)
              && (ok ==> delband == PutDelegated(old(delband), (from, receiver), b'))
    {
      var k := (from, receiver);
      if k !in delband {
        delband := delband[k := Bandwidth(net, cpu)];
      } else {
        delband := delband[k := Bandwidth(delband[k].net + net, delband[k].cpu + cpu)];
      }
      if !(0 <= delband[k].net) || !(0 <= delband[k].cpu) {
        return false;
      }
      if delband[k].net == 0 && delband[k].cpu == 0 {
        delband := delband - {k};
      }
      ok := true;
    }

    method ChangeTotals(receiver: Name, net: int, cpu: int) returns (ok: bool)
      modifies this`totals
      ensures var t := TotalsOf(old(totals), receiver);
              var t' := Resources(t.net + net, t.cpu + cpu, t.ram);
              && ok == (t'.net >= 0 && t'.cpu >= 0)
              && (ok ==> totals == PutTotals(old(totals), receiver, t'))
    {
      if receiver !in totals {
        totals := totals[receiver := Resources(net, cpu, 0)];
      } else {
        var t := totals[receiver];
        totals := totals[receiver := t.(net := t.net + net, cpu := t.cpu + cpu)];
      }
      var t := totals[receiver];
      if !(0 <= t.net) || !(0 <= t.cpu) {
        return false;
      }
      if t.net == 0 && t.cpu == 0 && t.ram == 0 {
        totals := totals - {receiver};
      }
      ok := true;
    }

    /** Nets the change against the pending refund of `from`, side by side; what remains is still to be
        paid for. */
    method NetRefund(from: Name, net: int, cpu: int, now: nat) returns (payNet: int, payCpu: int)
      modifies this`refunds
      ensures var row := if from in old(refunds) then Some(old(refunds)[from]) else None;
              var n := Net(row, net, cpu, now);
              refunds == PutRefund(old(refunds), from, n.row) && payNet == n.net && payCpu == n.cpu
    {
      payNet, payCpu := net, cpu;
      if from in refunds {
        var r := refunds[from];
        if payNet < 0 || payCpu < 0 {
          r := r.(time := now);
        }
        r := r.(net := r.net - payNet);
        if r.net < 0 {
          payNet := -r.net;
          r := r.(net := 0);
        } else {
          payNet := 0;
        }
        r := r.(cpu := r.cpu - payCpu);
        if r.cpu < 0 {
          payCpu := -r.cpu;
          r := r.(cpu := 0);
        } else {
          payCpu := 0;
        }
        refunds := refunds[from := r];
        if r.net == 0 && r.cpu == 0 {
          refunds := refunds - {from};
        }
      } else if payNet < 0 || payCpu < 0 {
        var r := Refund(now, 0, 0);
        if payNet < 0 {
          r := r.(net := -payNet);
          payNet := 0;
        }
        if payCpu < 0 {
          r := r.(cpu := -payCpu);
          payCpu := 0;
        }
        refunds := refunds[from := r];
      }
    }

    method Pay(from: Name, to: Name, amount: int) returns (ok: bool)
      modifies this`liquid
      ensures match Transfer(old(liquid), from, to, amount)
              case None => !ok && liquid == old(liquid)
              case Some(l) => ok && liquid == l
    {
      if amount <= 0 || from == to || Liquid(liquid, from) < amount {
        return false;
      }
      liquid := liquid[from := Liquid(liquid, from) - amount];
      liquid := liquid[to := Liquid(liquid, to) + amount];
      ok := true;
    }

    /** Refund and payment of one stake change. */
    method SettleChange(payer: Name, from: Name, netting: bool, net: int, cpu: int, now: nat) returns (ok: bool)
      modifies this`refunds, this`liquid
      ensures ok == Settle(old(View()), payer, from, netting, net, cpu, now).Some?
      ensures ok ==> View() == Settle(old(View()), payer, from, netting, net, cpu, now).value
    {
      hide Net;
      var payNet, payCpu := net, cpu;
      if netting {
        payNet, payCpu := NetRefund(from, net, cpu, now);
      } else {
        assert refunds == PutRefund(refunds, from, if from in refunds then Some(refunds[from]) else None);
      }
      ok := true;
      if 0 < payNet + payCpu {
        ok := Pay(payer, STAKE, payNet + payCpu);
      }
    }

    /** The delegation row, the receiver's totals and the voting stake. */
    method ChangeRows(from: Name, receiver: Name, net: int, cpu: int) returns (ok: bool)
      modifies this`delband, this`totals, this`staked
      ensures ok == Rebook(old(View()), from, receiver, net, cpu).Some?
      ensures ok ==> View() == Rebook(old(View()), from, receiver, net, cpu).value
    {
      hide PutDelegated, PutTotals;
      ok := ChangeDelegation(from, receiver, net, cpu);
      if !ok { return; }
      ok := ChangeTotals(receiver, net, cpu);
      if !ok { return; }
      staked := staked[from := StakedBy(staked, from) + net + cpu];
      ok := 0 <= staked[from];
    }

    method ChangeBw(payer: Name, receiver: Name, net: int, cpu: int, transfer: bool, now: nat) returns (ok: bool)
      modifies this
      ensures Staking.ChangeBw(old(View()), payer, receiver, net, cpu, transfer, now) ==
              if ok then Some(View()) else None
      ensures !ok ==> View() == old(View())
    {
      hide Net, Settle, Rebook, PutDelegated, PutTotals;
      if (net == 0 && cpu == 0) || !SameSignGuard(net, cpu) {
        return false;
      }
      var saved := State(delband, totals, refunds, staked, liquid);
      var from := if transfer then receiver else payer;
      ok := ChangeRows(from, receiver, net, cpu);
      if ok && payer != STAKE {
        ok := SettleChange(payer, from, (!transfer && from == receiver) || net + cpu < 0, net, cpu, now);
      }
      if !ok {
        Restore(saved);
      }
    }

    method DelegateBw(payer: Name, receiver: Name, net: int, cpu: int, transfer: bool, now: nat) returns (ok: bool)
      modifies this
      ensures Delegate(old(View()), payer, receiver, net, cpu, transfer, now) == if ok then Some(View()) else None
      ensures !ok ==> View() == old(View())
    {
      hide Staking.ChangeBw;
      if cpu < 0 || net < 0 || net + cpu <= 0 || (transfer && payer == receiver) {
        return false;
      }
      ok := ChangeBw(payer, receiver, net, cpu, transfer, now);
    }

    method UndelegateBw(payer: Name, receiver: Name, net: int, cpu: int, activated: bool, now: nat) returns (ok: bool)
      modifies this
      ensures Undelegate(old(View()), payer, receiver, net, cpu, activated, now) == if ok then Some(View()) else None
      ensures !ok ==> View() == old(View())
    {
      hide Staking.ChangeBw;
      if cpu < 0 || net < 0 || net + cpu <= 0 || !activated {
        return false;
      }
      ok := ChangeBw(payer, receiver, -net, -cpu, false, now);
    }

    method PayRefund(owner: Name, now: nat) returns (ok: bool)
      modifies this
      ensures ClaimRefund(old(View()), owner, now) == if ok then Some(View()) else None
      ensures !ok ==> View() == old(View())
    {
      if owner !in refunds || now < refunds[owner].time + REFUND_DELAY {
        return false;
      }
      ok := Pay(STAKE, owner, refunds[owner].net + refunds[owner].cpu);
      if ok {
        refunds := refunds - {owner};
      }
    }
  }
}
