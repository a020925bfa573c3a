/** Whole runs of the staking actions: the tables agree, eosio.stake is fully backed, and no token
    leaves it before its delay is over. */
module StakingRuns {
  import opened Sums
  import opened Staking

  // ---------------------------------------------------------------- netting

  /** Netting neither makes nor loses stake: what the refund row gives up and what is paid cover the
      change exactly, the row never goes negative, and an empty row is not kept. */
  lemma NetLaw(row: Option<Refund>, net: int, cpu: int, now: nat)
    requires row.Some? ==> row.value.net >= 0 && row.value.cpu >= 0
    ensures var n := Net(row, net, cpu, now);
            && n.net >= 0 && n.cpu >= 0
            && (if n.row.Some? then n.row.value.Total() else 0) ==
               (if row.Some? then row.value.Total() else 0) - (net + cpu) + n.net + n.cpu
            && (n.row.Some? ==> n.row.value.net >= 0 && n.row.value.cpu >= 0 && n.row.value.Total() > 0)
            && (net <= 0 && cpu <= 0 ==> n.net == 0 && n.cpu == 0)
  {
  }

  /** A settlement moves the tokens in eosio.stake and the pending refunds by amounts that differ by
      exactly the stake change. */
  lemma SettleBacks(s: State, payer: Name, from: Name, netting: bool, net: int, cpu: int, now: nat)
    requires Rows(s) && payer != STAKE && SameSignGuard(net, cpu) && (net + cpu < 0 ==> netting)
    requires Settle(s, payer, from, netting, net, cpu, now).Some?
    ensures var r := Settle(s, payer, from, netting, net, cpu, now).value;
            && Liquid(r.liquid, STAKE) - Sum(Pending(r.refunds)) ==
               Liquid(s.liquid, STAKE) - Sum(Pending(s.refunds)) + net + cpu
            && Rows(r) && r.delband == s.delband && r.totals == s.totals && r.staked == s.staked
  {
    hide Sum, Pending, Net;
    GuardMeansSameSign(net, cpu);
    var row := if from in s.refunds then Some(s.refunds[from]) else None;
    NetLaw(row, net, cpu, now);
    var n := if netting then Net(row, net, cpu, now) else Netted(row, net, cpu);
    PutPending(s.refunds, from, n.row);
  }

  /** A settlement fails only when the payer cannot cover what is left to pay. */
  lemma SettleAborts(s: State, payer: Name, from: Name, netting: bool, net: int, cpu: int, now: nat)
    requires payer != STAKE
    ensures Settle(s, payer, from, netting, net, cpu, now).Some? <==>
            var row := if from in s.refunds then Some(s.refunds[from]) else None;
            var n := if netting then Net(row, net, cpu, now) else Netted(row, net, cpu);
            n.net + n.cpu <= 0 || Liquid(s.liquid, payer) >= n.net + n.cpu
  {
  }

  // ---------------------------------------------------------------- changebw

  lemma RebookKeepsRows(s: State, from: Name, receiver: Name, net: int, cpu: int)
    requires Rows(s) && Rebook(s, from, receiver, net, cpu).Some?
    ensures Rows(Rebook(s, from, receiver, net, cpu).value)
  {
  }

  /** A stake change keeps eosio.stake backed if and only if the tokens do not come from eosio.stake
      itself: for that payer the contract moves no tokens at all. */
  lemma ChangeBwBacks(s: State, payer: Name, receiver: Name, net: int, cpu: int, transfer: bool, now: nat)
    requires Rows(s) && Backed(s) && (transfer ==> net + cpu >= 0)
    requires ChangeBw(s, payer, receiver, net, cpu, transfer, now).Some?
    ensures var r := ChangeBw(s, payer, receiver, net, cpu, transfer, now).value;
            Rows(r) && (Backed(r) <==> payer != STAKE)
  {
    hide Sum, Pending, SumOf, Rebook, Settle, Rows;
    var from := if transfer then receiver else payer;
    GuardMeansSameSign(net, cpu);
    RebookTotal(s, from, receiver, net, cpu);
    RebookKeepsRows(s, from, receiver, net, cpu);
    var s1 := Rebook(s, from, receiver, net, cpu).value;
    RebookMovesNothing(s, from, receiver, net, cpu);
    if payer != STAKE {
      SettleBacks(s1, payer, from, (!transfer && from == receiver) || net + cpu < 0, net, cpu, now);
    }
  }

  lemma RebookMovesNothing(s: State, from: Name, receiver: Name, net: int, cpu: int)
    requires Rebook(s, from, receiver, net, cpu).Some?
    ensures Rebook(s, from, receiver, net, cpu).value.liquid == s.liquid
    ensures Rebook(s, from, receiver, net, cpu).value.refunds == s.refunds
  {
  }

  lemma ChangeBwAgrees(s: State, payer: Name, receiver: Name, net: int, cpu: int, transfer: bool, now: nat, x: Name)
    requires Agrees(s, x) && ChangeBw(s, payer, receiver, net, cpu, transfer, now).Some?
    ensures Agrees(ChangeBw(s, payer, receiver, net, cpu, transfer, now).value, x)
  {
    hide SumOf, Rebook, Net;
    RebookAgrees(s, if transfer then receiver else payer, receiver, net, cpu, x);
  }

  /** Undelegating fails only for lack of delegated stake: neither the totals, nor the voting stake, nor
      a payment can stand in its way. */
  lemma UndelegateAborts(s: State, payer: Name, receiver: Name, net: int, cpu: int, activated: bool, now: nat)
    requires Inv(s)
    ensures Undelegate(s, payer, receiver, net, cpu, activated, now).Some? <==>
            var b := Delegated(s.delband, (payer, receiver));
            net >= 0 && cpu >= 0 && net + cpu > 0 && activated && b.net >= net && b.cpu >= cpu
  {
    hide SumOf, Backed, Net, Rebook;
    GuardMeansSameSign(-net, -cpu);
    assert Agrees(s, payer) && Agrees(s, receiver);
    RebookAborts(s, payer, receiver, -net, -cpu);
    var s1 := Rebook(s, payer, receiver, -net, -cpu);
    if s1.Some? && payer != STAKE && net >= 0 && cpu >= 0 {
      RebookMovesNothing(s, payer, receiver, -net, -cpu);
      var row := if payer in s.refunds then Some(s.refunds[payer]) else None;
      NetLaw(row, -net, -cpu, now);
      if net + cpu > 0 { SettleAborts(s1.value, payer, payer, true, -net, -cpu, now); }
    }
  }

  // ---------------------------------------------------------------- refunds

  /** A due refund is always paid, and never pays nothing: the tokens are there. */
  lemma RefundIsPaid(s: State, owner: Name, now: nat)
    requires Inv(s)
    ensures var r := ClaimRefund(s, owner, now);
            && (r.Some? <==> owner != STAKE && owner in s.refunds && now >= s.refunds[owner].time + REFUND_DELAY)
            && (r.Some? ==>
                  && Inv(r.value)
                  && Liquid(r.value.liquid, owner) == Liquid(s.liquid, owner) + s.refunds[owner].Total()
                  && s.refunds[owner].Total() > 0)
  {
    hide Sum, SumOf, Pending;
    if owner in s.refunds {
      PendingCovered(s, owner);
      PutPending(s.refunds, owner, None);
      var r := ClaimRefund(s, owner, now);
      if r.Some? {
        forall x: Name ensures Agrees(r.value, x) { assert Agrees(s, x); }
      }
    }
  }

  lemma PendingCovered(s: State, owner: Name)
    requires Rows(s) && Backed(s) && owner in s.refunds
    ensures Liquid(s.liquid, STAKE) >= s.refunds[owner].Total()
  {
    hide Sum;
    SumNonNegative(Pending(s.refunds));
    assert Pending(s.refunds)[owner] == s.refunds[owner].Total();
    SumNonNegative(Column(s.delband, STAKE, All));
  }

  // ---------------------------------------------------------------- runs

  datatype Action =
    | Delegating(payer: Name, receiver: Name, net: int, cpu: int, transfer: bool, now: nat)
    | Undelegating(payer: Name, receiver: Name, net: int, cpu: int, activated: bool, now: nat)
    | Refunding(owner: Name, now: nat)

  function Attempt(s: State, a: Action): Option<State> {
    match a
    case Delegating(p, r, n, c, t, now) => Delegate(s, p, r, n, c, t, now)
    case Undelegating(p, r, n, c, act, now) => Undelegate(s, p, r, n, c, act, now)
    case Refunding(o, now) => ClaimRefund(s, o, now)
  }

  function Exec(s: State, a: Action): State {
    var r := Attempt(s, a);
    if r.Some? then r.value else s
  }

  function Run(s: State, run: seq<Action>): State
    decreases |run|
  {
    if run == [] then s else Exec(Run(s, run[..|run| - 1]), run[|run| - 1])
  }

  predicate NotPaidByStake(a: Action) {
    match a
    case Delegating(p, _, _, _, _, _) => p != STAKE
    case Undelegating(p, _, _, _, _, _) => p != STAKE
    case Refunding(_, _) => true
  }

  /** Before anything is staked the invariant holds for any token balances, eosio.stake having none. */
  lemma GenesisKeepsInv(liquid: map<Name, int>)
    requires Liquid(liquid, STAKE) == 0
    ensures Inv(State(map[], map[], map[], map[], liquid))
  {
    var s := State(map[], map[], map[], map[], liquid);
    forall x: Name, w: Which ensures SumOf(s.delband, x, w) == 0 {
      SumZero(Column(s.delband, x, w));
    }
    SumZero(Pending(s.refunds));
    forall x: Name ensures Agrees(s, x) { }
  }

  /** A stake change, for any payer, keeps rows nonnegative and the refunds nonempty. */
  lemma ChangeBwKeepsRows(s: State, payer: Name, receiver: Name, net: int, cpu: int, transfer: bool, now: nat)
    requires Rows(s) && ChangeBw(s, payer, receiver, net, cpu, transfer, now).Some?
    ensures Rows(ChangeBw(s, payer, receiver, net, cpu, transfer, now).value)
  {
    hide Net, Rebook, Transfer;
    var from := if transfer then receiver else payer;
    RebookKeepsRows(s, from, receiver, net, cpu);
    var s1 := Rebook(s, from, receiver, net, cpu).value;
    NetLaw(if from in s1.refunds then Some(s1.refunds[from]) else None, net, cpu, now);
  }

  lemma ActionKeepsRows(s: State, a: Action)
    requires Rows(s)
    ensures Rows(Exec(s, a))
  {
    hide ChangeBw;
    match a
    case Delegating(p, r, n, c, t, now) =>
      if Delegate(s, p, r, n, c, t, now).Some? { ChangeBwKeepsRows(s, p, r, n, c, t, now); }
    case Undelegating(p, r, n, c, act, now) =>
      if Undelegate(s, p, r, n, c, act, now).Some? { ChangeBwKeepsRows(s, p, r, -n, -c, false, now); }
    case Refunding(o, now) =>
  }

  lemma ActionKeepsAgreement(s: State, a: Action, x: Name)
    requires Agrees(s, x)
    ensures Agrees(Exec(s, a), x)
  {
    hide ChangeBw, SumOf;
    match a
    case Delegating(p, r, n, c, t, now) =>
      if Delegate(s, p, r, n, c, t, now).Some? { ChangeBwAgrees(s, p, r, n, c, t, now, x); }
    case Undelegating(p, r, n, c, act, now) =>
      if Undelegate(s, p, r, n, c, act, now).Some? { ChangeBwAgrees(s, p, r, -n, -c, false, now, x); }
    case Refunding(o, now) =>
  }

  /** In every run, whoever pays, both sides of every delegation agree: what an account receives is what is
      delegated to it, and what it votes with is what it delegates. */
  lemma {:induction false} RunKeepsAgreement(s: State, run: seq<Action>, x: Name)
    requires Agrees(s, x)
    ensures Agrees(Run(s, run), x)
    decreases |run|
  {
    hide Agrees, Exec;
    if run != [] {
      RunKeepsAgreement(s, run[..|run| - 1], x);
      ActionKeepsAgreement(Run(s, run[..|run| - 1]), run[|run| - 1], x);
    }
  }

  lemma {:induction false} RunKeepsRows(s: State, run: seq<Action>)
    requires Rows(s)
    ensures Rows(Run(s, run))
    decreases |run|
  {
    hide Rows, Exec;
    if run != [] {
      RunKeepsRows(s, run[..|run| - 1]);
      ActionKeepsRows(Run(s, run[..|run| - 1]), run[|run| - 1]);
    }
  }

  /** An accepted stake change of eosio.stake. */
  predicate Unbacked(s: State, a: Action) { !NotPaidByStake(a) && Attempt(s, a).Some? }

  /** An action keeps the invariant if and only if it is not such a change. */
  lemma ActionKeepsInv(s: State, a: Action)
    requires Inv(s)
    ensures Inv(Exec(s, a)) <==> !Unbacked(s, a)
  {
    hide ChangeBw, ClaimRefund, Rows, Backed, Agrees;
    ActionKeepsRows(s, a);
    forall x: Name ensures Agrees(Exec(s, a), x) { ActionKeepsAgreement(s, a, x); }
    match a
    case Delegating(p, r, n, c, t, now) =>
      if Delegate(s, p, r, n, c, t, now).Some? { ChangeBwBacks(s, p, r, n, c, t, now); }
    case Undelegating(p, r, n, c, act, now) =>
      if Undelegate(s, p, r, n, c, act, now).Some? { ChangeBwBacks(s, p, r, -n, -c, false, now); }
    case Refunding(o, now) => RefundIsPaid(s, o, now);
  }

  ghost predicate InvAt(s: State, run: seq<Action>, k: nat)
    requires k <= |run|
  {
    Inv(Run(s, run[..k]))
  }

  predicate UnbackedAt(s: State, run: seq<Action>, k: nat)
    requires k < |run|
  {
    Unbacked(Run(s, run[..k]), run[k])
  }

  ghost predicate InvThroughout(s: State, run: seq<Action>) { forall k :: 0 <= k <= |run| ==> InvAt(s, run, k) }

  predicate NoneUnbacked(s: State, run: seq<Action>) { forall k :: 0 <= k < |run| ==> !UnbackedAt(s, run, k) }

  lemma InvUpToLast(s: State, run: seq<Action>)
    requires run != []
    ensures InvThroughout(s, run) <==> InvThroughout(s, run[..|run| - 1]) && InvAt(s, run, |run|)
    ensures InvThroughout(s, run[..|run| - 1]) ==> InvAt(s, run, |run| - 1)
  {
    hide Inv, Run;
    var m := |run| - 1;
    forall k: nat | k <= m ensures InvAt(s, run, k) <==> InvAt(s, run[..m], k) { assert run[..m][..k] == run[..k]; }
    if InvThroughout(s, run) {
      forall k: nat | k <= m ensures InvAt(s, run[..m], k) { assert InvAt(s, run, k); }
    }
  }

  lemma UnbackedUpToLast(s: State, run: seq<Action>)
    requires run != []
    ensures NoneUnbacked(s, run) <==> NoneUnbacked(s, run[..|run| - 1]) && !UnbackedAt(s, run, |run| - 1)
  {
    hide Unbacked, Run;
    var m := |run| - 1;
    forall k: nat | k < m ensures UnbackedAt(s, run, k) <==> UnbackedAt(s, run[..m], k) {
      assert run[..m][..k] == run[..k];
    }
    if NoneUnbacked(s, run) {
      forall k: nat | k < m ensures !UnbackedAt(s, run[..m], k) { assert !UnbackedAt(s, run, k); }
    }
  }

  /** The invariant holds in every state along a run, eosio.stake holding what is delegated plus what waits
      to be refunded, if and only if no stake change of eosio.stake itself is accepted in it. */
  lemma {:induction false} RunKeepsInv(s: State, run: seq<Action>)
    requires Inv(s)
    ensures InvThroughout(s, run) <==> NoneUnbacked(s, run)
    decreases |run|
  {
    hide Inv, UnbackedAt, Run;
    if run == [] {
      NoRun(s);
      assert run[..0] == [];
    } else {
      hide InvThroughout, NoneUnbacked, InvAt;
      RunKeepsInv(s, run[..|run| - 1]);
      InvUpToLast(s, run);
      UnbackedUpToLast(s, run);
      LastStep(s, run);
    }
  }

  lemma NoRun(s: State)
    ensures Run(s, []) == s
  {
  }

  lemma LastStep(s: State, run: seq<Action>)
    requires Inv(s) && run != []
    ensures InvAt(s, run, |run| - 1) ==> (InvAt(s, run, |run|) <==> !UnbackedAt(s, run, |run| - 1))
  {
    hide Inv, Exec, Unbacked;
    var m := |run| - 1;
    assert run[..|run|] == run && Run(s, run) == Exec(Run(s, run[..m]), run[m]);
    if Inv(Run(s, run[..m])) {
      ActionKeepsInv(Run(s, run[..m]), run[m]);
    }
  }

  /** One unit staked by eosio.stake for account 2, before anybody has staked anything, is backed by nothing. */
  lemma StakeStakes()
    ensures var s := State(map[], map[], map[], map[], map[]);
            Inv(s) && Unbacked(s, Delegating(STAKE, 2, 1, 0, false, 0))
              && !Inv(Exec(s, Delegating(STAKE, 2, 1, 0, false, 0)))
  {
    hide Inv, Exec;
    var s := State(map[], map[], map[], map[], map[]);
    GenesisKeepsInv(map[]);
    ActionKeepsInv(s, Delegating(STAKE, 2, 1, 0, false, 0));
  }

  // ---------------------------------------------------------------- the refund delay

  /** The clock does not run backwards. */
  predicate Timed(run: seq<Action>) { forall i, j :: 0 <= i <= j < |run| ==> run[i].now <= run[j].now }

  /** A refund row keeps its time, unless its owner takes stake back: then it takes the time of that action. */
  lemma RowTime(s: State, a: Action, o: Name)
    requires o in Exec(s, a).refunds
    ensures var t := Exec(s, a).refunds[o].time;
            if a.Undelegating? && a.payer == o && o != STAKE && Attempt(s, a).Some? then t == a.now
            else o in s.refunds && t == s.refunds[o].time
  {
    hide Rebook, Transfer, NetSide;
    if a.Delegating? {
      var from := if a.transfer then a.receiver else a.payer;
      if Rebook(s, from, a.receiver, a.net, a.cpu).Some? { RebookMovesNothing(s, from, a.receiver, a.net, a.cpu); }
    } else if a.Undelegating? {
      if Rebook(s, a.payer, a.receiver, -a.net, -a.cpu).Some? {
        RebookMovesNothing(s, a.payer, a.receiver, -a.net, -a.cpu);
      }
    }
  }

  /** Right after a successful undelegation the row carries the time of that action. */
  lemma UndelegationStamps(s: State, a: Action)
    requires a.Undelegating? && Attempt(s, a).Some? && a.payer != STAKE && Rows(s)
    ensures a.payer in Exec(s, a).refunds && Exec(s, a).refunds[a.payer].time == a.now
  {
    hide SumOf, Rebook;
    RebookMovesNothing(s, a.payer, a.receiver, -a.net, -a.cpu);
    GuardMeansSameSign(-a.net, -a.cpu);
  }

  lemma {:induction false} RowTimeOverRun(s: State, run: seq<Action>, i: nat, m: nat, o: Name)
    requires Timed(run) && i < m <= |run| && run[i].Undelegating? && run[i].payer == o != STAKE
    requires Rows(Run(s, run[..i])) && Attempt(Run(s, run[..i]), run[i]).Some?
    requires o in Run(s, run[..m]).refunds
    ensures Run(s, run[..m]).refunds[o].time >= run[i].now
    decreases m
  {
    hide Exec, Attempt, Rows;
    var before := Run(s, run[..m - 1]);
    assert run[..m][..m - 1] == run[..m - 1];
    assert Run(s, run[..m]) == Exec(before, run[m - 1]);
    if m == i + 1 {
      UndelegationStamps(before, run[i]);
    } else {
      RowTime(before, run[m - 1], o);
      if o in before.refunds { RowTimeOverRun(s, run, i, m - 1, o); }
    }
  }

  /** Every token a refund pays out was undelegated at least the refund delay before: no undelegation
      by that account, however many share the row, is more recent. */
  lemma RefundDelay(s: State, run: seq<Action>, i: nat, j: nat)
    requires Rows(s) && Timed(run) && i < j < |run|
    requires run[i].Undelegating? && Attempt(Run(s, run[..i]), run[i]).Some?
    requires run[j].Refunding? && Attempt(Run(s, run[..j]), run[j]).Some? && run[j].owner == run[i].payer
    ensures run[i].now + REFUND_DELAY <= run[j].now
  {
    hide Run, Undelegate, Delegate, Rows;
    RunKeepsRows(s, run[..i]);
    RowTimeOverRun(s, run, i, j, run[i].payer);
  }

  // ---------------------------------------------------------------- the refund amount

  function Owed(r: map<Name, Refund>, o: Name): int { if o in r then r[o].Total() else 0 }

  /** What an action takes back from the delegations of `o`. */
  function TakenBack(s: State, a: Action, o: Name): int {
    if a.Undelegating? && a.payer == o && Attempt(s, a).Some? then a.net + a.cpu else 0
  }

  lemma RowAmount(s: State, a: Action, o: Name)
    requires Rows(s)
    ensures Owed(Exec(s, a).refunds, o) <= Owed(s.refunds, o) + TakenBack(s, a, o)
  {
    hide Rebook, Transfer, Net, SameSignGuard;
    if a.Delegating? && Attempt(s, a).Some? {
      var from := if a.transfer then a.receiver else a.payer;
      RebookMovesNothing(s, from, a.receiver, a.net, a.cpu);
      NetGives(if from in s.refunds then Some(s.refunds[from]) else None, a.net, a.cpu, a.now);
    } else if a.Undelegating? && Attempt(s, a).Some? {
      RebookMovesNothing(s, a.payer, a.receiver, -a.net, -a.cpu);
      NetGives(if a.payer in s.refunds then Some(s.refunds[a.payer]) else None, -a.net, -a.cpu, a.now);
    }
  }

  /** Stake added shrinks the pending refund, if anything; stake taken back joins it whole. */
  lemma NetGives(row: Option<Refund>, net: int, cpu: int, now: nat)
    requires row.Some? ==> row.value.net >= 0 && row.value.cpu >= 0
    ensures var n := Net(row, net, cpu, now);
            var before := if row.Some? then row.value.Total() else 0;
            var after := if n.row.Some? then n.row.value.Total() else 0;
            && (net >= 0 && cpu >= 0 ==> after <= before)
            && (net <= 0 && cpu <= 0 ==> after == before - net - cpu)
  {
  }

  /** What `o` took back since its refund row was last empty; a row there at the start counts in full. */
  function SinceEmpty(s: State, run: seq<Action>, o: Name): int
    decreases |run|
  {
    if o !in Run(s, run).refunds then 0
    else if run == [] then s.refunds[o].Total()
    else
      var most := run[..|run| - 1];
      SinceEmpty(s, most, o) + TakenBack(Run(s, most), run[|run| - 1], o)
  }

  lemma {:induction false} OwedIsTakenBack(s: State, run: seq<Action>, o: Name)
    requires Rows(s)
    ensures Owed(Run(s, run).refunds, o) <= SinceEmpty(s, run, o)
    decreases |run|
  {
    hide Rows, Exec, TakenBack;
    if run != [] {
      var most := run[..|run| - 1];
      RunKeepsRows(s, most);
      OwedIsTakenBack(s, most, o);
      RowAmount(Run(s, most), run[|run| - 1], o);
    }
  }

  /** A refund pays at most what its owner took back since the row was last empty. */
  lemma RefundAmount(s: State, run: seq<Action>, o: Name, now: nat)
    requires Rows(s) && ClaimRefund(Run(s, run), o, now).Some?
    ensures var before, after := Run(s, run), ClaimRefund(Run(s, run), o, now).value;
            0 < Liquid(after.liquid, o) - Liquid(before.liquid, o) <= SinceEmpty(s, run, o)
  {
    hide Run, SinceEmpty;
    OwedIsTakenBack(s, run, o);
  }
}
