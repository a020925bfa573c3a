/** What each staking action demands and does, row by row: who pays, whose rows change, and when a refund falls due. */
module StakingLaws {
  import opened Sums
  import opened Staking
  import opened StakingRuns

  // ---------------------------------------------------------------- who pays

  function More(a: int, b: int): int { if a > b then a - b else 0 }

  /** What waits to be refunded to `x`. */
  function Waiting(s: State, x: Name): Bandwidth {
    if x in s.refunds then Bandwidth(s.refunds[x].net, s.refunds[x].cpu) else Bandwidth(0, 0)
  }

  /** Whose stake it becomes. */
  function Beneficiary(payer: Name, receiver: Name, transfer: bool): Name { if transfer then receiver else payer }

  /** What a stake change costs its payer. Stake added to oneself is served first from what waits to be refunded, for
      net and for cpu separately; stake taken back costs nothing; all other stake costs what it is. */
  function Cost(s: State, payer: Name, receiver: Name, net: int, cpu: int, transfer: bool): int {
    var w := Waiting(s, payer);
    if payer == STAKE || net + cpu < 0 then 0
    else if !transfer && payer == receiver then More(net, w.net) + More(cpu, w.cpu)
    else net + cpu
  }

  /** The cost goes from the payer to eosio.stake, and no other account gains or loses a token. */
  lemma {:induction false} PayerPays(
    s: State, payer: Name, receiver: Name, net: int, cpu: int, transfer: bool, now: nat, y: Name)
    requires Rows(s) && ChangeBw(s, payer, receiver, net, cpu, transfer, now).Some?
    ensures var r := ChangeBw(s, payer, receiver, net, cpu, transfer, now).value;
            var cost := Cost(s, payer, receiver, net, cpu, transfer);
            Liquid(r.liquid, y) ==
            Liquid(s.liquid, y) - (if y == payer then cost else 0) + (if y == STAKE then cost else 0)
    ensures var cost := Cost(s, payer, receiver, net, cpu, transfer);
            cost >= 0 && (cost > 0 ==> Liquid(s.liquid, payer) >= cost)
  {
    hide Rebook, Net, SameSignGuard;
    var from := Beneficiary(payer, receiver, transfer);
    GuardMeansSameSign(net, cpu);
    RebookMovesNothing(s, from, receiver, net, cpu);
    NetPays(if from in s.refunds then Some(s.refunds[from]) else None, net, cpu, now);
  }

  // ---------------------------------------------------------------- which rows change

  /** The delegation and the receiver's totals move by exactly the change, the stake that is voted with by both
      amounts, and no other delegation, total or stake moves. */
  lemma {:induction false} RowsMove(
    s: State, payer: Name, receiver: Name, net: int, cpu: int, transfer: bool, now: nat, x: Name, y: Name)
    requires ChangeBw(s, payer, receiver, net, cpu, transfer, now).Some?
    ensures var r := ChangeBw(s, payer, receiver, net, cpu, transfer, now).value;
            var from := Beneficiary(payer, receiver, transfer);
            var b, t := Delegated(s.delband, (x, y)), TotalsOf(s.totals, y);
            && Delegated(r.delband, (x, y)) ==
               (if x == from && y == receiver then Bandwidth(b.net + net, b.cpu + cpu) else b)
            && TotalsOf(r.totals, y) == (if y == receiver then Resources(t.net + net, t.cpu + cpu, t.ram) else t)
            && StakedBy(r.staked, y) == StakedBy(s.staked, y) + if y == from then net + cpu else 0
  {
    hide Settle, Rebook;
    var from := Beneficiary(payer, receiver, transfer);
    RebookMoves(s, from, receiver, net, cpu, x, y);
    var s1 := Rebook(s, from, receiver, net, cpu).value;
    if payer != STAKE {
      SettleKeepsBookings(s1, payer, from, (!transfer && from == receiver) || net + cpu < 0, net, cpu, now);
    }
  }

  lemma {:induction false} RebookMoves(
    s: State, from: Name, receiver: Name, net: int, cpu: int, x: Name, y: Name)
    requires Rebook(s, from, receiver, net, cpu).Some?
    ensures var r := Rebook(s, from, receiver, net, cpu).value;
            var b, t := Delegated(s.delband, (x, y)), TotalsOf(s.totals, y);
            && Delegated(r.delband, (x, y)) ==
               (if x == from && y == receiver then Bandwidth(b.net + net, b.cpu + cpu) else b)
            && TotalsOf(r.totals, y) == (if y == receiver then Resources(t.net + net, t.cpu + cpu, t.ram) else t)
            && StakedBy(r.staked, y) == StakedBy(s.staked, y) + if y == from then net + cpu else 0
  {
  }

  lemma SettleKeepsBookings(s: State, payer: Name, from: Name, netting: bool, net: int, cpu: int, now: nat)
    requires Settle(s, payer, from, netting, net, cpu, now).Some?
    ensures var r := Settle(s, payer, from, netting, net, cpu, now).value;
            r.delband == s.delband && r.totals == s.totals && r.staked == s.staked
  {
    hide Net, Transfer, PutRefund;
  }

  /** What is left of a pending refund after a stake change that is netted against it. */
  function Left(w: Bandwidth, net: int, cpu: int): Bandwidth {
    if net + cpu < 0 then Bandwidth(w.net - net, w.cpu - cpu) else Bandwidth(More(w.net, net), More(w.cpu, cpu))
  }

  function Owing(row: Option<Refund>): Bandwidth {
    if row.Some? then Bandwidth(row.value.net, row.value.cpu) else Bandwidth(0, 0)
  }

  lemma {:induction false} NetPays(row: Option<Refund>, net: int, cpu: int, now: nat)
    requires row.Some? ==> row.value.net >= 0 && row.value.cpu >= 0
    requires (net >= 0 && cpu >= 0) || (net <= 0 && cpu <= 0)
    ensures var n, w := Net(row, net, cpu, now), Owing(row);
            n.net + n.cpu == if net + cpu < 0 then 0 else More(net, w.net) + More(cpu, w.cpu)
  {
    if row.Some? {
      SideMoves(row.value.net, net);
      SideMoves(row.value.cpu, cpu);
      hide NetSide, More;
    }
  }

  lemma SideMoves(pending: int, delta: int)
    requires pending >= 0
    ensures NetSide(pending, delta) == (More(pending, delta), More(delta, pending))
    ensures delta <= 0 ==> More(pending, delta) == pending - delta && More(delta, pending) == 0
  {
  }

  lemma {:induction false} NetLeaves(row: Option<Refund>, net: int, cpu: int, now: nat)
    requires row.Some? ==> row.value.net >= 0 && row.value.cpu >= 0
    requires (net >= 0 && cpu >= 0) || (net <= 0 && cpu <= 0)
    ensures var n, left := Net(row, net, cpu, now), Left(Owing(row), net, cpu);
            && (n.row.Some? <==> left.net > 0 || left.cpu > 0)
            && (n.row.Some? && net + cpu < 0 ==> n.row.value == Refund(now, left.net, left.cpu))
            && (n.row.Some? && net + cpu >= 0 ==>
                  row.Some? && n.row.value == Refund(row.value.time, left.net, left.cpu))
  {
    if row.Some? {
      SideMoves(row.value.net, net);
      SideMoves(row.value.cpu, cpu);
      hide NetSide;
    }
  }

  /** The refund of the account whose stake it is. Stake taken back joins it, and restarts the delay; stake that is
      added to oneself comes out of it, and does not; other stake leaves it alone. It is gone when nothing is left. */
  lemma {:induction false} RefundMoves(
    s: State, payer: Name, receiver: Name, net: int, cpu: int, transfer: bool, now: nat)
    requires Rows(s) && ChangeBw(s, payer, receiver, net, cpu, transfer, now).Some?
    requires transfer ==> net + cpu >= 0
    ensures var r := ChangeBw(s, payer, receiver, net, cpu, transfer, now).value;
            var w := Waiting(s, payer);
            && (forall y: Name :: y != payer ==> (y in r.refunds <==> y in s.refunds))
            && (forall y: Name :: y != payer && y in s.refunds ==> r.refunds[y] == s.refunds[y])
            && (payer == STAKE || (net + cpu >= 0 && (transfer || payer != receiver)) ==> r.refunds == s.refunds)
            && (payer != STAKE && net + cpu < 0 ==>
                  payer in r.refunds && r.refunds[payer] == Refund(now, w.net - net, w.cpu - cpu))
            && (payer != STAKE && net + cpu >= 0 && !transfer && payer == receiver ==>
                  && (payer in r.refunds <==> More(w.net, net) > 0 || More(w.cpu, cpu) > 0)
                  && (payer in r.refunds ==>
                        && payer in s.refunds
                        && r.refunds[payer] == Refund(s.refunds[payer].time, More(w.net, net), More(w.cpu, cpu))))
  {
    hide Rebook, Net, SameSignGuard, Transfer;
    var from := Beneficiary(payer, receiver, transfer);
    GuardMeansSameSign(net, cpu);
    RebookMovesNothing(s, from, receiver, net, cpu);
    NetLeaves(if from in s.refunds then Some(s.refunds[from]) else None, net, cpu, now);
  }

  // ---------------------------------------------------------------- when it succeeds

  /** Delegating succeeds if and only if both amounts are nonnegative and not both zero, the transfer flag is not set
      for oneself, and the payer has what it costs. */
  lemma {:induction false} DelegateSucceeds(
    s: State, payer: Name, receiver: Name, net: int, cpu: int, transfer: bool, now: nat)
    requires Rows(s) && Agrees(s, receiver) && Agrees(s, Beneficiary(payer, receiver, transfer))
    ensures Delegate(s, payer, receiver, net, cpu, transfer, now).Some? <==>
            && net >= 0 && cpu >= 0 && net + cpu > 0 && !(transfer && payer == receiver)
            && var cost := Cost(s, payer, receiver, net, cpu, transfer); cost == 0 || Liquid(s.liquid, payer) >= cost
  {
    hide SumOf, Rebook, Net;
    GuardMeansSameSign(net, cpu);
    var from := Beneficiary(payer, receiver, transfer);
    if net >= 0 && cpu >= 0 {
      NetPays(if from in s.refunds then Some(s.refunds[from]) else None, net, cpu, now);
    }
    RebookAborts(s, from, receiver, net, cpu);
    DelegatedNonNegative(s, from, receiver);
    if Rebook(s, from, receiver, net, cpu).Some? { RebookMovesNothing(s, from, receiver, net, cpu); }
  }

  lemma DelegatedNonNegative(s: State, x: Name, y: Name)
    requires Rows(s)
    ensures Delegated(s.delband, (x, y)).net >= 0 && Delegated(s.delband, (x, y)).cpu >= 0
  {
  }

  /** A refund pays its owner from eosio.stake, empties the owner's row, and touches nothing else. */
  lemma {:induction false} RefundPays(s: State, owner: Name, now: nat, y: Name)
    requires ClaimRefund(s, owner, now).Some?
    ensures var r := ClaimRefund(s, owner, now).value;
            var due := Waiting(s, owner).Total();
            && Liquid(r.liquid, y) ==
               Liquid(s.liquid, y) + (if y == owner then due else 0) - (if y == STAKE then due else 0)
            && owner !in r.refunds && (y != owner ==> Waiting(r, y) == Waiting(s, y))
            && r.delband == s.delband && r.totals == s.totals && r.staked == s.staked
  {
  }

  // ---------------------------------------------------------------- runs

  lemma {:induction false} TransferKeepsTokens(l: map<Name, int>, from: Name, to: Name, amount: int)
    requires Transfer(l, from, to, amount).Some?
    ensures Sum(Transfer(l, from, to, amount).value) == Sum(l)
  {
    hide Sum;
    var l' := l[from := Liquid(l, from) - amount];
    SumUpdate(l, from, Liquid(l, from) - amount);
    SumUpdate(l', to, Liquid(l, to) + amount);
  }

  lemma {:induction false} ChangeKeepsTokens(
    s: State, payer: Name, receiver: Name, net: int, cpu: int, transfer: bool, now: nat)
    requires ChangeBw(s, payer, receiver, net, cpu, transfer, now).Some?
    ensures Sum(ChangeBw(s, payer, receiver, net, cpu, transfer, now).value.liquid) == Sum(s.liquid)
  {
    hide Sum, Rebook, Net, Transfer;
    var from := if transfer then receiver else payer;
    RebookMovesNothing(s, from, receiver, net, cpu);
    if payer != STAKE {
      var s1 := Rebook(s, from, receiver, net, cpu).value;
      var row := if from in s1.refunds then Some(s1.refunds[from]) else None;
      var n := if (!transfer && from == receiver) || net + cpu < 0 then Net(row, net, cpu, now)
          else Netted(row, net, cpu);
      if n.net + n.cpu > 0 { TransferKeepsTokens(s.liquid, payer, STAKE, n.net + n.cpu); }
    }
  }

  lemma {:induction false} ActionKeepsTokens(s: State, a: Action)
    ensures Sum(Exec(s, a).liquid) == Sum(s.liquid)
  {
    hide Sum, ChangeBw, Transfer;
    match a
    case Delegating(p, r, n, c, t, now) =>
      if Delegate(s, p, r, n, c, t, now).Some? { ChangeKeepsTokens(s, p, r, n, c, t, now); }
    case Undelegating(p, r, n, c, act, now) =>
      if Undelegate(s, p, r, n, c, act, now).Some? { ChangeKeepsTokens(s, p, r, -n, -c, false, now); }
    case Refunding(o, now) =>
      if ClaimRefund(s, o, now).Some? { TransferKeepsTokens(s.liquid, STAKE, o, s.refunds[o].Total()); }
  }

  /** In every run, whoever pays, no token is made and none is lost. */
  lemma {:induction false} RunKeepsTokens(s: State, run: seq<Action>)
    ensures Sum(Run(s, run).liquid) == Sum(s.liquid)
    decreases |run|
  {
    hide Sum, Exec;
    if run != [] {
      RunKeepsTokens(s, run[..|run| - 1]);
      ActionKeepsTokens(Run(s, run[..|run| - 1]), run[|run| - 1]);
    }
  }
}
