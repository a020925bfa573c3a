/** Staking for bandwidth: delegations, per-receiver totals, pending refunds, voting stakes, and the
    core tokens that back them in the account eosio.stake. */
module Staking {
  import opened Sums

  type Name = nat

  const REFUND_DELAY := 3 * 24 * 3600
  const STAKE: Name := 1          // the account eosio.stake

  datatype Bandwidth = Bandwidth(net: int, cpu: int) {
    function Total(): int { net + cpu }
  }
  datatype Resources = Resources(net: int, cpu: int, ram: int)
  datatype Refund = Refund(time: nat, net: int, cpu: int) {
    function Total(): int { net + cpu }
  }

  type Delegations = map<(Name, Name), Bandwidth>   // (from, to)

  datatype State = State(
    delband: Delegations,
    totals: map<Name, Resources>,
    refunds: map<Name, Refund>,
    staked: map<Name, int>,
    liquid: map<Name, int>)

  // ---------------------------------------------------------------- rows

  function Delegated(d: Delegations, k: (Name, Name)): Bandwidth { if k in d then d[k] else Bandwidth(0, 0) }
  function TotalsOf(t: map<Name, Resources>, x: Name): Resources { if x in t then t[x] else Resources(0, 0, 0) }
  function StakedBy(v: map<Name, int>, x: Name): int { if x in v then v[x] else 0 }
  function Liquid(l: map<Name, int>, x: Name): int { if x in l then l[x] else 0 }

  /** Rows that reach zero are erased. */
  function PutDelegated(d: Delegations, k: (Name, Name), b: Bandwidth): Delegations {
    if b == Bandwidth(0, 0) then d - {k} else d[k := b]
  }

  function PutTotals(t: map<Name, Resources>, x: Name, r: Resources): map<Name, Resources> {
    if r == Resources(0, 0, 0) then t - {x} else t[x := r]
  }

  function PutRefund(r: map<Name, Refund>, x: Name, row: Option<Refund>): map<Name, Refund> {
    if row.Some? then r[x := row.value] else r - {x}
  }

  /** A token transfer: positive, between two accounts, and covered. */
  function Transfer(l: map<Name, int>, from: Name, to: Name, amount: int): Option<map<Name, int>> {
    if amount <= 0 || from == to || Liquid(l, from) < amount then None
    else Some(l[from := Liquid(l, from) - amount][to := Liquid(l, to) + amount])
  }

  // ---------------------------------------------------------------- changebw

  function Abs(a: int): int { if a < 0 then -a else a }
  function Max(a: int, b: int): int { if a < b then b else a }

  predicate SameSignGuard(net: int, cpu: int) { Abs(net + cpu) >= Max(Abs(net), Abs(cpu)) }

  /** The guard on the deltas says exactly that they do not have opposite signs. */
  lemma GuardMeansSameSign(net: int, cpu: int)
    ensures SameSignGuard(net, cpu) <==> (net >= 0 && cpu >= 0) || (net <= 0 && cpu <= 0)
  {
  }

  datatype Netted = Netted(row: Option<Refund>, net: int, cpu: int)

  /** What one stake change does to one side of a pending refund: the side after, and what is still to
      be paid for. */
  function NetSide(pending: int, delta: int): (int, int) {
    if pending - delta < 0 then (0, delta - pending) else (pending - delta, 0)
  }

  /** Nets a stake change against the pending refund: stake taken back joins it, stake added to
      oneself is first served from it. */
  function Net(row: Option<Refund>, net: int, cpu: int, now: nat): Netted {
    match row
    case Some(r) =>
      var (n, payNet) := NetSide(r.net, net);
      var (c, payCpu) := NetSide(r.cpu, cpu);
      var time := if net < 0 || cpu < 0 then now else r.time;
      Netted(if n == 0 && c == 0 then None else Some(Refund(time, n, c)), payNet, payCpu)
    case None =>
      if net < 0 || cpu < 0 then
        Netted(Some(Refund(now, if net < 0 then -net else 0, if cpu < 0 then -cpu else 0)),
               if net < 0 then 0 else net, if cpu < 0 then 0 else cpu)
      else Netted(None, net, cpu)
  }

  /** The tables after the delegation rows themselves have changed, before money moves. `from` is whose
      stake it becomes. */
  function Rebook(s: State, from: Name, receiver: Name, net: int, cpu: int): Option<State> {
    var b := Delegated(s.delband, (from, receiver));
    var b' := Bandwidth(b.net + net, b.cpu + cpu);
    var t := TotalsOf(s.totals, receiver);
    var t' := Resources(t.net + net, t.cpu + cpu, t.ram);
    var v := StakedBy(s.staked, from) + net + cpu;
    if b'.net < 0 || b'.cpu < 0 || t'.net < 0 || t'.cpu < 0 || v < 0 then None else
      Some(s.(delband := PutDelegated(s.delband, (from, receiver), b'),
              totals := PutTotals(s.totals, receiver, t'),
              staked := s.staked[from := v]))
  }

  /** Refund and payment. `payer` provides the tokens. */
  function Settle(s: State, payer: Name, from: Name, netting: bool, net: int, cpu: int, now: nat): Option<State> {
    var row := if from in s.refunds then Some(s.refunds[from]) else None;
    var n := if netting then Net(row, net, cpu, now) else Netted(row, net, cpu);
    var s' := s.(refunds := PutRefund(s.refunds, from, n.row));
    if n.net + n.cpu <= 0 then Some(s') else
      var l := Transfer(s.liquid, payer, STAKE, n.net + n.cpu);
      if l.None? then None else Some(s'.(liquid := l.value))
  }

  function ChangeBw(
    s: State, payer: Name, receiver: Name, net: int, cpu: int, transfer: bool, now: nat): Option<State>
  {
    var from := if transfer then receiver else payer;
    if (net == 0 && cpu == 0) || !SameSignGuard(net, cpu) then None else
      var s1 := Rebook(s, from, receiver, net, cpu);
      if s1.None? || payer == STAKE then s1 else
        var netting := (!transfer && from == receiver) || net + cpu < 0;
        Settle(s1.value, payer, from, netting, net, cpu, now)
  }

  // ---------------------------------------------------------------- actions

  function Delegate(
    s: State, payer: Name, receiver: Name, net: int, cpu: int, transfer: bool, now: nat): Option<State>
  {
    if net < 0 || cpu < 0 || net + cpu <= 0 || (transfer && payer == receiver) then None
    else ChangeBw(s, payer, receiver, net, cpu, transfer, now)
  }

  /** `activated` says that enough stake takes part in voting. */
  function Undelegate(
    s: State, payer: Name, receiver: Name, net: int, cpu: int, activated: bool, now: nat): Option<State>
  {
    if net < 0 || cpu < 0 || net + cpu <= 0 || !activated then None
    else ChangeBw(s, payer, receiver, -net, -cpu, false, now)
  }

  function ClaimRefund(s: State, owner: Name, now: nat): Option<State> {
    if owner !in s.refunds || now < s.refunds[owner].time + REFUND_DELAY then None else
      var l := Transfer(s.liquid, STAKE, owner, s.refunds[owner].Total());
      if l.None? then None else Some(s.(refunds := s.refunds - {owner}, liquid := l.value))
  }

  // ---------------------------------------------------------------- what the tables must agree on

  /** The columns that are summed over the delegation rows of one account: what it receives for net and
      for cpu, and what it delegates; and the column of everything delegated. */
  datatype Which = NetIn | CpuIn | Out | All

  function Cell(b: Bandwidth, k: (Name, Name), x: Name, w: Which): int {
    match w
    case NetIn => if k.1 == x then b.net else 0
    case CpuIn => if k.1 == x then b.cpu else 0
    case Out => if k.0 == x then b.Total() else 0
    case All => b.Total()
  }

  function Column(d: Delegations, x: Name, w: Which): map<(Name, Name), int> {
    map k | k in d :: Cell(d[k], k, x, w)
  }

  ghost function SumOf(d: Delegations, x: Name, w: Which): int { Sum(Column(d, x, w)) }

  function Pending(r: map<Name, Refund>): map<Name, int> { map x | x in r :: r[x].Total() }

  ghost predicate Rows(s: State) {
    && (forall k <- s.delband :: s.delband[k].net >= 0 && s.delband[k].cpu >= 0)
    && (forall x <- s.refunds :: s.refunds[x].net >= 0 && s.refunds[x].cpu >= 0 && s.refunds[x].Total() > 0)
  }

  /** Both sides of account `x`: what it receives is what was delegated to it, and what it votes with is
      what it delegates. */
  ghost predicate Agrees(s: State, x: Name) {
    && TotalsOf(s.totals, x).net == SumOf(s.delband, x, NetIn)
    && TotalsOf(s.totals, x).cpu == SumOf(s.delband, x, CpuIn)
    && StakedBy(s.staked, x) == SumOf(s.delband, x, Out)
  }

  /** eosio.stake holds exactly what is delegated plus what waits to be refunded. */
  ghost predicate Backed(s: State) {
    Liquid(s.liquid, STAKE) == SumOf(s.delband, STAKE, All) + Sum(Pending(s.refunds))
  }

  ghost predicate Inv(s: State) { Rows(s) && (forall x: Name :: Agrees(s, x)) && Backed(s) }

  // ---------------------------------------------------------------- sums

  lemma PutColumn(d: Delegations, k: (Name, Name), b: Bandwidth, x: Name, w: Which)
    ensures SumOf(PutDelegated(d, k, b), x, w) == SumOf(d, x, w) - Cell(Delegated(d, k), k, x, w) + Cell(b, k, x, w)
  {
    hide Sum;
    var m := Column(d, x, w);
    if b == Bandwidth(0, 0) {
      assert Column(d - {k}, x, w) == m - {k};
      if k in d { SumRemove(m, k); } else { assert m - {k} == m; }
    } else {
      SumUpdate(m, k, Cell(b, k, x, w));
      assert Column(d[k := b], x, w) == m[k := Cell(b, k, x, w)];
    }
  }

  lemma PutPending(r: map<Name, Refund>, x: Name, row: Option<Refund>)
    ensures Sum(Pending(PutRefund(r, x, row))) ==
            Sum(Pending(r)) - (if x in r then r[x].Total() else 0) + (if row.Some? then row.value.Total() else 0)
  {
    hide Sum;
    if row.Some? {
      SumUpdate(Pending(r), x, row.value.Total());
      assert Pending(r[x := row.value]) == Pending(r)[x := row.value.Total()];
    } else {
      assert Pending(r - {x}) == Pending(r) - {x};
      if x in r { SumRemove(Pending(r), x); } else { assert Pending(r) - {x} == Pending(r); }
    }
  }

  // ---------------------------------------------------------------- rebooking

  /** The delegation rows, the receiver's totals and the voting stake move together. */
  lemma RebookAgrees(s: State, from: Name, receiver: Name, net: int, cpu: int, x: Name)
    requires Agrees(s, x) && Rebook(s, from, receiver, net, cpu).Some?
    ensures Agrees(Rebook(s, from, receiver, net, cpu).value, x)
  {
    hide SumOf, PutDelegated, Delegated;
    var k := (from, receiver);
    var b := Delegated(s.delband, k);
    var b' := Bandwidth(b.net + net, b.cpu + cpu);
    PutColumn(s.delband, k, b', x, NetIn);
    PutColumn(s.delband, k, b', x, CpuIn);
    PutColumn(s.delband, k, b', x, Out);
  }

  lemma RebookTotal(s: State, from: Name, receiver: Name, net: int, cpu: int)
    requires Rebook(s, from, receiver, net, cpu).Some?
    ensures SumOf(Rebook(s, from, receiver, net, cpu).value.delband, STAKE, All) == SumOf(s.delband, STAKE, All)
            + net + cpu
  {
    hide SumOf, PutDelegated, Delegated;
    var b := Delegated(s.delband, (from, receiver));
    PutColumn(s.delband, (from, receiver), Bandwidth(b.net + net, b.cpu + cpu), STAKE, All);
  }

  /** One row is never more than the totals it is part of, so only the row itself can run short: the
      checks on the totals and on the voting stake never fail on their own. */
  lemma RebookAborts(s: State, from: Name, receiver: Name, net: int, cpu: int)
    requires Rows(s) && Agrees(s, from) && Agrees(s, receiver)
    ensures Rebook(s, from, receiver, net, cpu).Some? <==>
            var b := Delegated(s.delband, (from, receiver)); b.net + net >= 0 && b.cpu + cpu >= 0
  {
    var k := (from, receiver);
    RowsNonNegative(s, receiver, NetIn, k);
    RowsNonNegative(s, receiver, CpuIn, k);
    RowsNonNegative(s, from, Out, k);
    hide SumOf;
  }

  lemma RowsNonNegative(s: State, x: Name, w: Which, k: (Name, Name))
    requires Rows(s)
    ensures 0 <= Cell(Delegated(s.delband, k), k, x, w) <= SumOf(s.delband, x, w)
  {
    hide Sum;
    SumNonNegative(Column(s.delband, x, w));
    if k in s.delband { assert Column(s.delband, x, w)[k] == Cell(s.delband[k], k, x, w); }
  }
}
