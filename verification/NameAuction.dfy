/** Auctions for short account names: bids, the daily closing of the highest one, and claims. */
module NameAuction {
  import opened Sums
  import opened AccountNames

  type Name = nat

  const KEY_LIMIT := 0x1_0000_0000_0000_0000
  const MAX_AMOUNT := 0x3FFF_FFFF_FFFF_FFFF
  const DAY := 24 * 3600 * 1000000
  const BLOCKS_PER_DAY := 2 * 24 * 3600
  const UPDATE_SLOTS := 120

  /** A negative `high` marks a closed auction that waits to be claimed. */
  datatype Bid = Bid(bidder: Name, high: int, time: nat)

  /** `names` is the core balance of eosio.names, `claimed` what the auctions claimed so far paid, and
      `lastUpdate` and `lastClose` are the block slots of the last schedule update and the last closing. */
  datatype State = State(bids: map<Name, Bid>, names: int, claimed: int, lastUpdate: nat, lastClose: nat)

  const EMPTY := State(map[], 0, 0, 0, 0)

  /** A block as `onblock` sees it: its slot, the time, whether enough stake takes part in voting, and since
      when it does, zero standing for never. */
  datatype BlockInfo = BlockInfo(slot: nat, now: nat, activated: bool, since: nat)

  // ---------------------------------------------------------------- the bid index

  /** The secondary key: the bid, negated and read as an unsigned 64 bit number. */
  function Key(high: int): int { (-high) % KEY_LIMIT }

  predicate Before(b: map<Name, Bid>, m: Name, n: Name)
    requires m in b && n in b
  {
    Key(b[m].high) < Key(b[n].high) || (Key(b[m].high) == Key(b[n].high) && m <= n)
  }

  ghost predicate IsFirst(b: map<Name, Bid>, n: Name) { n in b && forall m <- b :: Before(b, n, m) }

  // ---------------------------------------------------------------- actions

  /** `bidname`: `vacant` says that there is no such account yet and that the bid is in the core token, `funds` is what
      the bidder can spend. */
  function PlaceBid(
    s: State, bidder: Name, name: Name, amount: int, vacant: bool, funds: int, now: nat): Option<State>
  {
    if !Biddable(CharsOf(name)) || !vacant || amount <= 0 || amount > MAX_AMOUNT || funds < amount then None
    else if name !in s.bids then
      Some(s.(bids := s.bids[name := Bid(bidder, amount, now)], names := s.names + amount))
    else
      var b := s.bids[name];
      if b.high <= 0 || amount - b.high <= b.high / 10 || b.bidder == bidder || s.names + amount < b.high then None
      else Some(s.(bids := s.bids[name := Bid(bidder, amount, now)], names := s.names + amount - b.high))
  }

  /** The schedule is due for an update: once a minute. */
  predicate UpdateIsDue(s: State, b: BlockInfo) { b.activated && b.slot - s.lastUpdate > UPDATE_SLOTS }

  /** The first row `n` of the bid index is closed: with an update of the schedule, at most once a day, two
      weeks after activation at the earliest, and when nobody has raised the bid for a day. */
  predicate Closes(s: State, n: Name, b: BlockInfo)
    requires n in s.bids
  {
    && UpdateIsDue(s, b) && b.slot - s.lastClose > BLOCKS_PER_DAY
    && s.bids[n].high > 0 && s.bids[n].time < b.now - DAY
    && b.since > 0 && b.now - b.since > 14 * DAY
  }

  /** The part of `onblock` that closes auctions; `first` is the first row of the bid index. */
  function OnBlock(s: State, first: Option<Name>, b: BlockInfo): State
    requires first.Some? ==> first.value in s.bids
  {
    if first.Some? && Closes(s, first.value, b) then
      var n := first.value;
      s.(bids := s.bids[n := s.bids[n].(high := -s.bids[n].high)], lastUpdate := b.slot, lastClose := b.slot)
    else if UpdateIsDue(s, b) then s.(lastUpdate := b.slot)
    else s
  }

  /** The claim in `newaccount`. */
  function Claim(s: State, creator: Name, name: Name): Option<State> {
    if name !in s.bids || s.bids[name].bidder != creator || s.bids[name].high >= 0 then None
    else Some(s.(bids := s.bids - {name}, claimed := s.claimed - s.bids[name].high))
  }

  // ---------------------------------------------------------------- invariant

  function Abs(a: int): int { if a < 0 then -a else a }

  function Worth(b: map<Name, Bid>): map<Name, int> { map n | n in b :: Abs(b[n].high) }

  ghost predicate Inv(s: State) {
    && (forall n <- s.bids :: 0 < Abs(s.bids[n].high) <= MAX_AMOUNT)
    && (forall m, n :: m in s.bids && n in s.bids && s.bids[m].high < 0 && s.bids[n].high < 0 ==> m == n)
    && s.names == Sum(Worth(s.bids)) + s.claimed
    && s.claimed >= 0
  }

  lemma WorthUpdate(b: map<Name, Bid>, n: Name, v: Bid)
    ensures Sum(Worth(b[n := v])) == Sum(Worth(b)) - (if n in b then Abs(b[n].high) else 0) + Abs(v.high)
  {
    hide Sum;
    SumUpdate(Worth(b), n, Abs(v.high));
    assert Worth(b[n := v]) == Worth(b)[n := Abs(v.high)];
  }

  /** A bid is taken exactly when it is for a short name, covered and, on an open auction, raises somebody else's
      bid by more than a tenth: the refund of the bid it replaces never fails. */
  lemma PlaceBidKeepsInv(s: State, bidder: Name, name: Name, amount: int, vacant: bool, funds: int, now: nat)
    requires Inv(s)
    ensures var r := PlaceBid(s, bidder, name, amount, vacant, funds, now);
            && (r.Some? <==>
                  && Short(CharsOf(name)) && vacant && 0 < amount <= MAX_AMOUNT && funds >= amount
                  && (name in s.bids ==> s.bids[name].high > 0 && s.bids[name].bidder != bidder &&
                                         amount - s.bids[name].high > s.bids[name].high / 10))
            && (r.Some? ==> Inv(r.value) && forall n <- s.bids :: s.bids[n].high < 0 ==> r.value.bids[n] == s.bids[n])
  {
    hide Sum, Worth, Biddable, Short, CharsOf;
    BiddableMeans(CharsOf(name));
    WorthUpdate(s.bids, name, Bid(bidder, amount, now));
    if name in s.bids { RowIsCovered(s, name); }
  }

  lemma RowIsCovered(s: State, n: Name)
    requires Inv(s) && n in s.bids
    ensures Abs(s.bids[n].high) <= s.names
  {
    hide Sum;
    SumNonNegative(Worth(s.bids));
    assert Worth(s.bids)[n] == Abs(s.bids[n].high);
  }

  /** Closed auctions sort before open ones, and higher bids before lower ones. So the first row of the
      index is open only if no auction waits to be claimed, and then it is the highest bid. */
  lemma FirstIsHighest(s: State, n: Name)
    requires Inv(s) && IsFirst(s.bids, n) && s.bids[n].high > 0
    ensures forall m <- s.bids :: 0 < s.bids[m].high <= s.bids[n].high
  {
    hide Sum, Worth;
    forall m <- s.bids ensures 0 < s.bids[m].high <= s.bids[n].high {
      assert Before(s.bids, n, m);
      KeyOrder(s.bids[n].high, s.bids[m].high);
    }
  }

  lemma KeyOrder(a: int, b: int)
    requires 0 < a <= MAX_AMOUNT && 0 < Abs(b) <= MAX_AMOUNT && Key(a) <= Key(b)
    ensures 0 < b <= a
  {
    assert Key(a) == KEY_LIMIT - a;
    assert b < 0 ==> Key(b) == -b;
    assert b > 0 ==> Key(b) == KEY_LIMIT - b;
  }

  /** Closing picks the highest open bid, and only when no closed auction is left unclaimed. */
  lemma CloseKeepsInv(s: State, n: Name, b: BlockInfo)
    requires Inv(s) && IsFirst(s.bids, n)
    ensures Inv(OnBlock(s, Some(n), b))
    ensures Closes(s, n, b) ==> forall m <- s.bids :: 0 < s.bids[m].high <= s.bids[n].high
  {
    hide Sum, Worth;
    if Closes(s, n, b) {
      FirstIsHighest(s, n);
      WorthUpdate(s.bids, n, s.bids[n].(high := -s.bids[n].high));
    }
  }

  lemma ClaimKeepsInv(s: State, creator: Name, name: Name)
    requires Inv(s) && Claim(s, creator, name).Some?
    ensures Inv(Claim(s, creator, name).value)
    ensures forall n <- Claim(s, creator, name).value.bids :: s.bids[n].high > 0
  {
    hide Sum;
    SumRemove(Worth(s.bids), name);
    assert Worth(s.bids - {name}) == Worth(s.bids) - {name};
  }

  // ---------------------------------------------------------------- what each action does

  /** An accepted bid is stored with its own bidder, amount and time, and costs eosio.names what the bid it replaces
      is given back; no other row changes. */
  lemma BidIsStored(s: State, bidder: Name, name: Name, amount: int, vacant: bool, funds: int, now: nat)
    requires PlaceBid(s, bidder, name, amount, vacant, funds, now).Some?
    ensures var r := PlaceBid(s, bidder, name, amount, vacant, funds, now).value;
            && r.bids.Keys == s.bids.Keys + {name}
            && r.bids[name].bidder == bidder && r.bids[name].high == amount && r.bids[name].time == now
            && (forall n <- s.bids :: n != name ==> r.bids[n] == s.bids[n])
            && r.names == s.names + amount - (if name in s.bids then s.bids[name].high else 0)
            && r == s.(bids := r.bids, names := r.names)
  {
  }

  /** An auction closes if and only if the schedule is updated, more than 120 slots of half a second after the
      last time, more than a day of slots after the last closing, more than fourteen days after activation, and its
      first row is open and has not been raised for more than a day. Then its sign flips, and nothing else changes. */
  lemma ClosingLaw(s: State, n: Name, b: BlockInfo)
    requires n in s.bids
    ensures var r := OnBlock(s, Some(n), b);
            var due := b.activated && b.slot - s.lastUpdate > 120;
            var closes := && due && b.slot - s.lastClose > 172800 && b.since > 0 && b.now - b.since > 1209600000000
                          && s.bids[n].high > 0 && b.now - s.bids[n].time > 86400000000;
            && r.bids == (if closes then s.bids[n := s.bids[n].(high := 0 - s.bids[n].high)] else s.bids)
            && r.lastClose == (if closes then b.slot else s.lastClose)
            && r.lastUpdate == (if due then b.slot else s.lastUpdate)
            && r.names == s.names && r.claimed == s.claimed
  {
  }

  /** The highest bidder of a closed auction, and nobody else, claims it; the row is gone and its bid counts as
      claimed. */
  lemma ClaimLaw(s: State, creator: Name, name: Name)
    ensures var r := Claim(s, creator, name);
            && (r.Some? <==> name in s.bids && s.bids[name].bidder == creator && s.bids[name].high < 0)
            && (r.Some? ==>
                  && r.value.bids == s.bids - {name} && r.value.claimed == s.claimed + -s.bids[name].high
                  && r.value == s.(bids := r.value.bids, claimed := r.value.claimed))
  {
  }

  // ---------------------------------------------------------------- runs

  datatype Action =
    | Bidding(bidder: Name, name: Name, amount: int, vacant: bool, funds: int, now: nat)
    | Block(b: BlockInfo)
    | Claiming(bidder: Name, name: Name)

  ghost function FirstRow(b: map<Name, Bid>): (n: Option<Name>)
    ensures n.Some? ==> IsFirst(b, n.value)
  {
    if exists n :: IsFirst(b, n) then
      var n :| IsFirst(b, n);
      Some(n)
    else None
  }

  ghost function Exec(s: State, a: Action): State {
    match a
    case Bidding(bidder, name, amount, vacant, funds, now) =>
      var r := PlaceBid(s, bidder, name, amount, vacant, funds, now); if r.Some? then r.value else s
    case Block(b) => OnBlock(s, FirstRow(s.bids), b)
    case Claiming(creator, name) => var r := Claim(s, creator, name); if r.Some? then r.value else s
  }

  ghost function Run(s: State, run: seq<Action>): State
    decreases |run|
  {
    if run == [] then s else Exec(Run(s, run[..|run| - 1]), run[|run| - 1])
  }

  lemma ActionKeepsInv(s: State, a: Action)
    requires Inv(s)
    ensures Inv(Exec(s, a))
  {
    hide Inv, PlaceBid, OnBlock, Claim;
    match a
    case Bidding(bidder, name, amount, vacant, funds, now) =>
      PlaceBidKeepsInv(s, bidder, name, amount, vacant, funds, now);
    case Block(b) =>
      var n := FirstRow(s.bids);
      if n.Some? { CloseKeepsInv(s, n.value, b); } else { NoRowNoClosing(s, b); }
    case Claiming(creator, name) => if Claim(s, creator, name).Some? { ClaimKeepsInv(s, creator, name); }
  }

  lemma NoRowNoClosing(s: State, b: BlockInfo)
    requires Inv(s)
    ensures Inv(OnBlock(s, None, b))
  {
  }

  /** In every run eosio.names holds exactly the standing bids plus what was claimed, and at most one
      auction is closed and unclaimed. */
  lemma {:induction false} RunKeepsInv(s: State, run: seq<Action>)
    requires Inv(s)
    ensures Inv(Run(s, run))
    decreases |run|
  {
    hide Inv, Exec;
    if run != [] {
      RunKeepsInv(s, run[..|run| - 1]);
      ActionKeepsInv(Run(s, run[..|run| - 1]), run[|run| - 1]);
    }
  }

  // ---------------------------------------------------------------- one closing a day

  /** Slots do not run backwards. */
  predicate Timed(run: seq<Action>) {
    forall i, j :: 0 <= i <= j < |run| && run[i].Block? && run[j].Block? ==> run[i].b.slot <= run[j].b.slot
  }

  /** Block `i` of the run closes an auction. */
  ghost predicate ClosesAt(s: State, run: seq<Action>, i: nat)
    requires i < |run|
  {
    && run[i].Block?
    && var before := Run(s, run[..i]);
    var n := FirstRow(before.bids);
    n.Some? && Closes(before, n.value, run[i].b)
  }

  lemma {:induction false} ClosingIsRemembered(s: State, run: seq<Action>, i: nat, m: nat)
    requires Timed(run) && i < m <= |run| && ClosesAt(s, run, i)
    ensures Run(s, run[..m]).lastClose >= run[i].b.slot
    decreases m
  {
    hide PlaceBid, Claim, Closes;
    var before := Run(s, run[..m - 1]);
    assert run[..m][..m - 1] == run[..m - 1];
    assert Run(s, run[..m]) == Exec(before, run[m - 1]);
    BidsKeepTheClock(before, run[m - 1]);
    if m > i + 1 { ClosingIsRemembered(s, run, i, m - 1); }
  }

  lemma BidsKeepTheClock(s: State, a: Action)
    ensures !a.Block? ==> Exec(s, a).lastClose == s.lastClose
  {
  }

  /** In every run two closings are more than a day apart. */
  lemma ClosingsAreADayApart(s: State, run: seq<Action>, i: nat, j: nat)
    requires Timed(run) && i < j < |run| && ClosesAt(s, run, i) && ClosesAt(s, run, j)
    ensures run[j].b.slot - run[i].b.slot > BLOCKS_PER_DAY
  {
    hide Run;
    ClosingIsRemembered(s, run, i, j);
  }

  lemma EmptyKeepsInv()
    ensures Inv(EMPTY)
  {
    SumZero(Worth(map[]));
  }

  // ---------------------------------------------------------------- the contract's table

  class NameBids {
    var bids: map<Name, Bid>
    var names: int
    var claimed: int
    var lastUpdate: nat
    var lastClose: nat

    ghost function View(): State
      reads this
    {
      State(bids, names, claimed, lastUpdate, lastClose)
    }

    constructor ()
      ensures View() == EMPTY
    {
      bids, names, claimed, lastUpdate, lastClose := map[], 0, 0, 0, 0;
    }

    method BidName(bidder: Name, name: Name, amount: int, vacant: bool, funds: int, now: nat) returns (ok: bool)
      requires Inv(View())
      modifies this
      ensures PlaceBid(old(View()), bidder, name, amount, vacant, funds, now) == if ok then Some(View()) else None
      ensures !ok ==> View() == old(View())
      ensures Inv(View())
    {
      hide Sum, Worth;
      ghost var s := View();
      PlaceBidKeepsInv(s, bidder, name, amount, vacant, funds, now);
      var chars := CharsOf(name);
      var suffix := NameSuffix(chars);
      if suffix != chars || chars == Dots(13) || chars[12] != 0 || chars[11] != 0 {
        return false;
      }
      if !vacant || amount <= 0 || amount > MAX_AMOUNT || funds < amount {
        return false;
      }
      names := names + amount;
      if name !in bids {
        bids := bids[name := Bid(bidder, amount, now)];
      } else {
        var current := bids[name];
        if current.high <= 0 || amount - current.high <= current.high / 10 || current.bidder == bidder
          || names < current.high {
          names := names - amount;
          return false;
        }
        names := names - current.high;
        bids := bids[name := Bid(bidder, amount, now)];
      }
      return true;
    }

    /** The first row of the bid index, if there is a row. */
    method First() returns (n: Option<Name>)
      ensures n.None? <==> bids == map[]
      ensures n.Some? ==> IsFirst(bids, n.value)
    {
      n := None;
      var todo := bids.Keys;
      while todo != {}
        invariant todo <= bids.Keys
        invariant n.None? ==> todo == bids.Keys
        invariant n.Some? ==> n.value in bids && n.value !in todo
        invariant n.Some? ==> forall m <- bids :: m !in todo ==> Before(bids, n.value, m)
      {
        var m :| m in todo;
        if n.None? || Before(bids, m, n.value) {
          n := Some(m);
        }
        todo := todo - {m};
      }
    }

    /** The part of `onblock` that closes the highest bid. */
    method CloseHighest(b: BlockInfo) returns (closed: bool, ghost first: Option<Name>)
      requires Inv(View())
      modifies this
      ensures Inv(View()) && (first.Some? ==> IsFirst(old(bids), first.value)) && (first.None? <==> old(bids) == map[])
      ensures View() == OnBlock(old(View()), first, b)
      ensures closed <==> first.Some? && Closes(old(View()), first.value, b)
      ensures closed ==> forall m <- old(bids) :: 0 < old(bids)[m].high <= old(bids)[first.value].high
    {
      hide Sum, Worth;
      ghost var s := View();
      var n := First();
      first := n;
      if n.Some? { CloseKeepsInv(s, n.value, b); }
      closed := false;
      if b.activated && b.slot - lastUpdate > UPDATE_SLOTS {
        lastUpdate := b.slot;
        if b.slot - lastClose > BLOCKS_PER_DAY {
          if n.Some? && bids[n.value].high > 0 && bids[n.value].time < b.now - DAY && b.since > 0
            && b.now - b.since > 14 * DAY {
            lastClose := b.slot;
            bids := bids[n.value := bids[n.value].(high := -bids[n.value].high)];
            closed := true;
          }
        }
      }
    }

    method ClaimName(creator: Name, name: Name) returns (ok: bool)
      requires Inv(View())
      modifies this
      ensures Claim(old(View()), creator, name) == if ok then Some(View()) else None
      ensures !ok ==> View() == old(View())
      ensures Inv(View())
    {
      hide Sum, Worth;
      ghost var s := View();
      if name !in bids || bids[name].bidder != creator || bids[name].high >= 0 {
        return false;
      }
      claimed := claimed - bids[name].high;
      bids := bids - {name};
      ClaimKeepsInv(s, creator, name);
      return true;
    }
  }
}
