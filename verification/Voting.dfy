/** Producer voting: voters, proxies, and the running tallies kept by the system contract.

    A voter row is kept as columns: who the voter follows, approves and stakes is the `Roll`; the
    weights that voting moves around are the `Tally`. Vote weights are exact reals. `Scale` is
    `stake2vote` at the time of an action: any function that gives a nonnegative weight to every
    nonnegative stake. An `eosio_assert` that fails aborts the whole transaction; the action then
    yields `None`. */
module Voting {
  import opened Sums

  type Name = nat
  type Scale = f: int -> real | forall n: nat :: f(n) >= 0.0 witness n => 0.0

  const MAX_VOTES := 30

  datatype Voter = Voter(
    proxy: Option<Name>,      // the proxy the voter follows, if any
    producers: seq<Name>,     // the producers the voter approves, if no proxy is set
    staked: int,
    isProxy: bool)

  /** `rank` is not a table of the contract. It is a witness, maintained alongside the tables,
      that the proxy graph has no cycle: every proxy edge goes to a smaller rank. */
  datatype Roll = Roll(voters: map<Name, Voter>, rank: map<Name, nat>)

  datatype Tally = Tally(
    last: map<Name, real>,     // per voter: weight it last cast
    proxied: map<Name, real>,  // per voter: running total of the weights its followers cast
    votes: map<Name, real>,    // per producer: running total of its votes
    total: real)               // running total over all producers

  datatype State = State(roll: Roll, active: map<Name, bool>, tally: Tally, activatedStake: int)

  const EMPTY := State(Roll(map[], map[]), map[], Tally(map[], map[], map[], 0.0), 0)

  predicate StrictlySorted(s: seq<Name>) {
    forall i, j :: 0 <= i < j < |s| ==> s[i] < s[j]
  }

  // ---------------------------------------------------------------- table shape

  ghost predicate ShapedVoter(g: Roll, x: Name)
    requires x in g.voters
  {
    var v := g.voters[x];
    && v.staked >= 0
    && |v.producers| <= MAX_VOTES
    && StrictlySorted(v.producers)
    && (v.proxy.Some? ==>
          && v.producers == []
          && !v.isProxy
          && v.proxy.value in g.voters
          && x in g.rank && v.proxy.value in g.rank
          && g.rank[v.proxy.value] < g.rank[x])
  }

  /** What holds of the voter rows in every reachable state, whatever the weights are. */
  ghost predicate Shaped(g: Roll) {
    && g.rank.Keys == g.voters.Keys
    && forall x <- g.voters :: ShapedVoter(g, x)
  }

  ghost predicate Fits(g: Roll, t: Tally) {
    t.last.Keys == g.voters.Keys && t.proxied.Keys == g.voters.Keys
  }

  ghost predicate WellFormed(s: State) {
    Shaped(s.roll) && Fits(s.roll, s.tally) && s.active.Keys == s.tally.votes.Keys
  }

  // ---------------------------------------------------------------- weights

  function Abs(r: real): real { if r < 0.0 then -r else r }

  /** Weight a row casts now: its own stake, plus its followers' weight if it is a proxy. */
  function CurrentWeight(v: Voter, proxied: real, f: Scale): real {
    f(v.staked) + (if v.isProxy then proxied else 0.0)
  }

  function AddProxied(t: Tally, x: Name, d: real): Tally
    requires x in t.proxied
  {
    t.(proxied := t.proxied[x := t.proxied[x] + d])
  }

  /** A tally after adding `d`; votes cast through `update_votes` are floored at zero. */
  function AddVotes(votes: real, d: real, floor: bool): real {
    if floor && votes + d < 0.0 then 0.0 else votes + d
  }

  function Applied(t: Tally, d: map<Name, real>): map<Name, real> {
    map p | p in d && p in t.votes :: d[p]
  }

  /** Adds `d[p]` to every registered producer p that has a delta, and to the grand total. */
  ghost function ApplyDeltas(t: Tally, d: map<Name, real>, floor: bool): Tally {
    t.(votes := map p | p in t.votes :: if p in d then AddVotes(t.votes[p], d[p], floor) else t.votes[p],
       total := t.total + RealSum(Applied(t, d)))
  }

  function SameDelta(ps: seq<Name>, d: real): map<Name, real> {
    map p | p in ps :: d
  }

  predicate AllRegistered(t: Tally, ps: seq<Name>) {
    forall p <- ps :: p in t.votes
  }

  /** `propagate_weight_change`: recompute one row's weight and push the change along its proxy
      chain, ending at the producers the last row approves. A change of at most one vote stops
      the walk, yet `last` is still overwritten. Aborts when that last row approves a producer that
      is not registered. */
  ghost function Propagate(g: Roll, t: Tally, x: Name, f: Scale): (r: Option<Tally>)
    requires Shaped(g) && Fits(g, t) && x in g.voters
    ensures r.Some? ==> Fits(g, r.value) && r.value.votes.Keys == t.votes.Keys
    decreases g.rank[x]
  {
    var v := g.voters[x];
    var w := CurrentWeight(v, t.proxied[x], f);
    var d := w - t.last[x];
    assert ShapedVoter(g, x);
    var mid :=
      if Abs(d) <= 1.0 then Some(t)
      else if v.proxy.Some? then Propagate(g, AddProxied(t, v.proxy.value, d), v.proxy.value, f)
      else if AllRegistered(t, v.producers) then Some(ApplyDeltas(t, SameDelta(v.producers, d), false))
      else None;
    if mid.None? then None else Some(mid.value.(last := mid.value.last[x := w]))
  }

  // ---------------------------------------------------------------- update_votes

  predicate ValidBallot(x: Name, proxy: Option<Name>, prods: seq<Name>) {
    if proxy.Some? then prods == [] && proxy.value != x
    else |prods| <= MAX_VOTES && StrictlySorted(prods)
  }

  function Losing(v: Voter, last: real): seq<Name> {
    if last > 0.0 && v.proxy.None? then v.producers else []
  }

  function Gaining(proxy: Option<Name>, prods: seq<Name>, w: real): seq<Name> {
    if proxy.None? && w >= 0.0 then prods else []
  }

  /** The per-producer changes of one ballot: the approvals in `losing` drop by `l`, those in
      `gaining` rise by `g`. */
  function BallotDeltas(losing: seq<Name>, l: real, gaining: seq<Name>, g: real): map<Name, real> {
    map p | p in losing + gaining ::
      (if p in losing then -l else 0.0) + (if p in gaining then g else 0.0)
  }

  /** The previous ballot is undone: its proxy loses the old weight. */
  ghost function Withdraw(g: Roll, t: Tally, x: Name, f: Scale): (r: Option<Tally>)
    requires Shaped(g) && Fits(g, t) && x in g.voters
    ensures r.Some? ==> Fits(g, r.value) && r.value.votes.Keys == t.votes.Keys
  {
    assert ShapedVoter(g, x);
    var proxy := g.voters[x].proxy;
    if t.last[x] > 0.0 && proxy.Some? then
      Propagate(g, AddProxied(t, proxy.value, -t.last[x]), proxy.value, f)
    else Some(t)
  }

  /** The new proxy, if any, gains the new weight. */
  ghost function Entrust(g: Roll, t: Tally, proxy: Option<Name>, w: real, f: Scale): (r: Option<Tally>)
    requires Shaped(g) && Fits(g, t) && (proxy.Some? ==> proxy.value in g.voters)
    ensures r.Some? ==> Fits(g, r.value) && r.value.votes.Keys == t.votes.Keys
  {
    if proxy.Some? && w >= 0.0 then
      Propagate(g, AddProxied(t, proxy.value, w), proxy.value, f)
    else Some(t)
  }

  /** The tallies after voter `x` casts a new ballot of weight `w`. */
  ghost function Recount(
    g: Roll, t: Tally, x: Name, proxy: Option<Name>, prods: seq<Name>, w: real, f: Scale): (r: Option<Tally>)
    requires Shaped(g) && Fits(g, t) && x in g.voters && (proxy.Some? ==> proxy.value in g.voters)
    ensures r.Some? ==> Fits(g, r.value) && r.value.votes.Keys == t.votes.Keys
  {
    var t1 := Withdraw(g, t, x, f);
    if t1.None? then None else
      var t2 := Entrust(g, t1.value, proxy, w, f);
      if t2.None? then None else
        var d := BallotDeltas(Losing(g.voters[x], t.last[x]), t.last[x], Gaining(proxy, prods, w), w);
        var t3 := ApplyDeltas(t2.value, d, true);
        Some(t3.(last := t3.last[x := w]))
  }

  /** Putting the chosen proxy at the bottom keeps every edge decreasing, the new one included. */
  function Rerank(rank: map<Name, nat>, proxy: Option<Name>): map<Name, nat> {
    if proxy.None? then rank
    else map y | y in rank :: if y == proxy.value then 0 else rank[y] + 1
  }

  /** The voter rows once a ballot is stored. Re-casting the stored ballot adds no edge. */
  function StoreBallot(g: Roll, x: Name, proxy: Option<Name>, prods: seq<Name>, voting: bool): Roll
    requires x in g.voters
  {
    Roll(g.voters[x := g.voters[x].(producers := prods, proxy := proxy)],
         if voting then Rerank(g.rank, proxy) else g.rank)
  }

  /** A new edge may only point at a registered proxy, which follows nobody: no cycle can appear. */
  lemma ShapedStore(g: Roll, x: Name, proxy: Option<Name>, prods: seq<Name>, voting: bool)
    requires Shaped(g) && x in g.voters && ValidBallot(x, proxy, prods)
    requires proxy.Some? ==> proxy.value in g.voters && !g.voters[x].isProxy
    requires if voting then proxy.Some? ==> g.voters[proxy.value].isProxy else proxy == g.voters[x].proxy
    ensures Shaped(StoreBallot(g, x, proxy, prods, voting))
  {
    var r := StoreBallot(g, x, proxy, prods, voting);
    forall y <- r.voters ensures ShapedVoter(r, y) {
      assert ShapedVoter(g, y) && ShapedVoter(g, x);
      if proxy.Some? {
        assert ShapedVoter(g, proxy.value);
      }
    }
  }

  /** The chosen proxy exists and, while voting, is registered as one. */
  predicate MayEntrust(voters: map<Name, Voter>, proxy: Option<Name>, voting: bool) {
    proxy.Some? ==> proxy.value in voters && (!voting || voters[proxy.value].isProxy)
  }

  /** The producers that gain exist and, while voting, are active. */
  predicate MayGain(active: map<Name, bool>, gaining: seq<Name>, voting: bool) {
    forall p <- gaining :: p in active && (!voting || active[p])
  }

  /** Every check `update_votes` makes on its own account. */
  predicate MayVote(s: State, x: Name, proxy: Option<Name>, prods: seq<Name>, voting: bool, f: Scale)
    requires x in s.roll.voters ==> x in s.tally.proxied
  {
    && ValidBallot(x, proxy, prods)
    && x in s.roll.voters
    && (proxy.None? || !s.roll.voters[x].isProxy)
    && MayEntrust(s.roll.voters, proxy, voting)
    && MayGain(s.active, Gaining(proxy, prods, CurrentWeight(s.roll.voters[x], s.tally.proxied[x], f)), voting)
  }

  /** `update_votes`. With `voting` false it re-casts a stored ballot after a stake change, so the
      proxy is the stored one. */
  ghost function UpdateVotes(
    s: State, x: Name, proxy: Option<Name>, prods: seq<Name>, voting: bool, f: Scale): (r: Option<State>)
    requires WellFormed(s)
    requires !voting && x in s.roll.voters ==> proxy == s.roll.voters[x].proxy
    ensures r.Some? ==> WellFormed(r.value)
  {
    if !MayVote(s, x, proxy, prods, voting, f) then None else
      var v := s.roll.voters[x];
      var w := CurrentWeight(v, s.tally.proxied[x], f);
      var t := Recount(s.roll, s.tally, x, proxy, prods, w, f);
      if t.None? then None else
        ShapedStore(s.roll, x, proxy, prods, voting);
        Some(State(StoreBallot(s.roll, x, proxy, prods, voting), s.active, t.value,
                   s.activatedStake + if s.tally.last[x] <= 0.0 then v.staked else 0))
  }

  // ---------------------------------------------------------------- the other actions

  ghost function AddRow(g: Roll, x: Name, staked: nat, isProxy: bool): (r: Roll)
    requires Shaped(g) && x !in g.voters
    ensures Shaped(r)
  {
    var r := Roll(g.voters[x := Voter(None, [], staked, isProxy)], g.rank[x := 0]);
    assert forall y <- g.voters :: ShapedVoter(g, y) ==> ShapedVoter(r, y);
    r
  }

  ghost function AddVoter(s: State, x: Name, staked: nat, isProxy: bool): (r: State)
    requires WellFormed(s) && x !in s.roll.voters
    ensures WellFormed(r)
  {
    s.(roll := AddRow(s.roll, x, staked, isProxy),
       tally := s.tally.(last := s.tally.last[x := 0.0], proxied := s.tally.proxied[x := 0.0]))
  }

  ghost function SetFlag(g: Roll, x: Name, flag: bool): (r: Roll)
    requires Shaped(g) && x in g.voters && (flag ==> g.voters[x].proxy.None?)
    ensures Shaped(r)
  {
    var r := g.(voters := g.voters[x := g.voters[x].(isProxy := flag)]);
    assert forall y <- r.voters :: ShapedVoter(g, y) ==> ShapedVoter(r, y);
    r
  }

  ghost function SetStake(g: Roll, x: Name, staked: nat): (r: Roll)
    requires Shaped(g) && x in g.voters
    ensures Shaped(r)
  {
    var r := g.(voters := g.voters[x := g.voters[x].(staked := staked)]);
    assert forall y <- r.voters :: ShapedVoter(g, y) ==> ShapedVoter(r, y);
    r
  }

  /** `regproxy`: an existing row flips its flag and re-propagates; otherwise a row is created. */
  ghost function RegProxy(s: State, x: Name, flag: bool, f: Scale): (r: Option<State>)
    requires WellFormed(s)
    ensures r.Some? ==> WellFormed(r.value)
  {
    if x !in s.roll.voters then Some(AddVoter(s, x, 0, flag))
    else if flag == s.roll.voters[x].isProxy || (flag && s.roll.voters[x].proxy.Some?) then None
    else
      var g := SetFlag(s.roll, x, flag);
      var t := Propagate(g, s.tally, x, f);
      if t.None? then None else Some(s.(roll := g, tally := t.value))
  }

  /** The voting part of `changebw`: the stake moves by `delta` and a stored ballot is re-cast. */
  ghost function Restake(s: State, x: Name, delta: int, f: Scale): (r: Option<State>)
    requires WellFormed(s)
    ensures r.Some? ==> WellFormed(r.value)
  {
    if x !in s.roll.voters then
      if delta < 0 then None else Some(AddVoter(s, x, delta, false))
    else if s.roll.voters[x].staked + delta < 0 then None
    else
      var v := s.roll.voters[x];
      var s' := s.(roll := SetStake(s.roll, x, v.staked + delta));
      if v.producers != [] || v.proxy.Some? then UpdateVotes(s', x, v.proxy, v.producers, false, f) else Some(s')
  }

  function RegProducer(s: State, p: Name): State {
    s.(active := s.active[p := true],
       tally := if p in s.tally.votes then s.tally else s.tally.(votes := s.tally.votes[p := 0.0]))
  }

  /** `unregprod` and `rmvproducer`. */
  function Deactivate(s: State, p: Name): Option<State> {
    if p in s.active then Some(s.(active := s.active[p := false])) else None
  }
}
