/** The running tallies of the voting tables against their definition: what each producer, each
    proxy and the grand total ought to hold, as sums over the ballots. */
module VotingTallies {
  import opened Sums
  import opened Voting

  /** What one voter contributes: `toProxy` to the proxy it follows, `toProducers` to each producer
      it approves. A stored row uses one of the two; a row in the middle of a vote may use both. */
  datatype Ballot = Ballot(proxy: Option<Name>, toProxy: real, producers: seq<Name>, toProducers: real) {
    function ToProducer(p: Name): real { if p in producers then toProducers else 0.0 }
    function ToProxy(a: Name): real { if proxy == Some(a) then toProxy else 0.0 }
    predicate NonNegative() { toProxy >= 0.0 && toProducers >= 0.0 }
  }

  function BallotOf(v: Voter, w: real): Ballot {
    if v.proxy.Some? then Ballot(v.proxy, w, [], 0.0) else Ballot(None, 0.0, v.producers, w)
  }

  type Ballots = map<Name, Ballot>

  /** The ballots of the voter rows, except that the rows in `held` still count as recorded in `b`. */
  ghost function Overlay(g: Roll, t: Tally, b: Ballots, held: set<Name>): Ballots
    requires Fits(g, t)
  {
    map x | x in g.voters :: if x in held && x in b then b[x] else BallotOf(g.voters[x], t.last[x])
  }

  ghost function Cast(g: Roll, t: Tally): Ballots
    requires Fits(g, t)
  {
    Overlay(g, t, map[], {})
  }

  // ---------------------------------------------------------------- definitions of the tallies

  function ProducerColumn(b: Ballots, p: Name): map<Name, real> {
    map x | x in b :: b[x].ToProducer(p)
  }

  function ProxyColumn(b: Ballots, a: Name): map<Name, real> {
    map x | x in b :: b[x].ToProxy(a)
  }

  ghost function VotesFor(b: Ballots, p: Name): real {
    RealSum(ProducerColumn(b, p))
  }

  ghost function EntrustedTo(b: Ballots, a: Name): real {
    RealSum(ProxyColumn(b, a))
  }

  /** Every stored tally equals its definition over the ballots `b`. */
  ghost predicate Tallied(t: Tally, b: Ballots) {
    && (forall p <- t.votes :: t.votes[p] == VotesFor(b, p))
    && (forall a <- t.proxied :: t.proxied[a] == EntrustedTo(b, a))
    && t.total == RealSum(t.votes)
  }

  ghost predicate NonNegative(b: Ballots) {
    forall x <- b :: b[x].NonNegative()
  }

  ghost predicate Registered(g: Roll, t: Tally) {
    forall x <- g.voters :: AllRegistered(t, g.voters[x].producers)
  }

  lemma RegisteredRow(g: Roll, t: Tally, x: Name)
    requires Registered(g, t) && x in g.voters
    ensures AllRegistered(t, g.voters[x].producers)
  {
  }

  /** Every tally equals its definition over the stored ballots. */
  ghost predicate Balanced(g: Roll, t: Tally)
    requires Fits(g, t)
  {
    Registered(g, t) && NonNegative(Cast(g, t)) && Tallied(t, Cast(g, t))
  }

  /** The invariant of the voting tables. */
  ghost predicate Inv(s: State) {
    WellFormed(s) && Balanced(s.roll, s.tally)
  }

  // ---------------------------------------------------------------- sums

  lemma VotesForUpdate(b: Ballots, x: Name, c: Ballot, p: Name)
    ensures VotesFor(b[x := c], p) == VotesFor(b, p) - (if x in b then b[x].ToProducer(p) else 0.0) + c.ToProducer(p)
  {
    hide RealSum;
    RealSumUpdate(ProducerColumn(b, p), x, c.ToProducer(p));
    assert ProducerColumn(b[x := c], p) == ProducerColumn(b, p)[x := c.ToProducer(p)];
  }

  lemma EntrustedToUpdate(b: Ballots, x: Name, c: Ballot, a: Name)
    ensures EntrustedTo(b[x := c], a) == EntrustedTo(b, a) - (if x in b then b[x].ToProxy(a) else 0.0) + c.ToProxy(a)
  {
    hide RealSum;
    RealSumUpdate(ProxyColumn(b, a), x, c.ToProxy(a));
    assert ProxyColumn(b[x := c], a) == ProxyColumn(b, a)[x := c.ToProxy(a)];
  }

  /** Replacing one ballot by another moves only the tallies where the two differ. */
  lemma Recast(b: Ballots, x: Name, c: Ballot)
    requires x in b
    ensures forall p :: VotesFor(b[x := c], p) == VotesFor(b, p) - b[x].ToProducer(p) + c.ToProducer(p)
    ensures forall a :: EntrustedTo(b[x := c], a) == EntrustedTo(b, a) - b[x].ToProxy(a) + c.ToProxy(a)
  {
    forall p ensures VotesFor(b[x := c], p) == VotesFor(b, p) - b[x].ToProducer(p) + c.ToProducer(p) {
      hide *;
      VotesForUpdate(b, x, c, p);
    }
    forall a ensures EntrustedTo(b[x := c], a) == EntrustedTo(b, a) - b[x].ToProxy(a) + c.ToProxy(a) {
      hide *;
      EntrustedToUpdate(b, x, c, a);
    }
  }

  lemma TalliesNonNegative(b: Ballots, p: Name)
    requires NonNegative(b)
    ensures VotesFor(b, p) >= 0.0 && EntrustedTo(b, p) >= 0.0
  {
    hide RealSum;
    RealSumNonNegative(ProducerColumn(b, p));
    RealSumNonNegative(ProxyColumn(b, p));
  }

  function AddColumns(m: map<Name, real>, d: map<Name, real>): map<Name, real> {
    map k | k in m :: if k in d then m[k] + d[k] else m[k]
  }

  /** Adding a column of deltas to a column adds up. */
  lemma {:induction false} RealSumAdd(m: map<Name, real>, d: map<Name, real>)
    requires d.Keys <= m.Keys
    ensures RealSum(AddColumns(m, d)) == RealSum(m) + RealSum(d)
    decreases |d|
  {
    if d == map[] {
      assert AddColumns(m, d) == m;
    } else {
      var j :| j in d;
      var d' := d - {j};
      RealSumAdd(m, d');
      RealSumRemove(d, j);
      RealSumUpdate(AddColumns(m, d'), j, m[j] + d[j]);
      assert AddColumns(m, d) == AddColumns(m, d')[j := m[j] + d[j]];
    }
  }

  // ---------------------------------------------------------------- tallies with a drift

  const NOTHING := Ballot(None, 0.0, [], 0.0)

  /** What the tallies were not told of: per producer, per proxy, and what the total lacks of the votes. */
  datatype Drift = Drift(votes: Name -> real, proxied: Name -> real, total: real) {
    function ToProducer(p: Name): real { votes(p) }
    function ToProxy(a: Name): real { proxied(a) }
    function Plus(c: Ballot): Drift {
      Drift((p: Name) => votes(p) + c.ToProducer(p), (a: Name) => proxied(a) + c.ToProxy(a), total)
    }
    function Minus(c: Ballot): Drift {
      Drift((p: Name) => votes(p) - c.ToProducer(p), (a: Name) => proxied(a) - c.ToProxy(a), total)
    }
  }

  /** A contribution of no weight. */
  predicate Idle(l: Ballot) { l.toProxy == 0.0 && l.toProducers == 0.0 }

  const NO_DRIFT := Drift((p: Name) => 0.0, (a: Name) => 0.0, 0.0)

  /** The drift of one contribution. */
  function Of(c: Ballot): Drift { NO_DRIFT.Plus(c) }

  /** The tallies hold what they ought to, but for a drift `l` and one contribution more. */
  ghost predicate TalliedBut(t: Tally, b: Ballots, l: Drift, l': Ballot) {
    && (forall p <- t.votes :: t.votes[p] + l.ToProducer(p) + l'.ToProducer(p) == VotesFor(b, p))
    && (forall a <- t.proxied :: t.proxied[a] + l.ToProxy(a) + l'.ToProxy(a) == EntrustedTo(b, a))
    && t.total + l.total == RealSum(t.votes)
  }

  /** A drift and a contribution that make up for each other. */
  ghost predicate Cancels(l: Drift, l': Ballot) {
    l.total == 0.0 && forall p: Name :: l.ToProducer(p) + l'.ToProducer(p) == 0.0 && l.ToProxy(p) + l'.ToProxy(p) == 0.0
  }

  /** The contribution goes to rows that exist. */
  ghost predicate Addressed(t: Tally, l: Ballot) {
    AllRegistered(t, l.producers) && (l.proxy.Some? ==> l.proxy.value in t.proxied)
  }

  /** The drift is one of rows that exist. */
  ghost predicate Reaches(t: Tally, l: Drift) {
    forall p: Name :: (p !in t.votes ==> l.ToProducer(p) == 0.0) && (p !in t.proxied ==> l.ToProxy(p) == 0.0)
  }

  lemma AddressedReaches(t: Tally, c: Ballot)
    requires Addressed(t, c)
    ensures Reaches(t, Of(c))
  {
    OfIs(c);
    hide Of;
  }

  lemma OfIs(c: Ballot)
    ensures Of(c).total == 0.0
    ensures forall p: Name :: Of(c).ToProducer(p) == c.ToProducer(p) && Of(c).ToProxy(p) == c.ToProxy(p)
  {
    forall p: Name ensures Of(c).ToProducer(p) == c.ToProducer(p) && Of(c).ToProxy(p) == c.ToProxy(p) {
      assert NO_DRIFT.votes(p) == 0.0 && NO_DRIFT.proxied(p) == 0.0;
    }
  }

  /** Tallies with a drift are right if and only if the drift cancels out. */
  lemma DriftCancels(t: Tally, b: Ballots, l: Drift, l': Ballot)
    requires TalliedBut(t, b, l, l') && Reaches(t, l) && Addressed(t, l')
    ensures Tallied(t, b) <==> Cancels(l, l')
  {
    hide RealSum, VotesFor, EntrustedTo;
    if Tallied(t, b) {
      forall p: Name ensures l.ToProducer(p) + l'.ToProducer(p) == 0.0 && l.ToProxy(p) + l'.ToProxy(p) == 0.0 {
        if p in t.votes { assert t.votes[p] == VotesFor(b, p); }
        if p in t.proxied { assert t.proxied[p] == EntrustedTo(b, p); }
      }
    }
  }

  lemma NoDrift(t: Tally, b: Ballots)
    ensures Tallied(t, b) <==> TalliedBut(t, b, NO_DRIFT, NOTHING)
  {
    hide RealSum, VotesFor, EntrustedTo;
  }

  /** The one contribution joins the drift. */
  lemma JoinDrift(t: Tally, b: Ballots, l: Drift, l': Ballot)
    requires TalliedBut(t, b, l, l')
    ensures TalliedBut(t, b, l.Plus(l'), NOTHING)
  {
    hide RealSum, VotesFor, EntrustedTo;
  }

  lemma DeltasAddUp(t: Tally, d: map<Name, real>)
    requires d.Keys <= t.votes.Keys
    ensures ApplyDeltas(t, d, false).votes == AddColumns(t.votes, d)
    ensures ApplyDeltas(t, d, false).total == ApplyDeltas(t, d, true).total
    ensures RealSum(AddColumns(t.votes, d)) - ApplyDeltas(t, d, true).total == RealSum(t.votes) - t.total
  {
    hide RealSum;
    RealSumAdd(t.votes, d);
    assert Applied(t, d) == d;
  }

  lemma NoDeltasNoChange(t: Tally, d: map<Name, real>, floor: bool)
    requires d == map[] || t.votes == map[]
    ensures ApplyDeltas(t, d, floor) == t
  {
    assert Applied(t, d) == map[];
    assert ApplyDeltas(t, d, floor).votes == t.votes;
  }

  /** Adding one producer to a set of deltas is one row update and one step of the total. */
  lemma ApplyOne(t: Tally, d: map<Name, real>, p: Name, v: real, floor: bool)
    requires p !in d
    ensures var r, r' := ApplyDeltas(t, d, floor), ApplyDeltas(t, d[p := v], floor);
            r' == if p in t.votes then r.(votes := r.votes[p := AddVotes(r.votes[p], v, floor)], total := r.total + v)
                  else r
  {
    hide RealSum;
    if p in t.votes {
      RealSumUpdate(Applied(t, d), p, v);
      assert Applied(t, d[p := v]) == Applied(t, d)[p := v];
    } else {
      assert Applied(t, d[p := v]) == Applied(t, d);
    }
    var r, r' := ApplyDeltas(t, d, floor), ApplyDeltas(t, d[p := v], floor);
    if p in t.votes {
      assert r'.votes == r.votes[p := AddVotes(r.votes[p], v, floor)];
    } else {
      assert r'.votes == r.votes;
    }
  }

  /** Deltas that match the change of ballots leave the drift as it is. */
  lemma DeltasDrift(t: Tally, b: Ballots, b': Ballots, d: map<Name, real>, l: Drift, l': Ballot)
    requires TalliedBut(t, b, l, l') && d.Keys <= t.votes.Keys
    requires forall p <- t.votes :: VotesFor(b', p) == VotesFor(b, p) + if p in d then d[p] else 0.0
    requires forall a <- t.proxied :: EntrustedTo(b', a) == EntrustedTo(b, a)
    ensures TalliedBut(ApplyDeltas(t, d, false), b', l, l')
  {
    hide RealSum, VotesFor, EntrustedTo;
    DeltasAddUp(t, d);
  }

  /** Flooring votes at zero raises their sum, if it does anything. */
  lemma FloorShows(m: map<Name, real>, m': map<Name, real>)
    requires m.Keys == m'.Keys && (forall p <- m :: m'[p] >= m[p]) && RealSum(m) == RealSum(m')
    ensures m == m'
  {
    hide RealSum;
    var d := map p | p in m :: m'[p] - m[p];
    RealSumAdd(m, d);
    assert AddColumns(m, d) == m';
    RealSumNonNegative(d);
    forall p <- m ensures m[p] == m'[p] { assert d[p] >= 0.0; }
  }

  /** The deltas of a ballot, floored at zero, leave right tallies if and only if the drift cancels out;
      and then the floor is never met. */
  lemma DeltasTally(t: Tally, b: Ballots, b': Ballots, d: map<Name, real>, l: Drift, l': Ballot)
    requires TalliedBut(t, b, l, l') && d.Keys <= t.votes.Keys && Reaches(t, l) && Addressed(t, l') && l.total == 0.0
    requires forall p <- t.votes :: VotesFor(b', p) == VotesFor(b, p) + if p in d then d[p] else 0.0
    requires forall a <- t.proxied :: EntrustedTo(b', a) == EntrustedTo(b, a)
    requires Cancels(l, l') ==> NonNegative(b')
    ensures Tallied(ApplyDeltas(t, d, true), b') <==> Cancels(l, l')
    ensures Cancels(l, l') ==> ApplyDeltas(t, d, true) == ApplyDeltas(t, d, false)
  {
    hide RealSum, VotesFor, EntrustedTo, NonNegative, Cancels, Addressed, Reaches;
    var r, r' := ApplyDeltas(t, d, false), ApplyDeltas(t, d, true);
    DeltasDrift(t, b, b', d, l, l');
    DeltasAddUp(t, d);
    SameReach(t, r, l);
    SameAddresses(t, r, l');
    DriftCancels(r, b', l, l');
    if Tallied(r', b') {
      FloorShows(r.votes, r'.votes);
    }
    if Cancels(l, l') {
      forall p <- t.votes ensures r'.votes[p] == r.votes[p] {
        TalliesNonNegative(b', p);
        assert r.votes[p] == VotesFor(b', p);
      }
      assert r'.votes == r.votes;
    }
  }

  lemma SameReach(t: Tally, t': Tally, l: Drift)
    requires Reaches(t, l) && t'.votes.Keys == t.votes.Keys && t'.proxied.Keys == t.proxied.Keys
    ensures Reaches(t', l)
  {
  }

  lemma SameAddresses(t: Tally, t': Tally, l: Ballot)
    requires Addressed(t, l) && t'.votes.Keys == t.votes.Keys && t'.proxied.Keys == t.proxied.Keys
    ensures Addressed(t', l)
  {
  }

  // ---------------------------------------------------------------- propagation

  ghost function Change(g: Roll, t: Tally, x: Name, f: Scale): real
    requires Fits(g, t) && x in g.voters
  {
    CurrentWeight(g.voters[x], t.proxied[x], f) - t.last[x]
  }

  /** What propagation from `x` fails to pass on: the change of the row it stops at, when that is at most
      one vote. */
  ghost function Dropped(g: Roll, t: Tally, x: Name, f: Scale): (l: Ballot)
    requires Shaped(g) && Fits(g, t) && x in g.voters
    ensures l.proxy.Some? ==> l.proxy.value in g.voters && g.rank[l.proxy.value] < g.rank[x]
    ensures l.producers == [] || exists y <- g.voters :: l.producers == g.voters[y].producers
    ensures Abs(l.toProxy) <= 1.0 && Abs(l.toProducers) <= 1.0
    decreases g.rank[x]
  {
    var v := g.voters[x];
    var d := Change(g, t, x, f);
    assert ShapedVoter(g, x);
    if Abs(d) <= 1.0 then BallotOf(v, d)
    else if v.proxy.Some? then Dropped(g, AddProxied(t, v.proxy.value, d), v.proxy.value, f)
    else NOTHING
  }

  /** No change is dropped on the way, or it is dropped by a row that casts to nobody. */
  ghost predicate Lossless(g: Roll, t: Tally, x: Name, f: Scale)
    requires Shaped(g) && Fits(g, t) && x in g.voters
  {
    Cancels(NO_DRIFT, Dropped(g, t, x, f))
  }

  lemma DroppedIsAddressed(g: Roll, t: Tally, x: Name, f: Scale)
    requires Shaped(g) && Fits(g, t) && x in g.voters && Registered(g, t)
    ensures Addressed(t, Dropped(g, t, x, f))
  {
    hide Dropped, ShapedVoter;
    var l := Dropped(g, t, x, f);
    if l.producers != [] {
      var y :| y in g.voters && l.producers == g.voters[y].producers;
      RegisteredRow(g, t, y);
    }
  }

  /** The proxy chain of `x` cannot reach `h`. */
  ghost predicate Clear(g: Roll, x: Name, h: Name)
    requires Shaped(g) && x in g.voters && h in g.voters
  {
    x != h && (g.voters[x].proxy.None? || g.rank[x] < g.rank[h])
  }

  ghost predicate ClearOf(g: Roll, x: Name, held: set<Name>)
    requires Shaped(g) && x in g.voters
  {
    forall h <- held :: h in g.voters && Clear(g, x, h)
  }

  lemma NotHeld(g: Roll, x: Name, held: set<Name>)
    requires Shaped(g) && x in g.voters && ClearOf(g, x, held)
    ensures x !in held
  {
  }

  lemma ClearNext(g: Roll, x: Name, held: set<Name>)
    requires Shaped(g) && x in g.voters && ClearOf(g, x, held) && g.voters[x].proxy.Some?
    ensures g.voters[x].proxy.value in g.voters && ClearOf(g, g.voters[x].proxy.value, held + {x})
  {
    assert ShapedVoter(g, x);
    hide ShapedVoter;
  }

  function Set(t: Tally, x: Name, w: real): Tally {
    t.(last := t.last[x := w])
  }

  /** One step of propagation: a small change stops, a large one is credited or handed to the proxy. */
  lemma {:induction false} PropagateQuiet(g: Roll, t: Tally, x: Name, f: Scale)
    requires Shaped(g) && Fits(g, t) && x in g.voters && Abs(Change(g, t, x, f)) <= 1.0
    ensures Propagate(g, t, x, f) == Some(Set(t, x, t.last[x] + Change(g, t, x, f)))
    ensures Dropped(g, t, x, f) == BallotOf(g.voters[x], Change(g, t, x, f))
  {
    hide RealSum, Shaped;
  }

  lemma {:induction false} PropagatePush(g: Roll, t: Tally, x: Name, f: Scale)
    requires Shaped(g) && Fits(g, t) && x in g.voters && Abs(Change(g, t, x, f)) > 1.0
    requires g.voters[x].proxy.Some?
    ensures var q := g.voters[x].proxy.value;
            && q in g.voters && q in g.rank && x in g.rank && g.rank[q] < g.rank[x]
            && var t' := AddProxied(t, q, Change(g, t, x, f));
            && var r := Propagate(g, t', q, f);
            && Propagate(g, t, x, f) == (if r.None? then None
                                         else Some(Set(r.value, x, t.last[x] + Change(g, t, x, f))))
            && Dropped(g, t, x, f) == Dropped(g, t', q, f)
  {
    hide Dropped, Propagate, Shaped;
    DroppedPush(g, t, x, f);
    HandedOn(g, t, x, f);
  }

  lemma {:induction false} HandedOn(g: Roll, t: Tally, x: Name, f: Scale)
    requires Shaped(g) && Fits(g, t) && x in g.voters && Abs(Change(g, t, x, f)) > 1.0
    requires g.voters[x].proxy.Some?
    ensures var q := g.voters[x].proxy.value;
            && q in g.voters && q in g.rank && x in g.rank && g.rank[q] < g.rank[x]
            && var r := Propagate(g, AddProxied(t, q, Change(g, t, x, f)), q, f);
            Propagate(g, t, x, f) == if r.None? then None else Some(Set(r.value, x, t.last[x] + Change(g, t, x, f)))
  {
    hide RealSum, ApplyDeltas, SameDelta, AllRegistered, StrictlySorted, CurrentWeight, AddProxied;
    assert ShapedVoter(g, x);
    hide Shaped, ShapedVoter;
    assert t.last[x] + Change(g, t, x, f) == CurrentWeight(g.voters[x], t.proxied[x], f);
  }

  lemma {:induction false} DroppedPush(g: Roll, t: Tally, x: Name, f: Scale)
    requires Shaped(g) && Fits(g, t) && x in g.voters && Abs(Change(g, t, x, f)) > 1.0
    requires g.voters[x].proxy.Some?
    ensures var q := g.voters[x].proxy.value;
            q in g.voters && Dropped(g, t, x, f) == Dropped(g, AddProxied(t, q, Change(g, t, x, f)), q, f)
  {
    hide StrictlySorted, CurrentWeight;
    assert ShapedVoter(g, x);
    hide Shaped, ShapedVoter;
  }

  lemma {:induction false} PropagateSpread(g: Roll, t: Tally, x: Name, f: Scale)
    requires Shaped(g) && Fits(g, t) && x in g.voters && Abs(Change(g, t, x, f)) > 1.0
    requires g.voters[x].proxy.None? && AllRegistered(t, g.voters[x].producers)
    ensures var d := Change(g, t, x, f);
            Propagate(g, t, x, f) ==
            Some(Set(ApplyDeltas(t, SameDelta(g.voters[x].producers, d), false), x, t.last[x] + d))
    ensures Dropped(g, t, x, f) == NOTHING
  {
    hide RealSum, Shaped;
  }

  lemma {:induction false} PropagateAborts(g: Roll, t: Tally, x: Name, f: Scale)
    requires Shaped(g) && Fits(g, t) && x in g.voters && Abs(Change(g, t, x, f)) > 1.0 && g.voters[x].proxy.None?
    ensures Propagate(g, t, x, f).Some? <==> AllRegistered(t, g.voters[x].producers)
  {
    hide RealSum, Shaped, ApplyDeltas;
  }

  /** Propagation leaves a row that its chain cannot reach alone. */
  lemma {:induction false} PropagateFrame(g: Roll, t: Tally, x: Name, f: Scale, h: Name)
    requires Shaped(g) && Fits(g, t) && x in g.voters && Propagate(g, t, x, f).Some?
    requires h in g.voters && Clear(g, x, h)
    ensures Propagate(g, t, x, f).value.last[h] == t.last[h]
    ensures Propagate(g, t, x, f).value.proxied[h] == t.proxied[h]
    decreases g.rank[x]
  {
    hide RealSum, Propagate, Dropped, ShapedVoter, SameDelta, AllRegistered, Applied;
    if Abs(Change(g, t, x, f)) <= 1.0 {
      PropagateQuiet(g, t, x, f);
    } else if g.voters[x].proxy.Some? {
      PropagatePush(g, t, x, f);
      var q := g.voters[x].proxy.value;
      PropagateFrame(g, AddProxied(t, q, Change(g, t, x, f)), q, f, h);
    } else {
      PropagateAborts(g, t, x, f);
      PropagateSpread(g, t, x, f);
    }
  }

  /** The row propagation starts at ends up casting exactly its current weight. */
  lemma {:induction false} PropagateRefreshes(g: Roll, t: Tally, x: Name, f: Scale)
    requires Shaped(g) && Fits(g, t) && x in g.voters && Propagate(g, t, x, f).Some?
    ensures var r := Propagate(g, t, x, f).value;
            r.proxied[x] == t.proxied[x] && r.last[x] == CurrentWeight(g.voters[x], r.proxied[x], f)
  {
    hide RealSum, Propagate, Dropped, ShapedVoter, SameDelta, AllRegistered, Applied;
    if Abs(Change(g, t, x, f)) <= 1.0 {
      PropagateQuiet(g, t, x, f);
    } else if g.voters[x].proxy.Some? {
      PropagatePush(g, t, x, f);
      var q := g.voters[x].proxy.value;
      PropagateFrame(g, AddProxied(t, q, Change(g, t, x, f)), q, f, x);
    } else {
      PropagateAborts(g, t, x, f);
      PropagateSpread(g, t, x, f);
    }
  }

  /** `b` are the ballots of the rows, those in `held` as recorded there. */
  ghost predicate Drawn(g: Roll, t: Tally, b: Ballots, held: set<Name>)
    requires Fits(g, t)
  {
    held <= g.voters.Keys && b.Keys == g.voters.Keys && b == Overlay(g, t, b, held)
  }

  lemma CastIsDrawn(g: Roll, t: Tally, t': Tally)
    requires Fits(g, t) && Fits(g, t')
    ensures Drawn(g, t, Cast(g, t), {}) && Overlay(g, t', Cast(g, t), {}) == Cast(g, t')
  {
  }

  lemma DrawnRow(g: Roll, t: Tally, b: Ballots, held: set<Name>, x: Name)
    requires Fits(g, t) && Drawn(g, t, b, held) && x in g.voters && x !in held
    ensures x in b && b[x] == BallotOf(g.voters[x], t.last[x])
  {
  }

  /** A row whose tallies already count it with weight `w` stops being held once it is set to `w`. */
  lemma OverlaySet(g: Roll, t: Tally, b: Ballots, held: set<Name>, x: Name, w: real)
    requires Fits(g, t) && x in g.voters && x !in held && x in b
    ensures Overlay(g, Set(t, x, w), b, held) == Overlay(g, t, b[x := BallotOf(g.voters[x], w)], held + {x})
  {
  }

  lemma TalliedSet(t: Tally, x: Name, w: real, b: Ballots, l: Drift, l': Ballot)
    ensures TalliedBut(Set(t, x, w), b, l, l') <==> TalliedBut(t, b, l, l')
  {
    hide RealSum, VotesFor, EntrustedTo;
  }

  lemma OverlayKeeps(g: Roll, t: Tally, t': Tally, b: Ballots, held: set<Name>, x: Name, c: Ballot)
    requires Fits(g, t) && Fits(g, t') && x in g.voters && Drawn(g, t, b, held) && t'.last == t.last
    ensures Drawn(g, t', b[x := c], held + {x})
  {
  }

  lemma SetDrawn(g: Roll, t: Tally, b: Ballots, held: set<Name>, x: Name, w: real)
    requires Fits(g, t) && Drawn(g, t, b, held) && x in g.voters && x !in held
    ensures Overlay(g, Set(t, x, w), b, held) == b[x := BallotOf(g.voters[x], w)]
  {
  }

  lemma ProxyHasRow(g: Roll, x: Name)
    requires Shaped(g) && x in g.voters
    ensures g.voters[x].proxy.Some? ==> g.voters[x].proxy.value in g.voters && g.voters[x].proxy.value != x
  {
    assert ShapedVoter(g, x);
  }

  /** A cast weight overwritten without moving the tallies drifts by the change. */
  lemma QuietDrift(g: Roll, t: Tally, b: Ballots, held: set<Name>, x: Name, d: real, l: Drift)
    requires Fits(g, t) && Drawn(g, t, b, held) && x in g.voters && x !in held && TalliedBut(t, b, l, NOTHING)
    ensures var r := Set(t, x, t.last[x] + d);
            TalliedBut(r, Overlay(g, r, b, held), l, BallotOf(g.voters[x], d))
  {
    hide RealSum, VotesFor, EntrustedTo, Drawn;
    var v := g.voters[x];
    var c := BallotOf(v, t.last[x] + d);
    DrawnRow(g, t, b, held, x);
    SetDrawn(g, t, b, held, x, t.last[x] + d);
    Recast(b, x, c);
    TalliedSet(t, x, t.last[x] + d, b[x := c], l, BallotOf(v, d));
  }

  /** Moving a proxy's total by the change of one follower adds no drift, the follower held. */
  lemma PushDrift(g: Roll, t: Tally, b: Ballots, held: set<Name>, x: Name, d: real, l: Drift)
    requires Fits(g, t) && Drawn(g, t, b, held) && x in g.voters && x !in held && TalliedBut(t, b, l, NOTHING)
    requires g.voters[x].proxy.Some? && g.voters[x].proxy.value in g.voters
    ensures var t' := AddProxied(t, g.voters[x].proxy.value, d);
            var b' := b[x := BallotOf(g.voters[x], t.last[x] + d)];
            Fits(g, t') && Drawn(g, t', b', held + {x}) && TalliedBut(t', b', l, NOTHING)
  {
    hide RealSum, VotesFor, EntrustedTo, Drawn;
    var c := BallotOf(g.voters[x], t.last[x] + d);
    DrawnRow(g, t, b, held, x);
    OverlayKeeps(g, t, AddProxied(t, g.voters[x].proxy.value, d), b, held, x, c);
    Recast(b, x, c);
  }

  /** Crediting each approved producer with the change adds no drift. */
  lemma SpreadDrift(g: Roll, t: Tally, b: Ballots, held: set<Name>, x: Name, d: real, l: Drift)
    requires Fits(g, t) && Drawn(g, t, b, held) && x in g.voters && x !in held && TalliedBut(t, b, l, NOTHING)
    requires g.voters[x].proxy.None? && AllRegistered(t, g.voters[x].producers)
    ensures var r := Set(ApplyDeltas(t, SameDelta(g.voters[x].producers, d), false), x, t.last[x] + d);
            && Fits(g, r) && TalliedBut(r, Overlay(g, r, b, held), l, NOTHING)
            && Overlay(g, r, b, held) == Overlay(g, Set(t, x, t.last[x] + d), b, held)
  {
    hide RealSum, VotesFor, EntrustedTo;
    var v := g.voters[x];
    var w := t.last[x] + d;
    var c := BallotOf(v, w);
    var deltas := SameDelta(v.producers, d);
    var r := ApplyDeltas(t, deltas, false);
    DrawnRow(g, t, b, held, x);
    SetDrawn(g, t, b, held, x, w);
    assert Drawn(g, r, b, held);
    SetDrawn(g, r, b, held, x, w);
    hide Drawn, ApplyDeltas;
    Recast(b, x, c);
    DeltasDrift(t, b, b[x := c], deltas, l, NOTHING);
    TalliedSet(r, x, w, b[x := c], l, NOTHING);
  }

  lemma NonNegativeSet(g: Roll, t: Tally, b: Ballots, held: set<Name>, x: Name, w: real)
    requires Fits(g, t) && Drawn(g, t, b, held) && NonNegative(b) && x in g.voters && w >= 0.0
    ensures NonNegative(Overlay(g, Set(t, x, w), b, held))
  {
    var b' := Overlay(g, Set(t, x, w), b, held);
    forall y <- b' ensures b'[y].NonNegative() {
      assert b[y].NonNegative();
    }
  }

  /** A row whose own entrusted weight has no drift casts a nonnegative weight. */
  lemma WeightNonNegative(g: Roll, t: Tally, b: Ballots, x: Name, f: Scale, l: Drift)
    requires Shaped(g) && Fits(g, t) && x in g.voters && NonNegative(b) && TalliedBut(t, b, l, NOTHING)
    requires l.ToProxy(x) == 0.0
    ensures t.last[x] + Change(g, t, x, f) >= 0.0
  {
    hide RealSum, VotesFor, EntrustedTo, NonNegative;
    TalliesNonNegative(b, x);
    assert ShapedVoter(g, x);
    var n: nat := g.voters[x].staked;
    assert f(n) >= 0.0;
  }

  /** An earlier drift `l` of a proxy's entrusted weight is made up for by `l'`, if there is any. */
  ghost predicate Absorbs(l: Drift, l': Ballot) {
    forall a: Name :: l.ToProxy(a) == 0.0 || l.ToProxy(a) + l'.ToProxy(a) == 0.0
  }

  /** A drift that the walk from `x` will make up for is not a drift of `x` itself. */
  lemma AbsorbedElsewhere(g: Roll, t: Tally, x: Name, f: Scale, l: Drift)
    requires Shaped(g) && Fits(g, t) && x in g.voters && Absorbs(l, Dropped(g, t, x, f))
    ensures l.ToProxy(x) == 0.0
  {
    hide Dropped, ShapedVoter;
    var l' := Dropped(g, t, x, f);
    assert l'.proxy != Some(x);
    assert l.ToProxy(x) == 0.0 || l.ToProxy(x) + l'.ToProxy(x) == 0.0;
  }

  /** The law of propagation: from tallies with any drift it leads to tallies with that drift and, on
      top, exactly what it dropped. The rows in `held` are in the middle of a vote; the chain cannot
      reach them. Weights stay nonnegative unless an earlier drift gets in the way. */
  lemma {:induction false} PropagateDrift(g: Roll, t: Tally, x: Name, f: Scale, b: Ballots, held: set<Name>, l: Drift)
    requires Shaped(g) && Fits(g, t) && Drawn(g, t, b, held) && TalliedBut(t, b, l, NOTHING)
    requires x in g.voters && ClearOf(g, x, held) && Propagate(g, t, x, f).Some?
    ensures var r := Propagate(g, t, x, f).value;
            && TalliedBut(r, Overlay(g, r, b, held), l, Dropped(g, t, x, f))
            && (NonNegative(b) && Absorbs(l, Dropped(g, t, x, f)) ==> NonNegative(Overlay(g, r, b, held)))
    decreases g.rank[x]
  {
    hide RealSum, VotesFor, EntrustedTo, NonNegative, TalliedBut, ApplyDeltas, Overlay, Propagate, Dropped,
      ShapedVoter, Drawn,
      Change, CurrentWeight, AddProxied, Set, BallotOf, AllRegistered, Absorbs, SameDelta, Shaped, ClearOf;
    NotHeld(g, x, held);
    var d := Change(g, t, x, f);
    var w := t.last[x] + d;
    var safe := NonNegative(b) && Absorbs(l, Dropped(g, t, x, f));
    if safe {
      AbsorbedElsewhere(g, t, x, f, l);
      WeightNonNegative(g, t, b, x, f, l);
      NonNegativeSet(g, t, b, held, x, w);
    }
    DrawnRow(g, t, b, held, x);
    if Abs(d) <= 1.0 {
      PropagateQuiet(g, t, x, f);
      QuietDrift(g, t, b, held, x, d, l);
    } else if g.voters[x].proxy.Some? {
      PropagatePush(g, t, x, f);
      var q := g.voters[x].proxy.value;
      var t' := AddProxied(t, q, d);
      var b' := b[x := BallotOf(g.voters[x], w)];
      ClearNext(g, x, held);
      PushDrift(g, t, b, held, x, d, l);
      if safe { NonNegativeRow(b, x, BallotOf(g.voters[x], w), g.voters[x], w); }
      PropagateDrift(g, t', q, f, b', held + {x}, l);
      var r' := Propagate(g, t', q, f).value;
      OverlaySet(g, r', b, held, x, w);
      TalliedSet(r', x, w, Overlay(g, Set(r', x, w), b, held), l, Dropped(g, t, x, f));
    } else {
      PropagateAborts(g, t, x, f);
      PropagateSpread(g, t, x, f);
      SpreadDrift(g, t, b, held, x, d, l);
    }
  }

  lemma NonNegativeRow(b: Ballots, x: Name, c: Ballot, v: Voter, w: real)
    requires NonNegative(b) && c == BallotOf(v, w) && w >= 0.0
    ensures NonNegative(b[x := c])
  {
  }

  // ---------------------------------------------------------------- casting a ballot

  /** The ballots with row `x` counted as `c`. */
  ghost function With(g: Roll, t: Tally, x: Name, c: Ballot): Ballots
    requires Fits(g, t)
  {
    Overlay(g, t, map[x := c], {x})
  }

  /** The tables in the middle of a vote of `x`: right with `x` counted as `c`, but for a drift. */
  ghost predicate Midway(g: Roll, t: Tally, x: Name, c: Ballot, l: Drift, l': Ballot)
    requires Fits(g, t)
  {
    TalliedBut(t, With(g, t, x, c), l, l')
  }

  lemma StoredIsWith(g: Roll, t: Tally, x: Name, v: Voter, g': Roll)
    requires Fits(g, t) && Fits(g', t) && x in g.voters && g'.voters == g.voters[x := v]
    ensures Cast(g', t) == With(g, t, x, BallotOf(v, t.last[x]))
  {
  }

  lemma CastIsWith(g: Roll, t: Tally, x: Name)
    requires Fits(g, t) && x in g.voters
    ensures Cast(g, t) == With(g, t, x, BallotOf(g.voters[x], t.last[x]))
  {
  }

  lemma WithRow(g: Roll, t: Tally, x: Name, c: Ballot, c': Ballot, t': Tally)
    requires Fits(g, t) && Fits(g, t') && x in g.voters && (forall y <- g.voters :: y != x ==> t'.last[y] == t.last[y])
    ensures x in With(g, t, x, c) && With(g, t, x, c)[x] == c
    ensures With(g, t', x, c') == With(g, t, x, c)[x := c']
  {
  }

  lemma WithNonNegative(g: Roll, t: Tally, x: Name, c: Ballot, c': Ballot)
    requires Fits(g, t) && x in g.voters && NonNegative(With(g, t, x, c))
    ensures c.NonNegative() && (c'.NonNegative() ==> NonNegative(With(g, t, x, c')))
  {
    hide Ballot.NonNegative;
    assert With(g, t, x, c)[x] == c;
    forall y <- g.voters | y != x ensures With(g, t, x, c')[y].NonNegative() {
      assert With(g, t, x, c)[y].NonNegative();
    }
  }

  /** Changing what `x` entrusts to `q` by `d`, and nothing else, moves that one tally. */
  lemma EntrustedTally(g: Roll, t: Tally, x: Name, c: Ballot, c': Ballot, q: Name, d: real, l: Drift)
    requires Fits(g, t) && x in g.voters && q in g.voters && Midway(g, t, x, c, l, NOTHING)
    requires forall p :: c'.ToProducer(p) == c.ToProducer(p)
    requires forall a :: c'.ToProxy(a) == c.ToProxy(a) + if a == q then d else 0.0
    ensures Fits(g, AddProxied(t, q, d)) && Midway(g, AddProxied(t, q, d), x, c', l, NOTHING)
    ensures With(g, AddProxied(t, q, d), x, c') == With(g, t, x, c')
  {
    hide RealSum, VotesFor, EntrustedTo, With, Ballot.ToProducer, Ballot.ToProxy;
    WithRow(g, t, x, c, c', AddProxied(t, q, d));
    WithRow(g, t, x, c, c', t);
    Recast(With(g, t, x, c), x, c');
  }

  /** ... after which the proxy's chain is brought up to date. */
  lemma PushMidway(g: Roll, t: Tally, x: Name, c: Ballot, q: Name, f: Scale, l: Drift)
    requires Shaped(g) && Fits(g, t) && x in g.voters && q in g.voters && Clear(g, q, x)
    requires Midway(g, t, x, c, l, NOTHING) && Propagate(g, t, q, f).Some?
    ensures var r := Propagate(g, t, q, f).value;
            && Midway(g, r, x, c, l, Dropped(g, t, q, f))
            && (NonNegative(With(g, t, x, c)) && Absorbs(l, Dropped(g, t, q, f)) ==> NonNegative(With(g, r, x, c)))
            && r.last[x] == t.last[x] && r.proxied[x] == t.proxied[x]
  {
    hide RealSum, VotesFor, EntrustedTo, TalliedBut, NonNegative, Propagate, Dropped, ShapedVoter, BallotOf, Shaped,
      Absorbs;
    var b := With(g, t, x, c);
    assert Drawn(g, t, b, {x});
    PropagateDrift(g, t, q, f, b, {x}, l);
    PropagateFrame(g, t, q, f, x);
    var r := Propagate(g, t, q, f).value;
    assert Overlay(g, r, b, {x}) == With(g, r, x, c);
  }

  lemma SameProducersRegistered(g: Roll, t: Tally, t': Tally)
    requires Registered(g, t) && t'.votes.Keys == t.votes.Keys
    ensures Registered(g, t')
  {
    forall x <- g.voters ensures AllRegistered(t', g.voters[x].producers) {
      RegisteredRow(g, t, x);
    }
  }

  /** The ballot of `x` with its proxy's part undone. */
  function Undone(v: Voter, last: real): Ballot {
    Ballot(None, 0.0, if v.proxy.None? then v.producers else [], last)
  }

  /** What is dropped while the old ballot is withdrawn, and while the new one is entrusted. */
  ghost function WithdrawDrop(g: Roll, t: Tally, x: Name, f: Scale): Ballot
    requires Shaped(g) && Fits(g, t) && x in g.voters
  {
    assert ShapedVoter(g, x);
    var proxy := g.voters[x].proxy;
    if t.last[x] > 0.0 && proxy.Some? then Dropped(g, AddProxied(t, proxy.value, -t.last[x]), proxy.value, f)
      else NOTHING
  }

  ghost function EntrustDrop(g: Roll, t: Tally, proxy: Option<Name>, w: real, f: Scale): Ballot
    requires Shaped(g) && Fits(g, t) && (proxy.Some? ==> proxy.value in g.voters)
  {
    if proxy.Some? && w >= 0.0 then Dropped(g, AddProxied(t, proxy.value, w), proxy.value, f) else NOTHING
  }

  lemma WithdrawTally(g: Roll, t: Tally, x: Name, f: Scale)
    requires Shaped(g) && Fits(g, t) && x in g.voters && Withdraw(g, t, x, f).Some?
    requires var c := BallotOf(g.voters[x], t.last[x]);
             Midway(g, t, x, c, NO_DRIFT, NOTHING) && NonNegative(With(g, t, x, c))
    ensures var r := Withdraw(g, t, x, f).value;
            var c' := Undone(g.voters[x], t.last[x]);
            && Midway(g, r, x, c', Of(WithdrawDrop(g, t, x, f)), NOTHING) && NonNegative(With(g, r, x, c'))
            && r.last[x] == t.last[x] && r.proxied[x] == t.proxied[x]
  {
    hide Shaped, ShapedVoter, Propagate, Dropped, NonNegative, TalliedBut, With, Clear, Of;
    var v := g.voters[x];
    var c, c' := BallotOf(v, t.last[x]), Undone(v, t.last[x]);
    WithNonNegative(g, t, x, c, c');
    if v.proxy.Some? {
      var q := v.proxy.value;
      ProxyHasRow(g, x);
      ProxyIsClear(g, x, q);
      UndoneContribution(v, t.last[x]);
      hide Ballot.ToProducer, Ballot.ToProxy;
      EntrustedTally(g, t, x, c, c', q, -t.last[x], NO_DRIFT);
      if t.last[x] > 0.0 {
        var t' := AddProxied(t, q, -t.last[x]);
        NothingAbsorbed(Dropped(g, t', q, f));
        PushMidway(g, t', x, c', q, f, NO_DRIFT);
        FirstDrift(g, Propagate(g, t', q, f).value, x, c', Dropped(g, t', q, f));
      } else {
        assert AddProxied(t, q, 0.0) == t;
        FirstDrift(g, t, x, c', NOTHING);
      }
    } else {
      FirstDrift(g, t, x, c', NOTHING);
    }
  }

  lemma FirstDrift(g: Roll, t: Tally, x: Name, c: Ballot, l: Ballot)
    requires Fits(g, t) && Midway(g, t, x, c, NO_DRIFT, l)
    ensures Midway(g, t, x, c, Of(l), NOTHING)
  {
    hide TalliedBut, With;
    JoinDrift(t, With(g, t, x, c), NO_DRIFT, l);
  }

  lemma NothingAbsorbed(l: Ballot)
    ensures Absorbs(NO_DRIFT, l)
  {
  }

  /** A proxy a voter may choose, or already follows, leads nowhere near the voter. */
  lemma ProxyIsClear(g: Roll, x: Name, q: Name)
    requires Shaped(g) && x in g.voters && q in g.voters && q != x
    requires g.voters[q].isProxy || g.voters[x].proxy == Some(q)
    ensures Clear(g, q, x)
  {
    assert ShapedVoter(g, x) && ShapedVoter(g, q);
  }

  lemma UndoneContribution(v: Voter, last: real)
    requires v.proxy.Some?
    ensures var c, c' := BallotOf(v, last), Undone(v, last);
            && (forall p :: c'.ToProducer(p) == c.ToProducer(p))
            && (forall a :: c'.ToProxy(a) == c.ToProxy(a) + if a == v.proxy.value then -last else 0.0)
  {
  }

  lemma EntrustTally(g: Roll, t: Tally, x: Name, c: Ballot, proxy: Option<Name>, w: real, f: Scale, l: Drift)
    requires Shaped(g) && Fits(g, t) && x in g.voters && c.proxy.None? && w >= 0.0
    requires Midway(g, t, x, c, l, NOTHING) && NonNegative(With(g, t, x, c))
    requires proxy.Some? ==> proxy.value in g.voters && Clear(g, proxy.value, x)
    requires Entrust(g, t, proxy, w, f).Some?
    ensures var r := Entrust(g, t, proxy, w, f).value;
            var c' := c.(proxy := proxy, toProxy := w);
            var l' := EntrustDrop(g, t, proxy, w, f);
            && Midway(g, r, x, c', l, l') && r.last[x] == t.last[x]
            && (Cancels(l, l') ==> NonNegative(With(g, r, x, c')))
  {
    hide Shaped, ShapedVoter, Propagate, Dropped, NonNegative, TalliedBut, With, Clear, Cancels;
    var c' := c.(proxy := proxy, toProxy := w);
    WithNonNegative(g, t, x, c, c');
    if proxy.Some? {
      var t' := AddProxied(t, proxy.value, w);
      EntrustedTally(g, t, x, c, c', proxy.value, w, l);
      PushMidway(g, t', x, c', proxy.value, f, l);
      CancelsAbsorbs(l, Dropped(g, t', proxy.value, f));
    } else {
      SameContribution(g, t, x, c, c', l);
    }
  }

  lemma CancelsAbsorbs(l: Drift, l': Ballot)
    ensures Cancels(l, l') ==> Absorbs(l, l')
  {
  }

  lemma SameContribution(g: Roll, t: Tally, x: Name, c: Ballot, c': Ballot, l: Drift)
    requires Fits(g, t) && x in g.voters && Midway(g, t, x, c, l, NOTHING)
    requires forall p :: c'.ToProducer(p) == c.ToProducer(p)
    requires forall a :: c'.ToProxy(a) == c.ToProxy(a)
    ensures Midway(g, t, x, c', l, NOTHING)
  {
    hide RealSum, VotesFor, EntrustedTo, With, Ballot.ToProducer, Ballot.ToProxy;
    WithRow(g, t, x, c, c', t);
    Recast(With(g, t, x, c), x, c');
  }

  /** Crediting the ballot's deltas finishes the count. It is right if and only if what was dropped on
      the way cancels out, and then the floor at zero is never met. */
  lemma CountTally(g: Roll, t: Tally, x: Name, c: Ballot, c': Ballot, d: map<Name, real>, l: Drift, l': Ballot)
    requires Fits(g, t) && x in g.voters && Midway(g, t, x, c, l, l') && c'.NonNegative()
    requires Reaches(t, l) && Addressed(t, l') && l.total == 0.0 && (Cancels(l, l') ==> NonNegative(With(g, t, x, c)))
    requires d.Keys <= t.votes.Keys
    requires forall p :: c'.ToProducer(p) == c.ToProducer(p) + if p in d then d[p] else 0.0
    requires forall a :: c'.ToProxy(a) == c.ToProxy(a)
    ensures var r := ApplyDeltas(t, d, true);
            && Fits(g, r)
            && (Tallied(r, With(g, r, x, c')) <==> Cancels(l, l'))
            && (Cancels(l, l') ==> NonNegative(With(g, r, x, c')) && r == ApplyDeltas(t, d, false))
  {
    hide RealSum, VotesFor, EntrustedTo, Tallied, TalliedBut, With, NonNegative, Cancels, Addressed, Reaches,
      Ballot.ToProducer, Ballot.ToProxy;
    var b := With(g, t, x, c);
    var r := ApplyDeltas(t, d, true);
    WithRow(g, t, x, c, c', t);
    WithRow(g, t, x, c, c', r);
    Recast(b, x, c');
    if Cancels(l, l') { WithNonNegative(g, t, x, c, c'); }
    DeltasTally(t, b, b[x := c'], d, l, l');
  }
}
