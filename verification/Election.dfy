/** Choosing the block producers: a walk over the index by votes that stops at the first row that may not
    be elected. */
module Election {
  import opened Sums
  import V = Voting
  import T = VotingTallies

  type Name = nat

  const MAX_PRODUCERS := 3

  datatype Producer = Producer(votes: real, active: bool) {
    /** The index key: active producers sort by falling votes, inactive ones by rising votes. */
    function Key(): real { if active then -votes else votes }
    predicate Eligible() { active && votes > 0.0 }
  }

  type Producers = map<Name, Producer>

  predicate Before(ps: Producers, a: Name, b: Name)
    requires a in ps && b in ps
  {
    ps[a].Key() < ps[b].Key() || (ps[a].Key() == ps[b].Key() && a < b)
  }

  /** The rows in index order: each exactly once, by key, then by name. */
  ghost predicate IsIndex(ps: Producers, idx: seq<Name>) {
    && (forall i :: 0 <= i < |idx| ==> idx[i] in ps)
    && (forall x <- ps :: x in idx)
    && (forall i, j :: 0 <= i < j < |idx| ==> Before(ps, idx[i], idx[j]))
  }

  ghost predicate NonNegativeVotes(ps: Producers) { forall x <- ps :: ps[x].votes >= 0.0 }

  /** The producer rows of the voting tables. */
  function ProducersOf(s: V.State): Producers
    requires s.active.Keys == s.tally.votes.Keys
  {
    map x | x in s.active :: Producer(s.tally.votes[x], s.active[x])
  }

  /** With exact tallies no producer has negative votes. */
  lemma TalliesElect(s: V.State)
    requires T.Inv(s)
    ensures NonNegativeVotes(ProducersOf(s))
  {
    hide T.VotesFor, T.EntrustedTo, T.NonNegative, RealSum;
    forall x <- s.tally.votes ensures s.tally.votes[x] >= 0.0 {
      T.TalliesNonNegative(T.Cast(s.roll, s.tally), x);
    }
  }

  /** Higher votes first; equal votes by name. */
  predicate Outranks(ps: Producers, a: Name, b: Name)
    requires a in ps && b in ps
  {
    ps[a].votes > ps[b].votes || (ps[a].votes == ps[b].votes && a < b)
  }

  /** `top` is the best `MAX_PRODUCERS` of all eligible producers, or all of them, best first. */
  ghost predicate IsTop(ps: Producers, top: seq<Name>) {
    && |top| <= MAX_PRODUCERS
    && (forall i :: 0 <= i < |top| ==> top[i] in ps && ps[top[i]].Eligible())
    && (forall i, j :: 0 <= i < j < |top| ==> Outranks(ps, top[i], top[j]))
    && (forall x <- ps :: ps[x].Eligible() && x !in top ==>
          |top| == MAX_PRODUCERS && forall i :: 0 <= i < |top| ==> Outranks(ps, top[i], x))
  }

  /** A row that may not be elected stands, among the first three, before one that may. */
  ghost predicate Blocked(ps: Producers, idx: seq<Name>)
    requires IsIndex(ps, idx)
  {
    exists i, j :: 0 <= i < j < |idx| && i < MAX_PRODUCERS && !ps[idx[i]].Eligible() && ps[idx[j]].Eligible()
  }

  /** Only an inactive producer with negative votes can stand there. */
  lemma BlockedByNegative(ps: Producers, idx: seq<Name>)
    requires IsIndex(ps, idx) && Blocked(ps, idx)
    ensures exists x <- ps :: !ps[x].active && ps[x].votes < 0.0
  {
    var i, j :| 0 <= i < j < |idx| && i < MAX_PRODUCERS && !ps[idx[i]].Eligible() && ps[idx[j]].Eligible();
    assert Before(ps, idx[i], idx[j]);
    assert idx[i] in ps && !ps[idx[i]].active && ps[idx[i]].votes < 0.0;
  }

  /** Among eligible rows the index goes by rank. */
  lemma IndexRanks(ps: Producers, idx: seq<Name>, i: nat, j: nat)
    requires IsIndex(ps, idx) && i < j < |idx| && ps[idx[i]].Eligible() && ps[idx[j]].Eligible()
    ensures Outranks(ps, idx[i], idx[j])
  {
    assert Before(ps, idx[i], idx[j]);
  }

  /** Stopping at the first row that may not be elected, or after three, yields the top producers if and only
      if no such row blocks the way to one that may. */
  lemma PrefixIsTop(ps: Producers, idx: seq<Name>, n: nat)
    requires IsIndex(ps, idx) && n <= |idx| && n <= MAX_PRODUCERS
    requires forall i :: 0 <= i < n ==> ps[idx[i]].Eligible()
    requires n == |idx| || n == MAX_PRODUCERS || !ps[idx[n]].Eligible()
    ensures IsTop(ps, idx[..n]) <==> !Blocked(ps, idx)
  {
    if Blocked(ps, idx) {
      var i, j :| 0 <= i < j < |idx| && i < MAX_PRODUCERS && !ps[idx[i]].Eligible() && ps[idx[j]].Eligible();
      assert n <= i && n < MAX_PRODUCERS;
      if idx[j] in idx[..n] {
        var k :| 0 <= k < n && idx[k] == idx[j];
        NotTwice(ps, idx, k, j);
      }
    } else {
      UnblockedIsTop(ps, idx, n);
    }
  }

  lemma NotTwice(ps: Producers, idx: seq<Name>, k: nat, j: nat)
    requires IsIndex(ps, idx) && k < j < |idx|
    ensures idx[k] != idx[j]
  {
    assert Before(ps, idx[k], idx[j]);
  }

  lemma InPrefix(idx: seq<Name>, n: nat, j: nat)
    requires n <= |idx| && j < |idx|
    ensures j < n ==> idx[j] in idx[..n]
  {
    if j < n { assert idx[..n][j] == idx[j]; }
  }

  lemma UnblockedIsTop(ps: Producers, idx: seq<Name>, n: nat)
    requires IsIndex(ps, idx) && n <= |idx| && n <= MAX_PRODUCERS && !Blocked(ps, idx)
    requires forall i :: 0 <= i < n ==> ps[idx[i]].Eligible()
    requires n == |idx| || n == MAX_PRODUCERS || !ps[idx[n]].Eligible()
    ensures IsTop(ps, idx[..n])
  {
    forall i, j | 0 <= i < j < n ensures Outranks(ps, idx[i], idx[j]) {
      IndexRanks(ps, idx, i, j);
    }
    forall x <- ps | ps[x].Eligible() && x !in idx[..n]
      ensures n == MAX_PRODUCERS && forall i :: 0 <= i < n ==> Outranks(ps, idx[i], x)
    {
      var j :| 0 <= j < |idx| && idx[j] == x;
      assert j >= n by { InPrefix(idx, n, j); }
      forall i | 0 <= i < n ensures Outranks(ps, idx[i], x) {
        IndexRanks(ps, idx, i, j);
      }
    }
  }

  /** With exact tallies nothing is ever in the way. */
  lemma ExactTalliesElect(s: V.State, idx: seq<Name>)
    requires T.Inv(s) && IsIndex(ProducersOf(s), idx)
    ensures !Blocked(ProducersOf(s), idx)
  {
    hide T.Inv;
    assert s.active.Keys == s.tally.votes.Keys by { SameRows(s); }
    TalliesElect(s);
    if Blocked(ProducersOf(s), idx) { BlockedByNegative(ProducersOf(s), idx); }
  }

  lemma SameRows(s: V.State)
    requires T.Inv(s)
    ensures s.active.Keys == s.tally.votes.Keys
  {
  }

  /** The election is determined: two top lists of the same producers are the same list. */
  lemma {:induction false} TopIsUnique(ps: Producers, a: seq<Name>, b: seq<Name>, i: nat)
    requires IsTop(ps, a) && IsTop(ps, b) && i < |a|
    ensures i < |b| && a[i] == b[i]
    decreases i
  {
    forall k: nat | k < i ensures k < |b| && a[k] == b[k] {
      TopIsUnique(ps, a, b, k);
    }
    if i > 0 { TopIsUnique(ps, a, b, i - 1); }
    if a[i] in b {
      var j :| 0 <= j < |b| && b[j] == a[i];
      if j > i {
        BestOfRest(ps, a, b, i);
      }
    } else {
      assert Outranks(ps, b[i], a[i]);
      BestOfRest(ps, a, b, i);
    }
  }

  /** Past a common beginning, nothing in `b` outranks the next of `a`. */
  lemma BestOfRest(ps: Producers, a: seq<Name>, b: seq<Name>, i: nat)
    requires IsTop(ps, a) && IsTop(ps, b) && i < |a| && i < |b|
    requires forall k :: 0 <= k < i ==> a[k] == b[k]
    ensures b[i] == a[i] || Outranks(ps, a[i], b[i])
  {
    if b[i] in a {
      var k :| 0 <= k < |a| && a[k] == b[i];
      assert k < i ==> Outranks(ps, b[k], b[i]);
    }
  }

  class Schedule {
    var lastSize: nat

    constructor ()
      ensures lastSize == 0
    {
      lastSize := 0;
    }

    /** `update_elected_producers`, over the index rows `idx`. `accepted` is the host's answer to the
        proposed schedule. The schedule never shrinks. */
    method Update(ps: Producers, idx: seq<Name>, accepted: bool) returns (top: seq<Name>)
      requires IsIndex(ps, idx)
      modifies this
      ensures IsTop(ps, top) <==> !Blocked(ps, idx)
      ensures top <= idx && forall x <- top :: ps[x].Eligible()
      ensures |top| == MAX_PRODUCERS || |top| == |idx| || !ps[idx[|top|]].Eligible()
      ensures lastSize == (if accepted && |top| >= old(lastSize) then |top| else old(lastSize))
      ensures lastSize >= old(lastSize)
    {
      top := [];
      while |top| < |idx| && |top| < MAX_PRODUCERS && ps[idx[|top|]].votes > 0.0 && ps[idx[|top|]].active
        invariant |top| <= |idx| && |top| <= MAX_PRODUCERS && top == idx[..|top|]
        invariant forall i :: 0 <= i < |top| ==> ps[idx[i]].Eligible()
        decreases |idx| - |top|
      {
        top := top + [idx[|top|]];
      }
      PrefixIsTop(ps, idx, |top|);
      if |top| < lastSize {
        return;
      }
      if accepted {
        lastSize := |top|;
      }
    }
  }
}
