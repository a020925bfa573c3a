/** The blocks that tile one heap of the WASM allocator, as a sequence. A block is a four byte header
    and a payload; `size` counts payload bytes. */
module HeapBlocks {
  import opened Sums

  const MARKER := 4            // bytes of a header
  const ALLOC_BIT := 0x8000_0000

  datatype Block = Block(size: nat, live: bool) {
    function Stride(): nat { size + MARKER }
    /** The header word: the size, with the top bit set while the block is allocated. */
    function Header(): nat { size + if live then ALLOC_BIT else 0 }
    /** Block strides are multiples of eight bytes. */
    predicate Aligned() { size % 8 == 4 }
  }

  function Extent(bs: seq<Block>): nat {
    if bs == [] then 0 else bs[0].Stride() + Extent(bs[1..])
  }

  predicate AllAligned(bs: seq<Block>) { forall b <- bs :: b.Aligned() }

  predicate AllFree(bs: seq<Block>) { forall b <- bs :: !b.live }

  /** The live payloads, as (offset, size) pairs, when the first block starts at `o`. */
  function Live(bs: seq<Block>, o: nat): set<(nat, nat)> {
    if bs == [] then {} else
      (if bs[0].live then {(o + MARKER, bs[0].size)} else {}) + Live(bs[1..], o + bs[0].Stride())
  }

  // ---------------------------------------------------------------- tiling

  lemma {:induction false} ExtentConcat(a: seq<Block>, b: seq<Block>)
    ensures Extent(a + b) == Extent(a) + Extent(b)
  {
    if a == [] {
      assert a + b == b;
    } else {
      ExtentConcat(a[1..], b);
      assert (a + b)[1..] == a[1..] + b;
    }
  }

  lemma {:induction false} ExtentAligned(bs: seq<Block>)
    requires AllAligned(bs)
    ensures Extent(bs) % 8 == 0
  {
    if bs != [] {
      assert bs[0].Aligned();
      ExtentAligned(bs[1..]);
    }
  }

  lemma {:induction false} LiveConcat(a: seq<Block>, b: seq<Block>, o: nat)
    ensures Live(a + b, o) == Live(a, o) + Live(b, o + Extent(a))
  {
    if a == [] {
      assert a + b == b;
    } else {
      LiveConcat(a[1..], b, o + a[0].Stride());
      assert (a + b)[1..] == a[1..] + b;
    }
  }

  lemma {:induction false} LiveInside(bs: seq<Block>, o: nat, p: nat, n: nat)
    requires (p, n) in Live(bs, o)
    ensures o + MARKER <= p && p + n <= o + Extent(bs)
  {
    if !(bs[0].live && (p, n) == (o + MARKER, bs[0].size)) {
      LiveInside(bs[1..], o + bs[0].Stride(), p, n);
    }
  }

  lemma {:induction false} LiveSized(bs: seq<Block>, o: nat, p: nat, n: nat)
    requires AllAligned(bs) && (p, n) in Live(bs, o)
    ensures n > 0
  {
    if bs[0].live && (p, n) == (o + MARKER, bs[0].size) {
      assert bs[0].Aligned();
    } else {
      LiveSized(bs[1..], o + bs[0].Stride(), p, n);
    }
  }

  lemma {:induction false} LiveAligned(bs: seq<Block>, o: nat, p: nat, n: nat)
    requires AllAligned(bs) && o % 8 == 0 && (p, n) in Live(bs, o)
    ensures p % 8 == 4 && n % 8 == 4
  {
    assert bs[0].Aligned();
    if !(bs[0].live && (p, n) == (o + MARKER, bs[0].size)) {
      LiveAligned(bs[1..], o + bs[0].Stride(), p, n);
    }
  }

  lemma {:induction false} NoneLive(bs: seq<Block>, o: nat)
    requires AllFree(bs)
    ensures Live(bs, o) == {}
  {
    if bs != [] {
      assert !bs[0].live;
      NoneLive(bs[1..], o + bs[0].Stride());
    }
  }

  predicate Disjoint(p: nat, n: nat, q: nat, m: nat) { p + n <= q || q + m <= p }

  /** Live payloads never overlap; headers lie between them. */
  lemma {:induction false} LivePayloadsDisjoint(bs: seq<Block>, o: nat, p: nat, n: nat, q: nat, m: nat)
    requires (p, n) in Live(bs, o) && (q, m) in Live(bs, o) && (p, n) != (q, m)
    ensures Disjoint(p, n, q, m)
  {
    var first := (o + MARKER, bs[0].size);
    var rest := o + bs[0].Stride();
    if bs[0].live && (p, n) == first {
      LiveInside(bs[1..], rest, q, m);
    } else if bs[0].live && (q, m) == first {
      LiveInside(bs[1..], rest, p, n);
    } else {
      LivePayloadsDisjoint(bs[1..], rest, p, n, q, m);
    }
  }

  // ---------------------------------------------------------------- searching freed memory

  /** How far a free block of `size` bytes grows over the free blocks that follow it: the merge walk
      stops once `needed` bytes are there, at an allocated block, or at the end of the heap. */
  function Grow(size: nat, rest: seq<Block>, needed: nat): (r: (nat, nat))
    ensures r.1 <= |rest|
    ensures r.0 == size + Extent(rest[..r.1])
    ensures AllFree(rest[..r.1])
    decreases |rest|
  {
    if size < needed && rest != [] && !rest[0].live then
      var r := Grow(size + rest[0].Stride(), rest[1..], needed);
      assert rest[..r.1 + 1][1..] == rest[1..][..r.1];
      (r.0, r.1 + 1)
    else
      assert rest[..0] == [];
      (size, 0)
  }

  lemma {:induction false} GrowStops(size: nat, rest: seq<Block>, needed: nat)
    ensures var (have, used) := Grow(size, rest, needed);
            have < needed ==> used == |rest| || rest[used].live
    decreases |rest|
  {
    if size < needed && rest != [] && !rest[0].live {
      GrowStops(size + rest[0].Stride(), rest[1..], needed);
    }
  }

  lemma {:induction false} GrowAligned(size: nat, rest: seq<Block>, needed: nat)
    requires AllAligned(rest) && size % 8 == 4
    ensures Grow(size, rest, needed).0 % 8 == 4
    decreases |rest|
  {
    if size < needed && rest != [] && !rest[0].live {
      assert rest[0].Aligned();
      GrowAligned(size + rest[0].Stride(), rest[1..], needed);
    }
  }

  /** The block cut to size, and what is left of the merged run. */
  function Cut(have: nat, needed: nat): seq<Block>
    requires have >= needed && have % 8 == 4 && needed % 8 == 4
  {
    [Block(needed, true)] +
      if have > needed then CutAligned(have, needed); [Block(have - needed - MARKER, false)] else []
  }

  lemma CutAligned(have: nat, n: nat)
    requires have % 8 == 4 && n % 8 == 4 && have > n
    ensures have >= n + 8 && (have - n - MARKER) % 8 == 4
  {
    var a, b := have / 8, n / 8;
    assert have == 8 * a + 4 && n == 8 * b + 4;
    assert have - n - MARKER == 8 * (a - b - 1) + 4;
  }

  lemma CutBlocksAligned(have: nat, needed: nat)
    requires have >= needed && have % 8 == 4 && needed % 8 == 4
    ensures AllAligned(Cut(have, needed))
  {
    if have > needed { CutAligned(have, needed); }
  }

  datatype Found = Found(at: Option<nat>, blocks: seq<Block>)

  /** `malloc_from_freed`: first fit over the merged free runs, first block at offset `o`. The runs
      that turn out too small stay merged. */
  function FromFreed(bs: seq<Block>, o: nat, needed: nat): (r: Found)
    requires AllAligned(bs) && needed % 8 == 4
    ensures AllAligned(r.blocks)
    decreases |bs|
  {
    if bs == [] then Found(None, []) else
      assert bs[0].Aligned();
      if bs[0].live then
        var r := FromFreed(bs[1..], o + bs[0].Stride(), needed);
        Found(r.at, [bs[0]] + r.blocks)
      else
        var (have, used) := Grow(bs[0].size, bs[1..], needed);
        GrowAligned(bs[0].size, bs[1..], needed);
        var rest := bs[1 + used..];
        if have >= needed then
          CutBlocksAligned(have, needed);
          Found(Some(o + MARKER), Cut(have, needed) + rest)
        else
          var r := FromFreed(rest, o + have + MARKER, needed);
          Found(r.at, [Block(have, false)] + r.blocks)
  }

  lemma CutExtent(have: nat, needed: nat, o: nat)
    requires have >= needed && have % 8 == 4 && needed % 8 == 4
    ensures Extent(Cut(have, needed)) == have + MARKER
    ensures Live(Cut(have, needed), o) == {(o + MARKER, needed)}
  {
    var a := [Block(needed, true)];
    if have > needed {
      var b := [Block(have - needed - MARKER, false)];
      assert Cut(have, needed) == a + b;
      ExtentConcat(a, b);
      LiveConcat(a, b, o);
    } else {
      assert Cut(have, needed) == a;
    }
  }

  /** A free block and the free blocks merged into it. */
  lemma MergedRun(bs: seq<Block>, o: nat, needed: nat)
    requires bs != [] && !bs[0].live
    ensures var (have, used) := Grow(bs[0].size, bs[1..], needed);
            && bs == bs[..1 + used] + bs[1 + used..]
            && AllFree(bs[..1 + used])
            && Extent(bs[..1 + used]) == have + MARKER
            && Live(bs, o) == Live(bs[1 + used..], o + have + MARKER)
  {
    var (have, used) := Grow(bs[0].size, bs[1..], needed);
    var run, rest := bs[..1 + used], bs[1 + used..];
    assert run[1..] == bs[1..][..used];
    assert bs == run + rest;
    forall b <- run ensures !b.live {
      if b != bs[0] { assert b in run[1..]; }
    }
    NoneLive(run, o);
    LiveConcat(run, rest, o);
  }

  /** What the search promises: the tiling stays exact, every live payload stays where it is, and what
      it returns is a new live payload of exactly `needed` bytes. */
  ghost predicate SearchKeeps(bs: seq<Block>, o: nat, needed: nat, r: Found) {
    && Extent(r.blocks) == Extent(bs)
    && (r.at.None? ==> Live(r.blocks, o) == Live(bs, o))
    && (r.at.Some? ==>
          && Live(r.blocks, o) == Live(bs, o) + {(r.at.value, needed)}
          && (r.at.value, needed) !in Live(bs, o)
          && o + MARKER <= r.at.value && r.at.value + needed <= o + Extent(bs))
  }

  lemma SearchPast(head: seq<Block>, head': seq<Block>, rest: seq<Block>, o: nat, needed: nat, r: Found)
    requires Extent(head') == Extent(head) && Live(head', o) == Live(head, o)
    requires SearchKeeps(rest, o + Extent(head), needed, r)
    ensures SearchKeeps(head + rest, o, needed, Found(r.at, head' + r.blocks))
  {
    hide Extent, Live;
    ExtentConcat(head, rest);
    LiveConcat(head, rest, o);
    ExtentConcat(head', r.blocks);
    LiveConcat(head', r.blocks, o);
    if r.at.Some? && (r.at.value, needed) in Live(head, o) {
      LiveInside(head, o, r.at.value, needed);
    }
  }

  lemma SearchTakes(run: seq<Block>, rest: seq<Block>, o: nat, have: nat, needed: nat)
    requires AllFree(run) && Extent(run) == have + MARKER
    requires have >= needed && have % 8 == 4 && needed % 8 == 4
    ensures SearchKeeps(run + rest, o, needed, Found(Some(o + MARKER), Cut(have, needed) + rest))
  {
    hide Extent, Live, Cut;
    NoneLive(run, o);
    ExtentConcat(run, rest);
    LiveConcat(run, rest, o);
    CutExtent(have, needed, o);
    ExtentConcat(Cut(have, needed), rest);
    LiveConcat(Cut(have, needed), rest, o);
    if (o + MARKER, needed) in Live(rest, o + have + MARKER) {
      LiveInside(rest, o + have + MARKER, o + MARKER, needed);
    }
  }

  lemma OneBlock(b: Block, o: nat)
    ensures Extent([b]) == b.Stride() && Live([b], o) == if b.live then {(o + MARKER, b.size)} else {}
  {
  }

  lemma {:induction false} FromFreedLive(bs: seq<Block>, o: nat, needed: nat)
    requires AllAligned(bs) && needed % 8 == 4
    ensures SearchKeeps(bs, o, needed, FromFreed(bs, o, needed))
    decreases |bs|
  {
    hide Extent, Live, Grow, SearchKeeps, Cut;
    if bs == [] {
      SearchEmpty(o, needed);
    } else if bs[0].live {
      FromFreedLive(bs[1..], o + bs[0].Stride(), needed);
      OneBlock(bs[0], o);
      assert bs == [bs[0]] + bs[1..];
      SearchPast([bs[0]], [bs[0]], bs[1..], o, needed, FromFreed(bs[1..], o + bs[0].Stride(), needed));
    } else {
      MergedRun(bs, o, needed);
      assert bs[0].Aligned();
      GrowAligned(bs[0].size, bs[1..], needed);
      var (have, used) := Grow(bs[0].size, bs[1..], needed);
      var run, rest := bs[..1 + used], bs[1 + used..];
      if have >= needed {
        SearchTakes(run, rest, o, have, needed);
      } else {
        FromFreedLive(rest, o + have + MARKER, needed);
        OneBlock(Block(have, false), o);
        NoneLive(run, o);
        SearchPast(run, [Block(have, false)], rest, o, needed, FromFreed(rest, o + have + MARKER, needed));
      }
    }
  }

  lemma SearchEmpty(o: nat, needed: nat)
    ensures SearchKeeps([], o, needed, Found(None, []))
  {
  }

  // ---------------------------------------------------------------- completeness of the search

  /** A run of adjacent free blocks that, merged, holds `needed` bytes. */
  ghost predicate Holds(run: seq<Block>, needed: nat) {
    run != [] && AllFree(run) && Extent(run) >= needed + MARKER
  }

  ghost predicate CanHold(bs: seq<Block>, needed: nat) {
    exists i, j :: 0 <= i < j <= |bs| && Holds(bs[i..j], needed)
  }

  lemma ExtentSlice(bs: seq<Block>, i: nat, j: nat, k: nat)
    requires i <= j <= k <= |bs|
    ensures Extent(bs[i..j]) <= Extent(bs[..k])
  {
    ExtentConcat(bs[..i], bs[i..j]);
    ExtentConcat(bs[..j], bs[j..k]);
    assert bs[..j] == bs[..i] + bs[i..j];
    assert bs[..k] == bs[..j] + bs[j..k];
  }

  /** Skipping blocks that no holding run can use loses nothing. */
  lemma CanHoldSkip(bs: seq<Block>, k: nat, needed: nat)
    requires k <= |bs|
    requires forall i, j :: 0 <= i < j <= |bs| && i < k ==> !Holds(bs[i..j], needed)
    ensures CanHold(bs, needed) <==> CanHold(bs[k..], needed)
  {
    if CanHold(bs, needed) {
      var i, j :| 0 <= i < j <= |bs| && Holds(bs[i..j], needed);
      assert bs[k..][i - k..j - k] == bs[i..j];
    }
    if CanHold(bs[k..], needed) {
      var i, j :| 0 <= i < j <= |bs[k..]| && Holds(bs[k..][i..j], needed);
      assert bs[k..][i..j] == bs[i + k..j + k];
    }
  }

  /** The search succeeds if and only if some run of adjacent free blocks holds the request. */
  lemma {:induction false} FromFreedComplete(bs: seq<Block>, o: nat, needed: nat)
    requires AllAligned(bs) && needed % 8 == 4
    ensures FromFreed(bs, o, needed).at.Some? <==> CanHold(bs, needed)
    decreases |bs|
  {
    hide Grow, Extent, Cut;
    if bs != [] {
      if bs[0].live {
        forall i, j | 0 <= i < j <= |bs| && i < 1 ensures !Holds(bs[i..j], needed) {
          assert bs[0] in bs[i..j];
        }
        CanHoldSkip(bs, 1, needed);
        FromFreedComplete(bs[1..], o + bs[0].Stride(), needed);
      } else {
        MergedRun(bs, o, needed);
        var (have, used) := Grow(bs[0].size, bs[1..], needed);
        if have >= needed {
          assert bs[0..1 + used] == bs[..1 + used];
          assert Holds(bs[0..1 + used], needed);
        } else {
          GrowStops(bs[0].size, bs[1..], needed);
          forall i, j | 0 <= i < j <= |bs| && i < 1 + used ensures !Holds(bs[i..j], needed) {
            if j > 1 + used {
              assert bs[1 + used] in bs[i..j];
            } else {
              ExtentSlice(bs, i, j, 1 + used);
            }
          }
          CanHoldSkip(bs, 1 + used, needed);
          FromFreedComplete(bs[1 + used..], o + have + MARKER, needed);
        }
      }
    }
  }

  /** No run of adjacent free blocks that starts before block `k` holds the request. */
  ghost predicate NoneBefore(bs: seq<Block>, k: nat, needed: nat) {
    forall i, j :: 0 <= i < j <= |bs| && i < k ==> !Holds(bs[i..j], needed)
  }

  /** What is known of the blocks after `m` of which no run holds, is known of all. */
  lemma NoneBeforeSkip(bs: seq<Block>, m: nat, k: nat, needed: nat)
    requires m <= |bs| && NoneBefore(bs, m, needed) && NoneBefore(bs[m..], k, needed)
    ensures NoneBefore(bs, m + k, needed)
  {
    forall i, j | 0 <= i < j <= |bs| && i < m + k ensures !Holds(bs[i..j], needed) {
      if i >= m { assert bs[m..][i - m..j - m] == bs[i..j]; }
    }
  }

  /** The search is first fit: what it returns starts where the first run that holds the request starts. */
  lemma {:induction false} FromFreedFirst(bs: seq<Block>, o: nat, needed: nat) returns (k: nat, l: nat)
    requires AllAligned(bs) && needed % 8 == 4 && FromFreed(bs, o, needed).at.Some?
    ensures k < l <= |bs| && Holds(bs[k..l], needed) && NoneBefore(bs, k, needed)
    ensures FromFreed(bs, o, needed).at == Some(o + Extent(bs[..k]) + MARKER)
    decreases |bs|
  {
    hide Grow, Extent, Cut;
    if bs[0].live {
      forall i, j | 0 <= i < j <= |bs| && i < 1 ensures !Holds(bs[i..j], needed) {
        assert bs[0] in bs[i..j];
      }
      k, l := FromFreedFirst(bs[1..], o + bs[0].Stride(), needed);
      k, l := FoundLater(bs, [bs[0]], k, l, needed);
      OneBlock(bs[0], o);
    } else {
      MergedRun(bs, o, needed);
      var (have, used) := Grow(bs[0].size, bs[1..], needed);
      if have >= needed {
        assert bs[0..1 + used] == bs[..1 + used];
        k, l := 0, 1 + used;
        EmptyExtent(bs);
      } else {
        GrowStops(bs[0].size, bs[1..], needed);
        forall i, j | 0 <= i < j <= |bs| && i < 1 + used ensures !Holds(bs[i..j], needed) {
          if j > 1 + used {
            assert bs[1 + used] in bs[i..j];
          } else {
            ExtentSlice(bs, i, j, 1 + used);
          }
        }
        k, l := FromFreedFirst(bs[1 + used..], o + have + MARKER, needed);
        k, l := FoundLater(bs, bs[..1 + used], k, l, needed);
      }
    }
  }

  lemma EmptyExtent(bs: seq<Block>)
    ensures Extent(bs[..0]) == 0
  {
  }

  /** A run found in the blocks after `head`. */
  lemma FoundLater(bs: seq<Block>, head: seq<Block>, k: nat, l: nat, needed: nat) returns (k': nat, l': nat)
    requires head <= bs && NoneBefore(bs, |head|, needed)
    requires var rest := bs[|head|..]; k < l <= |rest| && Holds(rest[k..l], needed) && NoneBefore(rest, k, needed)
    ensures k' == |head| + k && l' == |head| + l && l' <= |bs|
    ensures Holds(bs[k'..l'], needed) && NoneBefore(bs, k', needed)
    ensures Extent(bs[..k']) == Extent(head) + Extent(bs[|head|..][..k])
  {
    hide Extent;
    k', l' := |head| + k, |head| + l;
    assert bs[|head|..][k..l] == bs[k'..l'];
    NoneBeforeSkip(bs, |head|, k, needed);
    assert bs[..k'] == head + bs[|head|..][..k];
    ExtentConcat(head, bs[|head|..][..k]);
  }

  /** A search that failed leaves blocks that still cannot hold the request. */
  lemma {:induction false} FromFreedFails(bs: seq<Block>, o: nat, needed: nat)
    requires AllAligned(bs) && needed % 8 == 4 && FromFreed(bs, o, needed).at.None?
    ensures FromFreed(FromFreed(bs, o, needed).blocks, o, needed).at.None?
    decreases |bs|
  {
    hide Extent, Cut, AllFree, Grow;
    if bs != [] {
      var r := FromFreed(bs, o, needed).blocks;
      if bs[0].live {
        FromFreedFails(bs[1..], o + bs[0].Stride(), needed);
        assert r[1..] == FromFreed(bs[1..], o + bs[0].Stride(), needed).blocks;
      } else {
        var (have, used) := Grow(bs[0].size, bs[1..], needed);
        var rest := bs[1 + used..];
        var tail := FromFreed(rest, o + have + MARKER, needed).blocks;
        FromFreedFails(rest, o + have + MARKER, needed);
        GrowStops(bs[0].size, bs[1..], needed);
        assert tail == [] || tail[0].live;
        GrowAtLive(have, tail, needed);
        assert r[1..] == tail;
      }
    }
  }

  lemma GrowAtLive(size: nat, rest: seq<Block>, needed: nat)
    requires rest == [] || rest[0].live
    ensures Grow(size, rest, needed) == (size, 0) && rest[0..] == rest
  {
  }
}
