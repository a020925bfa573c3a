/** Resizing a block in place (`memory::realloc_in_place`). */
module HeapRealloc {
  import opened HeapBlocks
  import opened HeapMemory

  /** The blocks after the one with payload `p`. */
  ghost function After(bs: seq<Block>, o: nat, p: nat): seq<Block>
    decreases |bs|
  {
    if bs == [] then [] else if o + MARKER == p then bs[1..] else After(bs[1..], o + bs[0].Stride(), p)
  }

  /** A live payload splits the blocks in two. */
  lemma {:induction false} SplitAt(bs: seq<Block>, o: nat, p: nat, m: nat) returns (pre: seq<Block>, post: seq<Block>)
    requires (p, m) in Live(bs, o) && m > 0
    ensures bs == pre + [Block(m, true)] + post && p == o + Extent(pre) + MARKER && post == After(bs, o, p)
    decreases |bs|
  {
    var rest := o + bs[0].Stride();
    if bs[0].live && (p, m) == (o + MARKER, bs[0].size) {
      pre, post := [], bs[1..];
      assert bs == [] + [bs[0]] + bs[1..];
    } else {
      LiveInside(bs[1..], rest, p, m);
      var pre', post' := SplitAt(bs[1..], rest, p, m);
      pre, post := [bs[0]] + pre', post';
      ExtentConcat([bs[0]], pre');
      OneBlock(bs[0], o);
      assert bs == [bs[0]] + bs[1..];
    }
  }

  /** The merge walk is bounded by the end of the heap, not by the end of its tiled part. It runs off the
      tiled part when the blocks after the one to grow are all free and still too small. */
  predicate RunsOff(m: nat, post: seq<Block>, n: nat) {
    var (have, used) := Grow(m, post, n);
    post != [] && have < n && used == |post|
  }

  /** Only the payloads in `others`, and the first `n` bytes at `p`, have to survive a resize. */
  function Survivors(others: set<(nat, nat)>, p: nat, n: nat): set<(nat, nat)> { others + {(p, n)} }

  function Min(a: nat, b: nat): nat { if a < b then a else b }

  // ---------------------------------------------------------------- resizing

  /** The live payloads around one live block. */
  lemma Around(pre: seq<Block>, m: nat, post: seq<Block>)
    ensures var p := Extent(pre) + MARKER;
            var others := Live(pre, 0) + Live(post, p + m);
            && Live(pre + [Block(m, true)] + post, 0) == others + {(p, m)}
            && Extent(pre + [Block(m, true)] + post) == p + m + Extent(post)
            && (m > 0 ==> (p, m) !in others)
  {
    hide Extent, Live;
    var b := [Block(m, true)];
    var p := Extent(pre) + MARKER;
    LiveConcat(pre + b, post, 0);
    LiveConcat(pre, b, 0);
    ExtentConcat(pre + b, post);
    ExtentConcat(pre, b);
    OneBlock(Block(m, true), Extent(pre));
    if m > 0 && (p, m) in Live(pre, 0) { LiveInside(pre, 0, p, m); }
    if m > 0 && (p, m) in Live(post, p + m) { LiveInside(post, p + m, p, m); }
  }

  /** Writes confined to the addresses from the header at `Extent(pre)` up to `end` keep the payloads
      before and after, and what they leave alone of the payload itself. */
  lemma KeptAround(w: Words, w': Words, pre: seq<Block>, post: seq<Block>, end: nat, keep: nat)
    requires Agree(w, w', 0, Extent(pre)) && Agree(w, w', end, end + Extent(post))
    requires Agree(w, w', Extent(pre) + MARKER, Extent(pre) + MARKER + keep)
    ensures PayloadsKept(w, w', Survivors(Live(pre, 0) + Live(post, end), Extent(pre) + MARKER, keep))
  {
    hide Extent, Live;
    var all := Survivors(Live(pre, 0) + Live(post, end), Extent(pre) + MARKER, keep);
    forall p, n, k | (p, n) in all && p <= k < p + n && k in w ensures k in w' && w'[k] == w[k] {
      if (p, n) in Live(pre, 0) {
        LiveInside(pre, 0, p, n);
      } else if (p, n) in Live(post, end) {
        LiveInside(post, end, p, n);
      }
    }
  }

  /** What a resize from `m` to `n` bytes promises about the other payloads and about its own. */
  ghost predicate Resized(bs: seq<Block>, bs': seq<Block>, w: Words, w': Words, p: nat, m: nat, n: nat) {
    && Live(bs', 0) == Live(bs, 0) - {(p, m)} + {(p, if n < m then m else n)}
    && PayloadsKept(w, w', Survivors(Live(bs, 0) - {(p, m)}, p, Min(m, n)))
  }

  /** Shrinking writes a header into the part given up, but the block keeps its old size. */
  lemma ShrinkTiles(w: Words, bs: seq<Block>, pre: seq<Block>, post: seq<Block>, m: nat, n: nat, v: Word)
    requires bs == pre + [Block(m, true)] + post && Tiled(w, 0, bs) && n < m
    ensures var p := Extent(pre) + MARKER;
            Tiled(w[p + n := v], 0, bs) && Resized(bs, bs, w, w[p + n := v], p, m, n)
  {
    hide Extent, Live, Tiled;
    var p := Extent(pre) + MARKER;
    Around(pre, m, post);
    StoreTiles(w, bs, 0, p, m, n, v);
    KeptAround(w, w[p + n := v], pre, post, p + m, n);
  }

  /** The last block of the tiled part can change its size freely. */
  lemma LastTiles(w: Words, pre: seq<Block>, m: nat, n: nat)
    requires Tiled(w, 0, pre + [Block(m, true)]) && AllAligned(pre + [Block(m, true)]) && n % 8 == 4 && n < ALLOC_BIT
    requires m <= n
    ensures var hd := Extent(pre);
            && hd in w
            && var w' := w[hd := WithSize(w[hd], n)];
            && var bs' := pre + [Block(n, true)];
            && Tiled(w', 0, bs') && AllAligned(bs') && Extent(bs') == hd + MARKER + n
            && Resized(pre + [Block(m, true)], bs', w, w', hd + MARKER, m, n)
  {
    var b := [Block(m, true)];
    assert pre + b + [] == pre + b && pre + [Block(n, true)] + [] == pre + [Block(n, true)];
    HeaderAt(w, pre, m, []);
    Sizes(pre, m, [], w);
    assert Tiled(w, 0, pre) by { TiledConcat(w, 0, pre, b); }
    assert AllAligned(pre) by { AlignedParts(pre, b, []); }
    EmptyLive(Extent(pre) + MARKER + m, Extent(pre) + MARKER + n);
    hide Live, Tiled, AllAligned, Extent;
    var hd := Extent(pre);
    var w' := w[hd := WithSize(w[hd], n)];
    Appended(w, w', pre, Block(n, true));
    Around(pre, m, []);
    Around(pre, n, []);
    KeptAround(w, w', pre, [], hd + MARKER + n, m);
  }

  lemma EmptyLive(a: nat, b: nat)
    ensures Live([], a) == {} && Live([], b) == {} && Extent([]) == 0
  {
  }

  /** Growing over the free blocks that follow: the block is cut to size out of the merged run. */
  lemma GrowTiles(w: Words, pre: seq<Block>, m: nat, post: seq<Block>, n: nat, size: nat)
    requires var bs := pre + [Block(m, true)] + post;
             && Tiled(w, 0, bs) && AllAligned(bs) && Extent(bs) <= size < ALLOC_BIT
             && Backed(w, 0, size)
    requires n % 8 == 4 && m < n && Grow(m, post, n).0 >= n
    ensures var (have, used) := Grow(m, post, n);
            var hd := Extent(pre);
            && hd in w && have < ALLOC_BIT && have % 8 == 4 && (have > n ==> have > n + MARKER && hd + MARKER + n in w)
            && var w' := MergedWords(w, hd, have, n);
            && var bs' := pre + Cut(have, n) + post[used..];
            && Tiled(w', 0, bs') && AllAligned(bs') && Extent(bs') == Extent(pre + [Block(m, true)] + post)
            && Resized(pre + [Block(m, true)] + post, bs', w, w', hd + MARKER, m, n)
            && w'.Keys == w.Keys && Agree(w, w', Extent(pre + [Block(m, true)] + post), size)
  {
    hide Live, Tiled, Grow, MergedWords, AllAligned, AllFree, Extent, Agree, Backed, Resized, Cut;
    var (have, used) := Grow(m, post, n);
    var hd := Extent(pre);
    var run, rest := post[..used], post[used..];
    var b := [Block(m, true)];
    assert pre + b + post == pre + (b + run) + rest;
    GrowFits(w, pre, m, post, n, size);
    var w' := MergedWords(w, hd, have, n);
    CutWords(w, hd, have, m, n, hd + MARKER + have + Extent(rest));
    CutBlocksAligned(have, n);
    CutExtent(have, n, hd);
    TiledSplice(w, w', pre, b + run, Cut(have, n), rest);
    SpliceShape(pre, b + run, Cut(have, n), rest);
    GrowResizes(w, w', pre, m, post, n);
    CutWords(w, hd, have, m, n, size);
    AgreeFrom(w, w', hd + MARKER + have, Extent(pre + b + post), size);
  }

  lemma AgreeFrom(w: Words, w': Words, lo: nat, lo': nat, hi: nat)
    requires Agree(w, w', lo, hi) && lo <= lo'
    ensures Agree(w, w', lo', hi)
  {
  }

  /** A live block and the free run after it end inside the heap, at a multiple of eight. */
  lemma GrowFits(w: Words, pre: seq<Block>, m: nat, post: seq<Block>, n: nat, size: nat)
    requires var bs := pre + [Block(m, true)] + post;
             Tiled(w, 0, bs) && AllAligned(bs) && Extent(bs) <= size && Backed(w, 0, size)
    requires n % 8 == 4
    ensures var (have, used) := Grow(m, post, n);
            var hd := Extent(pre);
            && hd in w && w[hd] == Block(m, true).Header() && 0 < m
            && Extent([Block(m, true)] + post[..used]) == MARKER + have
            && hd + MARKER + have <= size && have % 8 == 4
            && (have > n ==> have > n + MARKER && hd + MARKER + n in w)
  {
    hide Live, Tiled, Grow, AllAligned, AllFree, Extent, Backed;
    var (have, used) := Grow(m, post, n);
    var b := [Block(m, true)];
    HeaderAt(w, pre, m, post);
    Sizes(pre, m, post, w);
    AlignedParts(pre, b, post);
    GrowAligned(m, post, n);
    assert post == post[..used] + post[used..];
    ExtentConcat(post[..used], post[used..]);
    ExtentConcat(b, post[..used]);
    OneBlock(b[0], 0);
    if have > n { RoomToCut(w, Extent(pre), have, n, size); }
  }

  lemma HeaderAt(w: Words, pre: seq<Block>, m: nat, post: seq<Block>)
    requires Tiled(w, 0, pre + [Block(m, true)] + post)
    ensures Extent(pre) in w && w[Extent(pre)] == Block(m, true).Header()
  {
    var tail := [Block(m, true)] + post;
    assert pre + [Block(m, true)] + post == pre + tail;
    hide Extent, Tiled;
    SplitFacts(w, pre, tail);
  }

  lemma GrowResizes(w: Words, w': Words, pre: seq<Block>, m: nat, post: seq<Block>, n: nat)
    requires 0 < m < n && n % 8 == 4 && Grow(m, post, n).0 >= n && Grow(m, post, n).0 % 8 == 4
    requires var (have, used) := Grow(m, post, n);
             var hd := Extent(pre);
             && Agree(w, w', 0, hd) && Agree(w, w', hd + MARKER, hd + MARKER + m)
             && Agree(w, w', hd + MARKER + have, hd + MARKER + have + Extent(post[used..]))
    ensures var (have, used) := Grow(m, post, n);
            Resized(pre + [Block(m, true)] + post, pre + Cut(have, n) + post[used..], w, w', Extent(pre) + MARKER, m, n)
  {
    hide Live, Extent, Grow, Agree;
    var (have, used) := Grow(m, post, n);
    var p := Extent(pre) + MARKER;
    var run, rest := post[..used], post[used..];
    assert post == run + rest;
    Around(pre, m, post);
    NoneLive(run, p + m);
    LiveConcat(run, rest, p + m);
    LiveConcat(pre + Cut(have, n), rest, 0);
    LiveConcat(pre, Cut(have, n), 0);
    ExtentConcat(pre, Cut(have, n));
    CutExtent(have, n, Extent(pre));
    KeptAround(w, w', pre, rest, p + have, m);
  }

  lemma CutWords(w: Words, hd: nat, have: nat, m: nat, n: nat, hi: nat)
    requires hd in w && IsAlloc(w[hd]) && m < n && n <= have < ALLOC_BIT && have % 8 == 4 && n % 8 == 4
    requires have > n ==> have > n + MARKER && hd + MARKER + n in w
    ensures var w' := MergedWords(w, hd, have, n);
            && Tiled(w', hd, Cut(have, n)) && w'.Keys == w.Keys
            && Agree(w, w', 0, hd) && Agree(w, w', hd + MARKER + have, hi) && Agree(w, w', hd + MARKER, hd + MARKER + m)
  {
    hide SizeOf, Live, Extent;
    var w' := MergedWords(w, hd, have, n);
    if have > n {
      var b := Block(have - n - MARKER, false);
      assert Cut(have, n)[1..] == [b];
      assert Tiled(w', hd + n + MARKER, [b]);
    }
  }

  // ---------------------------------------------------------------- 32 bit wrap-around

  /** Subtraction of unsigned 32 bit numbers. */
  function Minus(a: nat, b: nat): int { if a >= b then a - b else a + WORD_LIMIT - b }

  /** Whether a payload at address `ptr` can have `n` bytes in a heap that ends at `end`, as
      `realloc_in_place` asks it. */
  predicate PassesFitTest(ptr: nat, n: nat, end: nat) { ptr <= Minus(end, n) }

  /** The test is right exactly when the request is not larger than the address where the heap ends; any
      larger request passes. */
  lemma FitTestIsExact(ptr: nat, n: nat, end: nat)
    requires ptr <= end < WORD_LIMIT && n < WORD_LIMIT
    ensures (PassesFitTest(ptr, n, end) <==> ptr + n <= end) <==> n <= end
  {
  }

  // ---------------------------------------------------------------- realloc_in_place

  /** The last block asks for more than the address where its heap ends: the fit test wraps around. */
  ghost predicate FitWraps(h: Heap, post: seq<Block>, n: nat)
    reads h
  {
    post == [] && n > h.start + h.size
  }

  /** The merge walk leaves the tiled part of a heap that goes on behind it. */
  ghost predicate WalkStrays(h: Heap, p: nat, m: nat, post: seq<Block>, n: nat)
    reads h
  {
    h.offset < h.size && RunsOff(m, post, n) && p + n <= h.size
  }

  /** The two ways in which a resize goes wrong are excluded. */
  ghost predicate Sane(h: Heap, p: nat, m: nat, post: seq<Block>, n: nat)
    reads h
  {
    !FitWraps(h, post, n) && !WalkStrays(h, p, m, post, n)
  }

  /** The headers in memory are those of the blocks `bs`, up to the offset, and that is inside the heap. */
  ghost predicate Describes(h: Heap, bs: seq<Block>)
    reads h
  {
    AllAligned(bs) && h.offset == Extent(bs) <= h.size && Tiled(h.words, 0, bs)
  }

  /** Whatever blocks one may think up to describe a heap, a live payload of theirs ends within the tiled part. */
  lemma NoBlocksFit(h: Heap, p: nat, n: nat)
    requires h.offset > h.size || p + n > h.offset
    ensures forall bs :: Describes(h, bs) ==> (p, n) !in Live(bs, 0)
  {
    hide Extent, Live, Tiled, AllAligned;
    forall bs | Describes(h, bs) ensures (p, n) !in Live(bs, 0) {
      if (p, n) in Live(bs, 0) { LiveInside(bs, 0, p, n); }
    }
  }

  /** `realloc_in_place` on the live block with payload `p` of `m` bytes. It reports the size the block had.
      A sane resize keeps the tiling, the other payloads and the common part of its own. Every other one
      claims success, and leaves a heap that no blocks describe of which the payload is one. */
  method ReallocInPlace(h: Heap, p: nat, n: nat, ghost m: nat, ghost pre: seq<Block>, ghost post: seq<Block>)
    returns (ok: bool, size: nat)
    requires h.Valid() && h.blocks == pre + [Block(m, true)] + post && p == Extent(pre) + MARKER && n % 8 == 4
    requires h.start + h.size < WORD_LIMIT && n < WORD_LIMIT
    modifies h`words, h`offset, h`blocks
    ensures size == m
    ensures old(Sane(h, p, m, post, n)) ==>
      && h.Valid()
      && (ok <==> p + n <= h.size && (n <= m || post == [] || Grow(m, post, n).0 >= n))
      && (ok ==> Resized(old(h.blocks), h.blocks, old(h.words), h.words, p, m, n))
      && (!ok ==> h.blocks == old(h.blocks) && h.words == old(h.words) && h.offset == old(h.offset))
      && (old(h.offset) == h.size ==> h.offset == h.size)
    ensures old(FitWraps(h, post, n)) ==> ok && h.offset == p + n > h.size
    ensures old(WalkStrays(h, p, m, post, n)) ==> ok && h.offset == old(h.offset) && p <= h.offset + MARKER < p + n
    ensures !old(Sane(h, p, m, post, n)) ==> forall bs :: Describes(h, bs) ==> (p, n) !in Live(bs, 0)
  {
    hide Extent, Live, Tiled, Grow, AllAligned, Resized, MergedWords, Cut, Backed, Zeroed, Walkable, WalkWords, Agree,
      Describes;
    assert pre + [Block(m, true)] + post == pre + ([Block(m, true)] + post);
    BlockThen(h.words, pre, Block(m, true), post);
    Sizes(pre, m, post, h.words);
    size := SizeOf(h.words[p - MARKER]);
    // a live payload lies inside its heap
    assert p + size <= h.size;
    if !PassesFitTest(h.start + p, n, h.start + h.size) {
      return false, size;
    }
    if size > n {
      BlockEnd(p - MARKER, n);
      BackedAt(h.words, p + n, h.size);
      var v := MarkFree(WithSize(h.words[p + n], size - n));
      ShrinkTiles(h.words, h.blocks, pre, post, m, n, v);
      WrittenBelow(h.words, p + n, v, h.offset, h.size);
      h.words := h.words[p + n := WithSize(h.words[p + n], size - n)];
      h.words := h.words[p + n := MarkFree(h.words[p + n])];
      assert h.words == old(h.words)[p + n := v];
      BackedSame(old(h.words), h.words, 0, h.size);
      ZeroedBeyond(old(h.words), h.words, h.offset, h.offset, h.size);
      return true, size;
    }
    if p + size == h.offset {
      assert pre + [Block(m, true)] + post == pre + [Block(m, true)];
      GrowLast(h, p, n, m, pre);
      if p + n > h.size { NoBlocksFit(h, p, n); }
      return true, size;
    }
    if n == size {
      Unchanged(pre, m, post, h.words);
      return true, size;
    }
    ok := GrowOver(h, p, n, m, pre, post);
    if p + n > h.offset { NoBlocksFit(h, p, n); }
  }

  /** The last block takes the new size, and the offset moves with it. */
  method GrowLast(h: Heap, p: nat, n: nat, ghost m: nat, ghost pre: seq<Block>)
    requires h.Valid() && h.blocks == pre + [Block(m, true)] && p == Extent(pre) + MARKER && n % 8 == 4
    requires m <= n < WORD_LIMIT
    requires h.offset == p + m && p - MARKER in h.words && h.words[p - MARKER] == Block(m, true).Header()
    modifies h`words, h`offset, h`blocks
    ensures h.offset == p + n
    ensures p + n <= h.size ==>
      h.Valid() && Resized(old(h.blocks), h.blocks, old(h.words), h.words, p, m, n)
  {
    hide Extent, Live, Tiled, AllAligned, Resized, Backed, Zeroed, Agree;
    if p + n <= h.size {
      LastTiles(h.words, pre, m, n);
      WrittenBelow(h.words, p - MARKER, WithSize(h.words[p - MARKER], n), p + n, h.size);
      h.blocks := pre + [Block(n, true)];
    }
    h.words := h.words[p - MARKER := WithSize(h.words[p - MARKER], n)];
    h.offset := p + n;
    BackedSame(old(h.words), h.words, 0, h.size);
    if p + n <= h.size { ZeroedBeyond(old(h.words), h.words, old(h.offset), h.offset, h.size); }
  }

  /** `merge_contiguous_if_available` on a live block that is not the last one. */
  method GrowOver(
    h: Heap, p: nat, n: nat, ghost m: nat, ghost pre: seq<Block>, ghost post: seq<Block>) returns (ok: bool)
    requires h.Valid() && h.blocks == pre + [Block(m, true)] + post && p == Extent(pre) + MARKER && n % 8 == 4
    requires m < n && post != []
    modifies h`words, h`blocks
    ensures !old(WalkStrays(h, p, m, post, n)) ==>
      && h.Valid() && (ok <==> p + n <= h.size && Grow(m, post, n).0 >= n)
      && (ok ==> Resized(old(h.blocks), h.blocks, old(h.words), h.words, p, m, n))
      && (!ok ==> h.blocks == old(h.blocks) && h.words == old(h.words))
    ensures old(WalkStrays(h, p, m, post, n)) ==> ok && p <= h.offset + MARKER < p + n
  {
    hide Extent, Live, Tiled, Grow, AllAligned, Resized, MergedWords, Cut, Backed, Zeroed, Walkable, WalkWords, Agree;
    assert pre + [Block(m, true)] + post == pre + ([Block(m, true)] + post);
    BlockThen(h.words, pre, Block(m, true), post);
    if h.size - p < n {
      return false;
    }
    if RunsOff(m, post, n) && h.offset < h.size {
      WalkRunsOff(h.words, pre, m, post, n, h.size);
    } else {
      WalkOverTiles(h.words, pre, Block(m, true), post, n, h.size);
    }
    var possible := h.Walk(p - MARKER, n);
    if possible < n {
      return false;
    }
    if !RunsOff(m, post, n) {
      GrowTiles(h.words, pre, m, post, n, h.size);
    }
    h.WriteMerged(p - MARKER, possible, n);
    if !RunsOff(m, post, n) {
      BackedSame(old(h.words), h.words, 0, h.size);
      ZeroedBeyond(old(h.words), h.words, h.offset, h.offset, h.size);
      ghost var (have, used) := Grow(m, post, n);
      h.blocks := pre + Cut(have, n) + post[used..];
    }
    return true;
  }

  lemma Sizes(pre: seq<Block>, m: nat, post: seq<Block>, w: Words)
    requires Tiled(w, 0, pre + [Block(m, true)] + post) && AllAligned(pre + [Block(m, true)] + post)
    ensures 0 < m < ALLOC_BIT && m % 8 == 4 && Extent(pre) % 8 == 0
    ensures Extent(pre + [Block(m, true)] + post) == Extent(pre) + MARKER + m + Extent(post)
    ensures Extent(post) == 0 <==> post == []
  {
    AlignedParts(pre, [Block(m, true)], post);
    assert [Block(m, true)][0].Aligned();
    ExtentAligned(pre);
    Around(pre, m, post);
    var tail := [Block(m, true)] + post;
    assert pre + [Block(m, true)] + post == pre + tail;
    SplitFacts(w, pre, tail);
  }

  lemma Unchanged(pre: seq<Block>, m: nat, post: seq<Block>, w: Words)
    requires m > 0
    ensures var bs := pre + [Block(m, true)] + post; Resized(bs, bs, w, w, Extent(pre) + MARKER, m, m)
  {
    hide Live, Extent;
    Around(pre, m, post);
  }

  // ---------------------------------------------------------------- running off

  lemma {:induction false} WalkOverFree(w: Words, at: nat, possible: nat, bs: seq<Block>, n: nat, size: nat)
    requires Tiled(w, at + possible, bs) && AllFree(bs) && possible + Extent(bs) < n
    requires at + possible + Extent(bs) <= size
    ensures WalkWords(w, at, possible, n, size) == WalkWords(w, at, possible + Extent(bs), n, size)
    ensures Walkable(w, at, possible + Extent(bs), n, size) ==> Walkable(w, at, possible, n, size)
    decreases |bs|
  {
    if bs != [] {
      assert !bs[0].live;
      WalkOverFree(w, at, possible + bs[0].Stride(), bs[1..], n, size);
    }
  }

  lemma {:induction false} WalkOverZeros(w: Words, at: nat, possible: nat, n: nat, size: nat)
    requires possible <= n && (at + possible) % 4 == 0 && (at + n) % 4 == 0 && at + n <= size
    requires Zeroed(w, at + possible, size)
    ensures WalkWords(w, at, possible, n, size) == n && Walkable(w, at, possible, n, size)
    decreases n - possible
  {
    if possible < n {
      assert at + possible in w && w[at + possible] == 0;
      WalkOverZeros(w, at, possible + MARKER, n, size);
    }
  }

  /** Behind the tiled part no word was ever written, so a walk that runs off always finds what it wants.
      The next block carved at the end of the tiled part lies inside what it found. */
  lemma WalkRunsOff(w: Words, pre: seq<Block>, m: nat, post: seq<Block>, n: nat, size: nat)
    requires var bs := pre + [Block(m, true)] + post;
             Tiled(w, 0, bs) && AllAligned(bs) && n % 8 == 4 && size % 8 == 0 && Zeroed(w, Extent(bs), size)
    requires RunsOff(m, post, n) && Extent(pre) + MARKER + n <= size
    ensures var p := Extent(pre) + MARKER;
            var offset := Extent(pre + [Block(m, true)] + post);
            && Walkable(w, p, m, n, size) && WalkWords(w, p, m, n, size) == n
            && p <= offset + MARKER < p + n
  {
    hide Live, Grow, Extent, Tiled, WalkWords, Walkable, AllAligned, AllFree, Zeroed;
    var p := Extent(pre) + MARKER;
    var (have, used) := Grow(m, post, n);
    assert post[..used] == post;
    Sizes(pre, m, post, w);
    assert have % 8 == 4 by {
      AlignedParts(pre, [Block(m, true)], post);
      GrowAligned(m, post, n);
    }
    assert pre + [Block(m, true)] + post == pre + ([Block(m, true)] + post);
    BlockThen(w, pre, Block(m, true), post);
    WalkOverFree(w, p, m, post, n, size);
    BlockEnd(Extent(pre), have);
    BlockEnd(Extent(pre), n);
    WalkOverZeros(w, p, have, n, size);
    CutAligned(n, have);
  }
}
