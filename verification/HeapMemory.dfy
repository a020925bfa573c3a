/** One heap of the allocator (`memory_manager::memory`): headers are words kept inside the heap itself,
    next to the payloads, and are rewritten in place. Memory is addressed by byte offset from the start
    of the heap, one entry per four byte word. */
module HeapMemory {
  import opened Sums
  import opened HeapBlocks

  const WORD_LIMIT := 0x1_0000_0000

  type Word = w: nat | w < WORD_LIMIT
  type Words = map<nat, Word>

  // ---------------------------------------------------------------- header words

  function SizeOf(w: Word): nat { w % ALLOC_BIT }
  predicate IsAlloc(w: Word) { w >= ALLOC_BIT }

  /** Writes a size and keeps the allocation bit that was there; a size that reaches the top bit sets it. */
  function WithSize(w: Word, n: nat): Word
    requires n < WORD_LIMIT
  {
    if IsAlloc(w) && n < ALLOC_BIT then n + ALLOC_BIT else n
  }

  function MarkAlloc(w: Word): Word { if IsAlloc(w) then w else w + ALLOC_BIT }
  function MarkFree(w: Word): Word { if IsAlloc(w) then w - ALLOC_BIT else w }

  // ---------------------------------------------------------------- tiling

  /** The headers in memory, from offset `o` on, are those of the blocks `bs`. */
  ghost predicate Tiled(w: Words, o: nat, bs: seq<Block>)
    decreases |bs|
  {
    bs == [] || (o in w && w[o] == bs[0].Header() && bs[0].size < ALLOC_BIT && Tiled(w, o + bs[0].Stride(), bs[1..]))
  }

  lemma {:induction false} TiledConcat(w: Words, o: nat, a: seq<Block>, b: seq<Block>)
    ensures Tiled(w, o, a + b) <==> Tiled(w, o, a) && Tiled(w, o + Extent(a), b)
    decreases |a|
  {
    if a == [] {
      assert a + b == b;
    } else {
      TiledConcat(w, o + a[0].Stride(), a[1..], b);
      assert (a + b)[1..] == a[1..] + b;
    }
  }

  /** Every word between two offsets exists. */
  ghost predicate Backed(w: Words, lo: nat, hi: nat) {
    forall k :: lo <= k < hi && k % 4 == 0 ==> k in w
  }

  /** Every word between two offsets was never written. */
  ghost predicate Zeroed(w: Words, lo: nat, hi: nat) {
    forall k :: lo <= k < hi && k % 4 == 0 ==> k in w && w[k] == 0
  }

  lemma ZeroedBeyond(w: Words, w': Words, lo: nat, lo': nat, hi: nat)
    requires Zeroed(w, lo, hi) && lo <= lo' && Agree(w, w', lo', hi)
    ensures Zeroed(w', lo', hi)
  {
  }

  lemma WrittenBelow(w: Words, k: nat, v: Word, lo: nat, hi: nat)
    requires k < lo
    ensures Agree(w, w[k := v], lo, hi)
  {
  }

  lemma NothingZeroed(w: Words, hi: nat)
    ensures Zeroed(w, hi, hi)
  {
  }

  lemma BackedSame(w: Words, w': Words, lo: nat, hi: nat)
    requires Backed(w, lo, hi) && w.Keys <= w'.Keys
    ensures Backed(w', lo, hi)
  {
  }

  lemma Eights(q: nat)
    ensures (8 * q) % 8 == 0 && (8 * q) % 4 == 0
  {
  }

  lemma Fours(q: nat)
    ensures (4 * q) % 4 == 0
  {
  }

  /** A header position inside the heap, at a multiple of eight. */
  lemma BackedAt(w: Words, h: nat, size: nat)
    requires Backed(w, 0, size) && h % 8 == 0 && h < size
    ensures h in w
  {
    Eights(h / 8);
  }

  /** Where a block starting at a multiple of eight ends. */
  lemma BlockEnd(h: nat, n: nat)
    requires h % 8 == 0 && n % 8 == 4
    ensures (h + MARKER + n) % 8 == 0 && (h + MARKER + n) % 4 == 0
  {
    var a, b := h / 8, n / 8;
    assert h + MARKER + n == 8 * (a + b + 1);
    Eights(a + b + 1);
  }

  /** Cutting `n` bytes off a larger aligned run leaves room for a header, in memory that exists. */
  lemma RoomToCut(w: Words, h: nat, have: nat, n: nat, size: nat)
    requires h % 8 == 0 && have % 8 == 4 && n % 8 == 4 && have > n && h + MARKER + have <= size && Backed(w, 0, size)
    ensures have > n + MARKER && h + MARKER + n in w
  {
    CutAligned(have, n);
    BlockEnd(h, n);
    BackedAt(w, h + MARKER + n, size);
  }

  /** `w'` agrees with `w` between two offsets. */
  ghost predicate Agree(w: Words, w': Words, lo: nat, hi: nat) {
    forall k :: lo <= k < hi && k in w ==> k in w' && w'[k] == w[k]
  }

  lemma {:induction false} TiledFrame(w: Words, w': Words, o: nat, bs: seq<Block>)
    requires Tiled(w, o, bs) && Agree(w, w', o, o + Extent(bs))
    ensures Tiled(w', o, bs)
    decreases |bs|
  {
    if bs != [] {
      TiledFrame(w, w', o + bs[0].Stride(), bs[1..]);
    }
  }

  /** Replacing a middle segment by another of the same extent keeps the rest tiled. */
  lemma TiledSplice(w: Words, w': Words, a: seq<Block>, m: seq<Block>, m': seq<Block>, b: seq<Block>)
    requires Tiled(w, 0, a + m + b) && Extent(m') == Extent(m)
    requires Agree(w, w', 0, Extent(a)) && Agree(w, w', Extent(a) + Extent(m), Extent(a) + Extent(m) + Extent(b))
    requires Tiled(w', Extent(a), m')
    ensures Tiled(w', 0, a + m' + b)
  {
    hide Tiled, Extent;
    TiledConcat(w, 0, a + m, b);
    TiledConcat(w, 0, a, m);
    ExtentConcat(a, m);
    ExtentConcat(a, m');
    TiledFrame(w, w', 0, a);
    TiledFrame(w, w', Extent(a) + Extent(m), b);
    TiledConcat(w', 0, a + m', b);
    TiledConcat(w', 0, a, m');
  }

  /** No word of a live payload changed. */
  ghost predicate PayloadsKept(w: Words, w': Words, live: set<(nat, nat)>) {
    forall p, n, k :: (p, n) in live && p <= k < p + n && k in w ==> k in w' && w'[k] == w[k]
  }

  lemma PayloadsSame(w: Words, live: set<(nat, nat)>)
    ensures PayloadsKept(w, w, live)
  {
  }

  lemma PayloadsNone(w: Words, w': Words)
    ensures PayloadsKept(w, w', {})
  {
  }

  /** Writes that stay inside the extent of non-live blocks, or hit headers only, keep payloads. */
  lemma PayloadsOutside(w: Words, w': Words, a: seq<Block>, m: seq<Block>, b: seq<Block>)
    requires AllFree(m)
    requires Agree(w, w', 0, Extent(a)) && Agree(w, w', Extent(a) + Extent(m), Extent(a) + Extent(m) + Extent(b))
    ensures PayloadsKept(w, w', Live(a + m + b, 0))
  {
    hide Extent, Live;
    LiveConcat(a + m, b, 0);
    LiveConcat(a, m, 0);
    ExtentConcat(a, m);
    NoneLive(m, Extent(a));
    forall p, n, k | (p, n) in Live(a + m + b, 0) && p <= k < p + n && k in w
      ensures k in w' && w'[k] == w[k]
    {
      if (p, n) in Live(a, 0) {
        LiveInside(a, 0, p, n);
      } else {
        LiveInside(b, Extent(a) + Extent(m), p, n);
      }
    }
  }

  /** The free block made of the part of a heap that is not tiled yet, if any. */
  function Leftover(offset: nat, size: nat): seq<Block> {
    if offset + MARKER <= size then [Block(size - offset - MARKER, false)] else []
  }

  class Heap {
    var start: nat
    var inited: bool
    var size: nat
    var offset: nat
    var words: Words
    ghost var blocks: seq<Block>

    /** Headers tile the heap exactly up to `offset`. */
    ghost predicate Valid()
      reads this
    {
      && size % 8 == 0 && size < ALLOC_BIT
      && AllAligned(blocks)
      && offset == Extent(blocks) <= size
      && Tiled(words, 0, blocks)
      && Backed(words, 0, size) && Zeroed(words, offset, size)
    }

    ghost function GetLive(): set<(nat, nat)>
      reads this
    {
      Live(blocks, 0)
    }

    constructor ()
      ensures Valid() && !inited && size == 0 && blocks == []
    {
      start, inited, size, offset, words, blocks := 0, false, 0, 0, map[], [];
    }

    /** Adopts `bytes` bytes at address `at`, as the host provides them. */
    method Init(at: nat, bytes: nat, contents: Words)
      requires Valid() && !inited && blocks == []
      requires bytes % 8 == 0 && bytes < ALLOC_BIT
      requires Zeroed(contents, 0, bytes)
      modifies this
      ensures Valid() && inited && start == at && size == bytes && offset == 0 && blocks == []
    {
      start, inited, size, words := at, true, bytes, contents;
    }

    /** Bump allocation at the end of the tiled part. The test for room is made in 32 bits. A request that
        makes the sum wrap around always passes it, and does not move the offset forward. */
    method Malloc(n: nat) returns (r: Option<nat>)
      requires Valid() && n % 8 == 4 && n < WORD_LIMIT
      modifies this`offset, this`words, this`blocks
      ensures old(offset) + n + MARKER < WORD_LIMIT ==>
        && Valid()
        && (r.None? <==> old(offset) + n + MARKER > size)
        && (r.None? ==> blocks == old(blocks) && words == old(words) && offset == old(offset))
        && (r.Some? ==>
              && r.value == old(offset) + MARKER && offset == old(offset) + n + MARKER
              && blocks == old(blocks) + [Block(n, true)]
              && GetLive() == old(GetLive()) + {(r.value, n)} && (r.value, n) !in old(GetLive()))
        && PayloadsKept(old(words), words, old(GetLive()))
      ensures old(offset) + n + MARKER >= WORD_LIMIT ==>
        r == Some(old(offset) + MARKER) && offset == old(offset) + n + MARKER - WORD_LIMIT <= old(offset)
    {
      hide Extent, Live, Tiled, PayloadsKept, AllAligned, Agree, Backed, Zeroed;
      PayloadsSame(words, GetLive());
      WrappedSum(offset, n);
      var usedUp := (offset + n + MARKER) % WORD_LIMIT;
      if usedUp > size {
        return None;
      }
      var header := offset;
      if header < size {
        ExtentAligned(blocks);
        BackedAt(words, header, size);
      }
      words := words[header := WithSize(if header in words then words[header] else 0, n)];
      offset := usedUp;
      words := words[header := MarkAlloc(words[header])];
      r := Some(header + MARKER);
      if header + n + MARKER < WORD_LIMIT {
        AppendedLive(blocks, n);
        Appended(old(words), words, blocks, Block(n, true));
        BackedSame(old(words), words, 0, size);
        WrittenBelow(old(words), header, words[header], offset, size);
        ZeroedBeyond(old(words), words, header, offset, size);
        blocks := blocks + [Block(n, true)];
      }
    }

    /** Turns the part not tiled yet into one free block. */
    method CleanupRemaining()
      requires Valid()
      modifies this`offset, this`words, this`blocks
      ensures Valid() && offset == size
      ensures blocks == old(blocks) + Leftover(old(offset), size) && GetLive() == old(GetLive())
      ensures PayloadsKept(old(words), words, old(GetLive()))
    {
      hide Extent, Live, Tiled, PayloadsKept, AllAligned, Agree, Backed, Zeroed;
      PayloadsSame(words, GetLive());
      if offset == size {
        assert blocks == blocks + [];
        return;
      }
      ExtentAligned(blocks);
      BackedAt(words, offset, size);
      var n := size - offset - MARKER;
      var header := offset;
      words := words[header := WithSize(words[header], n)];
      offset := size;
      words := words[header := MarkFree(words[header])];
      LiveConcat(blocks, [Block(n, false)], 0);
      NoneLive([Block(n, false)], Extent(blocks));
      Appended(old(words), words, blocks, Block(n, false));
      BackedSame(old(words), words, 0, size);
      NothingZeroed(words, size);
      blocks := blocks + [Block(n, false)];
    }

    /** Grows the heap when the new memory follows it directly. */
    method ExpandMemory(at: nat, bytes: nat, contents: Words) returns (ok: bool)
      requires Valid() && bytes % 8 == 0 && size + bytes < ALLOC_BIT
      requires Zeroed(contents, size, size + bytes)
      modifies this`size, this`words
      ensures Valid()
      ensures ok <==> start + old(size) == at
      ensures size == old(size) + if ok then bytes else 0
      ensures !ok ==> words == old(words)
      ensures PayloadsKept(old(words), words, old(GetLive()))
    {
      hide Extent, Live;
      if start + size != at {
        return false;
      }
      var grown: Words := map k | k in contents.Keys + words.Keys ::
        if k < size && k in words then words[k] else if k in contents then contents[k] else words[k];
      Extended(words, grown, blocks, size);
      words := grown;
      size := size + bytes;
      return true;
    }

    /** Frees a live block: only its header's top bit changes. */
    method Free(p: nat, ghost n: nat)
      requires Valid() && (p, n) in GetLive()
      modifies this`words, this`blocks
      ensures Valid()
      ensures blocks == Freed(old(blocks), 0, p) && GetLive() == old(GetLive()) - {(p, n)}
      ensures PayloadsKept(old(words), words, old(GetLive()))
    {
      hide Extent, Live, Tiled, Freed, Zeroed, Agree;
      FreedTiles(words, blocks, 0, p, n);
      LiveInside(blocks, 0, p, n);
      WrittenBelow(words, p - MARKER, MarkFree(words[p - MARKER]), offset, size);
      words := words[p - MARKER := MarkFree(words[p - MARKER])];
      ZeroedBeyond(old(words), words, offset, offset, size);
      blocks := Freed(blocks, 0, p);
    }

    /** A program's own store into a payload it holds: never a header. */
    method Store(p: nat, ghost n: nat, k: nat, v: Word)
      requires Valid() && (p, n) in GetLive() && k < n && k % 4 == 0
      modifies this`words
      ensures Valid() && words == old(words)[p + k := v]
    {
      hide Extent, Live, Tiled, Zeroed, Agree;
      StoreTiles(words, blocks, 0, p, n, k, v);
      LiveInside(blocks, 0, p, n);
      WrittenBelow(words, p + k, v, offset, size);
      words := words[p + k := v];
      ZeroedBeyond(old(words), words, offset, offset, size);
    }

    /** The merge walk: how far the block at header `h` reaches over the words that look like free blocks. */
    method Walk(h: nat, needed: nat) returns (possible: nat)
      requires h in words && Walkable(words, h + MARKER, SizeOf(words[h]), needed, size)
      ensures possible == WalkWords(words, h + MARKER, SizeOf(words[h]), needed, size)
    {
      possible := SizeOf(words[h]);
      while possible < needed && h + MARKER + possible < size
        invariant Walkable(words, h + MARKER, possible, needed, size)
        invariant WalkWords(words, h + MARKER, SizeOf(words[h]), needed, size) ==
                  WalkWords(words, h + MARKER, possible, needed, size)
        decreases needed - possible
      {
        var next := words[h + MARKER + possible];
        if IsAlloc(next) {
          break;
        }
        possible := possible + SizeOf(next) + MARKER;
      }
    }

    /** Writes the merged header, and the header of what is left over. */
    method WriteMerged(h: nat, possible: nat, needed: nat)
      requires h in words && possible < ALLOC_BIT
      requires possible > needed ==> possible > needed + MARKER && h + MARKER + needed in words
      modifies this`words
      ensures words == MergedWords(old(words), h, possible, needed)
    {
      words := words[h := WithSize(words[h], if possible < needed then possible else needed)];
      if possible > needed {
        var rest := h + MARKER + needed;
        words := words[rest := WithSize(words[rest], possible - needed - MARKER)];
        words := words[rest := MarkFree(words[rest])];
      }
    }

    /** Grows the free block at header `h` over the free blocks that follow, and cuts it to `needed`
        when there is enough. The ghost arguments split the blocks at `h`. */
    method MergeContiguous(h: nat, needed: nat, ghost pre: seq<Block>, ghost post: seq<Block>) returns (merged: nat)
      requires Valid() && offset == size && needed % 8 == 4
      requires blocks == pre + post && h == Extent(pre) && post != [] && !post[0].live
      modifies this`words, this`blocks
      ensures Valid()
      ensures var (have, used) := Grow(post[0].size, post[1..], needed);
              && merged == (if have < needed then have else needed)
              && blocks == pre + Shrunk(have, needed) + post[1 + used..]
      ensures PayloadsKept(old(words), words, old(GetLive()))
    {
      hide Extent, Live, Tiled, Grow, AllAligned, PayloadsKept, MergedWords, Backed, Zeroed, Walkable, WalkWords;
      MergeTiles(words, pre, post, needed, size);
      NothingZeroed(MergedWords(words, h, Grow(post[0].size, post[1..], needed).0, needed), size);
      assert [post[0]] + post[1..] == post;
      WalkOverTiles(words, pre, post[0], post[1..], needed, size);
      var possible := Walk(h, needed);
      WriteMerged(h, possible, needed);
      merged := if possible < needed then possible else needed;
      ghost var (have, used) := Grow(post[0].size, post[1..], needed);
      blocks := pre + Shrunk(have, needed) + post[1 + used..];
    }

    /** At a free block: merge, and allocate it when it is large enough. */
    method TryFree(h: nat, n: nat, ghost pre: seq<Block>, ghost post: seq<Block>) returns (taken: bool, reach: nat)
      requires Valid() && offset == size && n % 8 == 4 && AllAligned(post)
      requires blocks == pre + post && h == Extent(pre) && post != [] && !post[0].live
      modifies this`words, this`blocks
      ensures Valid()
      ensures var (have, used) := Grow(post[0].size, post[1..], n);
              && have % 8 == 4 && taken == (have >= n)
              && blocks == (if taken then pre + (Cut(have, n) + post[1 + used..])
                            else (pre + [Block(have, false)]) + post[1 + used..])
              && (!taken ==> reach == have && GetLive() == old(GetLive()))
      ensures PayloadsKept(old(words), words, old(GetLive()))
    {
      hide Extent, Live, Tiled, Grow, AllAligned, PayloadsKept, FromFreed, Cut, Shrunk;
      ghost var (have, used) := Grow(post[0].size, post[1..], n);
      StepFree(pre, post, n);
      reach := MergeContiguous(h, n, pre, post);
      taken := reach == n;
      if taken {
        ghost var before := words;
        TakeTiles(words, pre, have, post[1 + used..], n, size);
        words := words[h := MarkAlloc(words[h])];
        blocks := pre + Cut(have, n) + post[1 + used..];
        assert blocks == pre + (Cut(have, n) + post[1 + used..]);
        PayloadsTrans(old(words), before, words, old(GetLive()));
      }
    }

    /** One step of the search: the block at header `h` is taken, or stepped over with the free blocks
        merged into it. */
    method Visit(h: nat, n: nat, ghost pre: seq<Block>, ghost post: seq<Block>)
      returns (taken: bool, reach: nat, ghost pre': seq<Block>, ghost post': seq<Block>)
      requires Valid() && offset == size && n % 8 == 4 && AllAligned(post)
      requires blocks == pre + post && h == Extent(pre) && post != []
      modifies this`words, this`blocks
      ensures Valid()
      ensures taken ==> Found(Some(h + MARKER), blocks) == Then(pre, FromFreed(post, h, n))
      ensures !taken ==>
        && blocks == pre' + post' && |post'| < |post| && AllAligned(post')
        && Extent(pre') == h + MARKER + reach && (MARKER + reach) % 8 == 0
        && Extent(pre') + Extent(post') == Extent(pre) + Extent(post)
        && Then(pre', FromFreed(post', Extent(pre'), n)) == Then(pre, FromFreed(post, h, n))
        && GetLive() == old(GetLive())
      ensures PayloadsKept(old(words), words, old(GetLive()))
    {
      hide Extent, Live, Tiled, Grow, AllAligned, PayloadsKept, FromFreed, Cut, Shrunk;
      SplitFacts(words, pre, post);
      if IsAlloc(words[h]) {
        taken, reach := false, SizeOf(words[h]);
        StepLive(pre, post, n);
        pre', post' := pre + [post[0]], post[1..];
        SearchStarts(blocks, words, n);
      } else {
        StepFree(pre, post, n);
        ghost var (have, used) := Grow(post[0].size, post[1..], n);
        taken, reach := TryFree(h, n, pre, post);
        pre', post' := pre + [Block(have, false)], post[1 + used..];
      }
    }

    /** First fit over the free runs of a completely tiled heap. */
    method MallocFromFreed(n: nat) returns (r: Option<nat>)
      requires Valid() && offset == size > 0 && n % 8 == 4
      modifies this`words, this`blocks
      ensures Valid()
      ensures Found(r, blocks) == FromFreed(old(blocks), 0, n)
      ensures PayloadsKept(old(words), words, old(GetLive()))
    {
      hide Extent, Live, Tiled, Grow, AllAligned, PayloadsKept, FromFreed;
      ghost var pre: seq<Block>, post := [], blocks;
      SearchStarts(post, words, n);
      var current := Some(MARKER);
      while current.Some?
        invariant Valid() && blocks == pre + post && AllAligned(post)
        invariant Extent(pre) + Extent(post) == size && Extent(pre) % 8 == 0
        invariant current == if Extent(pre) < size then Some(Extent(pre) + MARKER) else None
        invariant FromFreed(old(blocks), 0, n) == Then(pre, FromFreed(post, Extent(pre), n))
        invariant GetLive() == old(GetLive()) && PayloadsKept(old(words), words, old(GetLive()))
        decreases |post|
      {
        PostNonEmpty(pre, post, size);
        ghost var before := words;
        var h := current.value - MARKER;
        var taken, reach;
        taken, reach, pre, post := Visit(h, n, pre, post);
        PayloadsTrans(old(words), before, words, old(GetLive()));
        if taken {
          return current;
        }
        var next := h + MARKER + reach + MARKER;
        current := if next >= size then None else Some(next);
      }
      SearchEnds(pre, post, n);
      r := None;
    }
  }

  lemma {:induction false} StoreTiles(w: Words, bs: seq<Block>, o: nat, p: nat, n: nat, k: nat, v: Word)
    requires Tiled(w, o, bs) && (p, n) in Live(bs, o) && k < n
    ensures Tiled(w[p + k := v], o, bs)
    decreases |bs|
  {
    LiveInside(bs, o, p, n);
    var rest := o + bs[0].Stride();
    if (p, n) in Live(bs[1..], rest) {
      LiveInside(bs[1..], rest, p, n);
      StoreTiles(w, bs[1..], rest, p, n, k, v);
    } else {
      TiledFrame(w, w[p + k := v], rest, bs[1..]);
    }
  }

  function Then(pre: seq<Block>, f: Found): Found { Found(f.at, pre + f.blocks) }

  lemma PostNonEmpty(pre: seq<Block>, post: seq<Block>, size: nat)
    requires Extent(pre) + Extent(post) == size && Extent(pre) < size
    ensures post != []
  {
  }

  lemma PayloadsTrans(w: Words, w1: Words, w2: Words, l: set<(nat, nat)>)
    requires PayloadsKept(w, w1, l) && PayloadsKept(w1, w2, l)
    ensures PayloadsKept(w, w2, l)
  {
  }

  /** The search steps over an allocated block. */
  lemma StepLive(pre: seq<Block>, post: seq<Block>, n: nat)
    requires post != [] && post[0].live && AllAligned(post) && n % 8 == 4
    ensures var pre', post' := pre + [post[0]], post[1..];
            && pre' + post' == pre + post && AllAligned(post')
            && Extent(pre') == Extent(pre) + post[0].Stride() && post[0].Stride() % 8 == 0
            && Extent(pre') + Extent(post') == Extent(pre) + Extent(post)
            && Then(pre', FromFreed(post', Extent(pre'), n)) == Then(pre, FromFreed(post, Extent(pre), n))
  {
    hide Live, Grow;
    assert post[0].Aligned();
    ExtentConcat(pre, [post[0]]);
    OneBlock(post[0], 0);
    var f := FromFreed(post[1..], Extent(pre) + post[0].Stride(), n);
    assert pre + ([post[0]] + f.blocks) == (pre + [post[0]]) + f.blocks;
  }

  /** At a free block the search takes the merged run, or steps over it. */
  lemma StepFree(pre: seq<Block>, post: seq<Block>, n: nat)
    requires post != [] && !post[0].live && AllAligned(post) && n % 8 == 4
    ensures var (have, used) := Grow(post[0].size, post[1..], n);
            var pre', post' := pre + [Block(have, false)], post[1 + used..];
            && have % 8 == 4 && AllAligned(post')
            && Extent(pre') == Extent(pre) + have + MARKER
            && Extent(pre') + Extent(post') == Extent(pre) + Extent(post)
            && Live(pre + Shrunk(have, n) + post', 0) == Live(pre + post, 0)
            && (have >= n ==>
                  FromFreed(post, Extent(pre), n) == Found(Some(Extent(pre) + MARKER), Cut(have, n) + post'))
            && (have < n ==>
                  && pre + Shrunk(have, n) + post' == pre' + post'
                  && Then(pre', FromFreed(post', Extent(pre'), n)) == Then(pre, FromFreed(post, Extent(pre), n)))
  {
    hide Grow, Extent, Live;
    assert post[0].Aligned();
    GrowAligned(post[0].size, post[1..], n);
    var (have, used) := Grow(post[0].size, post[1..], n);
    var run, post' := post[..1 + used], post[1 + used..];
    MergedRun(post, Extent(pre), n);
    ExtentConcat(pre, [Block(have, false)]);
    OneBlock(Block(have, false), 0);
    ExtentConcat(run, post');
    ShrunkLive(have, n, Extent(pre));
    LiveConcat(pre + Shrunk(have, n), post', 0);
    LiveConcat(pre, Shrunk(have, n), 0);
    ExtentConcat(pre, Shrunk(have, n));
    LiveConcat(pre, post, 0);
    if have < n {
      var f := FromFreed(post', Extent(pre) + have + MARKER, n);
      assert pre + ([Block(have, false)] + f.blocks) == (pre + [Block(have, false)]) + f.blocks;
    }
  }

  lemma ShrunkLive(have: nat, n: nat, o: nat)
    ensures Live(Shrunk(have, n), o) == {} && Extent(Shrunk(have, n)) == have + MARKER
  {
    NoneLive(Shrunk(have, n), o);
    if have > n + MARKER {
      assert Shrunk(have, n) == [Block(n, false)] + [Block(have - n - MARKER, false)];
      ExtentConcat([Block(n, false)], [Block(have - n - MARKER, false)]);
    }
  }

  /** Setting the top bit of the block that was cut allocates it. */
  lemma TakeTiles(w: Words, pre: seq<Block>, have: nat, rest: seq<Block>, n: nat, size: nat)
    requires have >= n && have % 8 == 4 && n % 8 == 4
    requires var bs := pre + Shrunk(have, n) + rest;
             Tiled(w, 0, bs) && AllAligned(bs) && Extent(bs) == size
    ensures var h := Extent(pre);
            var bs' := pre + Cut(have, n) + rest;
            && h in w
            && var w' := w[h := MarkAlloc(w[h])];
            && Tiled(w', 0, bs') && AllAligned(bs') && Extent(bs') == size
            && PayloadsKept(w, w', Live(pre + Shrunk(have, n) + rest, 0))
  {
    var h := Extent(pre);
    var m := Shrunk(have, n);
    assert Tiled(w, h, m) by {
      TiledConcat(w, 0, pre + m, rest);
      TiledConcat(w, 0, pre, m);
    }
    var w' := w[h := MarkAlloc(w[h])];
    CutTiles(w, h, have, n);
    ShrunkLive(have, n, h);
    CutExtent(have, n, h);
    hide Tiled, Extent, Live, PayloadsKept, AllAligned, Agree;
    TiledSplice(w, w', pre, m, Cut(have, n), rest);
    PayloadsOutside(w, w', pre, m, rest);
    SpliceShape(pre, m, Cut(have, n), rest);
  }

  lemma CutTiles(w: Words, h: nat, have: nat, n: nat)
    requires have >= n && have % 8 == 4 && n % 8 == 4 && Tiled(w, h, Shrunk(have, n))
    ensures h in w && Tiled(w[h := MarkAlloc(w[h])], h, Cut(have, n))
  {
    var w' := w[h := MarkAlloc(w[h])];
    if have > n {
      var b := Block(have - n - MARKER, false);
      assert Shrunk(have, n)[1..] == [b];
      assert Tiled(w', h + n + MARKER, [b]);
      assert Cut(have, n)[1..] == [b];
    }
  }

  lemma SearchStarts(bs: seq<Block>, w: Words, n: nat)
    requires n % 8 == 4 && AllAligned(bs)
    ensures Extent([]) == 0 && [] + bs == bs && PayloadsKept(w, w, Live(bs, 0))
    ensures Then([], FromFreed(bs, 0, n)) == FromFreed(bs, 0, n)
  {
    assert [] + FromFreed(bs, 0, n).blocks == FromFreed(bs, 0, n).blocks;
  }

  lemma SearchEnds(pre: seq<Block>, post: seq<Block>, n: nat)
    requires n % 8 == 4 && Extent(post) == 0 && AllAligned(post)
    ensures Then(pre, FromFreed(post, Extent(pre), n)) == Found(None, pre + post)
  {
    assert pre + [] == pre;
  }

  /** The merged free run, cut to `needed` when it is large enough; nothing is marked allocated yet. */
  function Shrunk(have: nat, needed: nat): seq<Block> {
    if have > needed + MARKER then [Block(needed, false), Block(have - needed - MARKER, false)]
      else [Block(have, false)]
  }

  lemma SplitFacts(w: Words, pre: seq<Block>, post: seq<Block>)
    requires Tiled(w, 0, pre + post) && post != []
    ensures Extent(pre) in w && w[Extent(pre)] == post[0].Header() && post[0].size < ALLOC_BIT
    ensures Tiled(w, Extent(pre), post)
    ensures Extent(post[1..1]) == 0 && Extent(pre + post) == Extent(pre) + Extent(post)
  {
    hide Live;
    assert Extent(post[1..1]) == 0;
    TiledConcat(w, 0, pre, post);
    hide Extent;
    ExtentConcat(pre, post);
  }

  /** The merge walk as it reads memory: from `possible` bytes at `at` on, wherever that leads. */
  ghost function WalkWords(w: Words, at: nat, possible: nat, n: nat, size: nat): nat
    decreases n - possible
  {
    if possible < n && at + possible < size && at + possible in w && !IsAlloc(w[at + possible]) then
      WalkWords(w, at, possible + SizeOf(w[at + possible]) + MARKER, n, size)
    else possible
  }

  /** Every word the walk reads exists. */
  ghost predicate Walkable(w: Words, at: nat, possible: nat, n: nat, size: nat)
    decreases n - possible
  {
    possible < n && at + possible < size ==>
      at + possible in w && (!IsAlloc(w[at + possible]) ==>
                             Walkable(w, at, possible + SizeOf(w[at + possible]) + MARKER, n, size))
  }

  /** Over tiled memory the walk grows as the blocks do, if it stops within the tiled part or the heap ends
      with it. */
  lemma {:induction false} WalkGrows(w: Words, at: nat, possible: nat, bs: seq<Block>, n: nat, size: nat)
    requires Tiled(w, at + possible, bs) && at + possible + Extent(bs) <= size
    requires var (have, used) := Grow(possible, bs, n);
             have >= n || used < |bs| || at + possible + Extent(bs) == size
    ensures Walkable(w, at, possible, n, size) && WalkWords(w, at, possible, n, size) == Grow(possible, bs, n).0
    decreases |bs|
  {
    if possible < n && bs != [] && !bs[0].live {
      WalkGrows(w, at, possible + bs[0].Stride(), bs[1..], n, size);
    }
  }

  /** The walk from a block, live or free, over the blocks that follow it. */
  lemma WalkOverTiles(w: Words, pre: seq<Block>, b: Block, post: seq<Block>, n: nat, size: nat)
    requires Tiled(w, 0, pre + ([b] + post)) && Extent(pre + ([b] + post)) <= size
    requires var (have, used) := Grow(b.size, post, n);
             have >= n || used < |post| || Extent(pre + ([b] + post)) == size
    ensures var hd := Extent(pre);
            && hd in w && SizeOf(w[hd]) == b.size && w[hd] == b.Header() && b.size < ALLOC_BIT
            && Walkable(w, hd + MARKER, b.size, n, size)
              && WalkWords(w, hd + MARKER, b.size, n, size) == Grow(b.size, post, n).0
  {
    BlockThen(w, pre, b, post);
    hide Tiled, Extent, Grow, Walkable, WalkWords;
    WalkGrows(w, Extent(pre) + MARKER, b.size, post, n, size);
  }

  /** What tiling says about one block and those after it. */
  lemma BlockThen(w: Words, pre: seq<Block>, b: Block, post: seq<Block>)
    requires Tiled(w, 0, pre + ([b] + post))
    ensures Extent(pre) in w && w[Extent(pre)] == b.Header() && b.size < ALLOC_BIT && SizeOf(w[Extent(pre)]) == b.size
    ensures Tiled(w, Extent(pre) + MARKER + b.size, post)
    ensures Extent(pre + ([b] + post)) == Extent(pre) + MARKER + b.size + Extent(post)
  {
    SplitFacts(w, pre, [b] + post);
    assert ([b] + post)[1..] == post;
  }

  lemma WrappedSum(offset: nat, n: nat)
    requires offset < ALLOC_BIT && n < WORD_LIMIT && n % 8 == 4
    ensures var sum := offset + n + MARKER;
            sum % WORD_LIMIT == (if sum < WORD_LIMIT then sum else sum - WORD_LIMIT)
    ensures n <= WORD_LIMIT - 4
  {
    var a := n / 8;
    assert n == 8 * a + 4;
  }

  /** The words after a merge: the merged header, and that of the remainder if there is one. */
  function MergedWords(w: Words, h: nat, have: nat, needed: nat): Words
    requires h in w && have < ALLOC_BIT && (have > needed ==> have > needed + MARKER && h + MARKER + needed in w)
  {
    var w1 := w[h := WithSize(w[h], if have >= needed then needed else have)];
    if have > needed then
      var r := h + MARKER + needed;
      w1[r := MarkFree(WithSize(w1[r], have - needed - MARKER))]
    else w1
  }

  lemma MergeTiles(w: Words, pre: seq<Block>, post: seq<Block>, needed: nat, size: nat)
    requires Tiled(w, 0, pre + post) && AllAligned(pre + post) && post != [] && !post[0].live && needed % 8 == 4
    requires Extent(pre + post) == size < ALLOC_BIT && Backed(w, 0, size)
    ensures var (have, used) := Grow(post[0].size, post[1..], needed);
            var h := Extent(pre);
            && h in w && have < ALLOC_BIT && (have > needed ==> have > needed + MARKER && h + MARKER + needed in w)
            && var w' := MergedWords(w, h, have, needed);
            && var bs' := pre + Shrunk(have, needed) + post[1 + used..];
            && Tiled(w', 0, bs') && AllAligned(bs') && Extent(bs') == size
            && PayloadsKept(w, w', Live(pre + post, 0))
            && Backed(w', 0, size)
  {
    hide Live, Extent, Tiled, Grow, PayloadsKept, AllAligned, AllFree, MergedWords, Shrunk, Agree, Backed;
    var (have, used) := Grow(post[0].size, post[1..], needed);
    var h := Extent(pre);
    var run, rest := post[..1 + used], post[1 + used..];
    MergeFits(w, pre, post, needed, size);
    MergedRun(post, h, needed);
    assert pre + post == pre + run + rest;
    var w' := MergedWords(w, h, have, needed);
    ShrunkTiles(w, h, have, needed, h + have + MARKER + Extent(rest));
    ShrunkAligned(have, needed);
    TiledSplice(w, w', pre, run, Shrunk(have, needed), rest);
    PayloadsOutside(w, w', pre, run, rest);
    SpliceShape(pre, run, Shrunk(have, needed), rest);
    BackedSame(w, w', 0, size);
  }

  /** A merged run ends inside the heap, at a multiple of eight like every block. */
  lemma MergeFits(w: Words, pre: seq<Block>, post: seq<Block>, needed: nat, size: nat)
    requires Tiled(w, 0, pre + post) && AllAligned(pre + post) && post != [] && !post[0].live && needed % 8 == 4
    requires Extent(pre + post) == size && Backed(w, 0, size)
    ensures var (have, used) := Grow(post[0].size, post[1..], needed);
            var h := Extent(pre);
            && h in w && w[h] == post[0].Header() && post[0].size < ALLOC_BIT
            && h + MARKER + have <= size && have % 8 == 4 && h % 8 == 0
            && (have > needed ==> have > needed + MARKER && h + MARKER + needed in w)
  {
    hide Live, Extent, Tiled, Grow;
    var (have, used) := Grow(post[0].size, post[1..], needed);
    SplitFacts(w, pre, post);
    MergedRun(post, 0, needed);
    ExtentConcat(post[..1 + used], post[1 + used..]);
    assert AllAligned(pre) by { assert forall b <- pre :: b in pre + post; }
    assert post[0].Aligned() by { assert post[0] in pre + post; }
    assert AllAligned(post[1..]) by { assert forall b <- post[1..] :: b in pre + post; }
    hide AllAligned, AllFree, Backed;
    GrowAligned(post[0].size, post[1..], needed);
    ExtentAligned(pre);
    if have > needed { RoomToCut(w, Extent(pre), have, needed, size); }
  }

  lemma SpliceShape(a: seq<Block>, m: seq<Block>, m': seq<Block>, b: seq<Block>)
    requires AllAligned(a + m + b) && AllAligned(m') && Extent(m') == Extent(m)
    ensures AllAligned(a + m' + b) && Extent(a + m' + b) == Extent(a + m + b) == Extent(a) + Extent(m) + Extent(b)
  {
    hide Extent;
    AlignedParts(a, m, b);
    ExtentConcat(a + m, b);
    ExtentConcat(a, m);
    ExtentConcat(a + m', b);
    ExtentConcat(a, m');
  }

  lemma AlignedParts(a: seq<Block>, m: seq<Block>, b: seq<Block>)
    requires AllAligned(a + m + b)
    ensures AllAligned(a) && AllAligned(m) && AllAligned(b)
  {
    assert forall x <- a :: x in a + m + b;
    assert forall x <- m :: x in a + m + b;
    assert forall x <- b :: x in a + m + b;
  }

  lemma ShrunkAligned(have: nat, needed: nat)
    requires have % 8 == 4 && needed % 8 == 4
    ensures AllAligned(Shrunk(have, needed))
  {
    if have > needed { CutAligned(have, needed); }
  }

  lemma ShrunkTiles(w: Words, h: nat, have: nat, needed: nat, hi: nat)
    requires h in w && have < ALLOC_BIT && !IsAlloc(w[h])
    requires have > needed ==> have > needed + MARKER && h + MARKER + needed in w
    ensures var w' := MergedWords(w, h, have, needed);
            && Tiled(w', h, Shrunk(have, needed)) && Extent(Shrunk(have, needed)) == have + MARKER
            && Agree(w, w', 0, h) && Agree(w, w', h + have + MARKER, hi)
            && w'.Keys == w.Keys
  {
    hide SizeOf, Live;
    var w' := MergedWords(w, h, have, needed);
    if have > needed {
      var a, b := Block(needed, false), Block(have - needed - MARKER, false);
      assert Shrunk(have, needed) == [a] + [b];
      assert Tiled(w', h + a.Stride(), [b]);
      assert Tiled(w', h, [a]);
      OneBlock(a, 0);
      OneBlock(b, 0);
      hide Extent, Tiled;
      TiledConcat(w', h, [a], [b]);
      ExtentConcat([a], [b]);
    }
  }

  /** The blocks with the live block at payload offset `p` freed, the first block being at `o`. */
  ghost function Freed(bs: seq<Block>, o: nat, p: nat): seq<Block>
    decreases |bs|
  {
    if bs == [] then []
    else if o + MARKER == p then [bs[0].(live := false)] + bs[1..]
    else [bs[0]] + Freed(bs[1..], o + bs[0].Stride(), p)
  }

  /** Clearing the top bit of a live block's header frees that block and nothing else. */
  lemma {:induction false} FreedTiles(w: Words, bs: seq<Block>, o: nat, p: nat, n: nat)
    requires Tiled(w, o, bs) && AllAligned(bs) && (p, n) in Live(bs, o)
    ensures p - MARKER >= o && p - MARKER in w
    ensures var w' := w[p - MARKER := MarkFree(w[p - MARKER])];
            var bs' := Freed(bs, o, p);
            && Tiled(w', o, bs') && AllAligned(bs') && Extent(bs') == Extent(bs)
            && Live(bs', o) == Live(bs, o) - {(p, n)}
            && PayloadsKept(w, w', Live(bs, o))
    decreases |bs|
  {
    LiveInside(bs, o, p, n);
    var rest := o + bs[0].Stride();
    if o + MARKER == p {
      var w' := w[o := MarkFree(w[o])];
      assert bs[0] == Block(n, true) by {
        if (p, n) in Live(bs[1..], rest) { LiveInside(bs[1..], rest, p, n); }
      }
      TiledFrame(w, w', rest, bs[1..]);
      FreedHead(w, w', bs, o, n);
    } else {
      FreedTiles(w, bs[1..], rest, p, n);
      FreedTail(w, bs, o, p, n);
    }
  }

  lemma FreedHead(w: Words, w': Words, bs: seq<Block>, o: nat, n: nat)
    requires bs != [] && Tiled(w, o, bs) && AllAligned(bs) && bs[0] == Block(n, true)
    requires w' == w[o := MarkFree(w[o])] && Tiled(w', o + bs[0].Stride(), bs[1..])
    ensures var bs' := Freed(bs, o, o + MARKER);
            && Tiled(w', o, bs') && AllAligned(bs') && Extent(bs') == Extent(bs)
            && Live(bs', o) == Live(bs, o) - {(o + MARKER, n)}
            && PayloadsKept(w, w', Live(bs, o))
  {
    var bs' := Freed(bs, o, o + MARKER);
    assert bs'[1..] == bs[1..];
    assert bs[0].Aligned();
    if (o + MARKER, n) in Live(bs[1..], o + bs[0].Stride()) {
      LiveInside(bs[1..], o + bs[0].Stride(), o + MARKER, n);
    }
    forall q, m, k | (q, m) in Live(bs, o) && q <= k < q + m && k in w ensures k in w' && w'[k] == w[k] {
      LiveInside(bs, o, q, m);
    }
  }

  lemma FreedTail(w: Words, bs: seq<Block>, o: nat, p: nat, n: nat)
    requires bs != [] && Tiled(w, o, bs) && AllAligned(bs) && o + MARKER != p && (p, n) in Live(bs, o)
    requires p - MARKER in w && p >= o + bs[0].Stride() + MARKER
    requires var w' := w[p - MARKER := MarkFree(w[p - MARKER])];
             var rest, rest' := bs[1..], Freed(bs[1..], o + bs[0].Stride(), p);
             && Tiled(w', o + bs[0].Stride(), rest') && AllAligned(rest') && Extent(rest') == Extent(rest)
             && Live(rest', o + bs[0].Stride()) == Live(rest, o + bs[0].Stride()) - {(p, n)}
             && PayloadsKept(w, w', Live(rest, o + bs[0].Stride()))
    ensures var w' := w[p - MARKER := MarkFree(w[p - MARKER])];
            var bs' := Freed(bs, o, p);
            && Tiled(w', o, bs') && AllAligned(bs') && Extent(bs') == Extent(bs)
            && Live(bs', o) == Live(bs, o) - {(p, n)}
            && PayloadsKept(w, w', Live(bs, o))
  {
    var bs' := Freed(bs, o, p);
    assert bs'[1..] == Freed(bs[1..], o + bs[0].Stride(), p);
    assert bs[0].Aligned();
  }

  lemma Extended(w: Words, w': Words, bs: seq<Block>, size: nat)
    requires Tiled(w, 0, bs) && Extent(bs) <= size && Agree(w, w', 0, size)
    ensures Tiled(w', 0, bs) && PayloadsKept(w, w', Live(bs, 0))
  {
    hide Extent, Live, Tiled;
    TiledFrame(w, w', 0, bs);
    forall p, n, k | (p, n) in Live(bs, 0) && p <= k < p + n && k in w ensures k in w' && w'[k] == w[k] {
      LiveInside(bs, 0, p, n);
    }
  }

  lemma AppendedLive(bs: seq<Block>, n: nat)
    requires n > 0
    ensures Live(bs + [Block(n, true)], 0) == Live(bs, 0) + {(Extent(bs) + MARKER, n)}
    ensures (Extent(bs) + MARKER, n) !in Live(bs, 0)
  {
    hide Extent, Live;
    var p := Extent(bs) + MARKER;
    LiveConcat(bs, [Block(n, true)], 0);
    OneBlock(Block(n, true), Extent(bs));
    if (p, n) in Live(bs, 0) { LiveInside(bs, 0, p, n); }
  }

  /** A header written just past the tiled part adds one block. */
  lemma Appended(w: Words, w': Words, bs: seq<Block>, b: Block)
    requires Tiled(w, 0, bs) && AllAligned(bs) && b.Aligned() && b.size < ALLOC_BIT
    requires Extent(bs) in w' && w' == w[Extent(bs) := b.Header()]
    ensures Tiled(w', 0, bs + [b]) && Extent(bs + [b]) == Extent(bs) + b.Stride() && AllAligned(bs + [b])
    ensures PayloadsKept(w, w', Live(bs, 0))
  {
    assert Tiled(w', Extent(bs), [b]);
    hide Extent, Live, Tiled;
    TiledFrame(w, w', 0, bs);
    TiledConcat(w', 0, bs, [b]);
    ExtentConcat(bs, [b]);
    OneBlock(b, 0);
    forall p, n, k | (p, n) in Live(bs, 0) && p <= k < p + n && k in w ensures k in w' && w'[k] == w[k] {
      LiveInside(bs, 0, p, n);
    }
  }
}
