/** `realloc` of the whole allocator: in place where that is possible, else by moving the payload. */
module HeapResize {
  import opened Sums
  import opened HeapBlocks
  import opened HeapMemory
  import opened HeapRealloc
  import opened HeapManager

  // ---------------------------------------------------------------- memory contents

  /** The words of the payloads in `live` are what they were. */
  ghost predicate Same(g: Image, g': Image, live: set<(nat, nat)>) {
    forall q, l, a :: (q, l) in live && q <= a < q + l && Load(g, a).Some? ==> Load(g', a) == Load(g, a)
  }

  /** The first `count` bytes at `to` are those that were at `from`. */
  ghost predicate Copied(g: Image, g': Image, from: nat, to: nat, count: nat) {
    forall k :: 0 <= k < count && k % 4 == 0 ==> Load(g, from + k).Some? && Load(g', to + k) == Load(g, from + k)
  }

  /** Nothing outside one payload changed. */
  ghost predicate WroteWithin(g: Image, g': Image, p: nat, n: nat) {
    forall a: nat :: !(p <= a < p + n) ==> Load(g', a) == Load(g, a)
  }

  /** Payloads of the first heap lie below `top`, those of the second heap above. */
  ghost predicate Houses(g: Image, top: nat, l0: set<(nat, nat)>, l1: set<(nat, nat)>) {
    && (forall p, n :: (p, n) in l0 ==> g.inited0 && g.start0 + p + n <= top)
    && (forall p, n :: (p, n) in l1 ==> g.inited1)
    && (g.inited1 ==> g.start1 >= top)
  }

  ghost predicate Unmoved(g: Image, g': Image, top: nat) {
    && (g.inited0 ==> g'.inited0 && g'.start0 == g.start0)
    && (g.inited1 ==> g'.inited1 && g'.start1 == g.start1)
    && (g'.inited1 ==> g'.start1 >= top)
  }

  /** What is kept word by word in each heap is kept at every address. */
  lemma KeptIsSame(g: Image, g': Image, top: nat, l0: set<(nat, nat)>, l1: set<(nat, nat)>)
    requires Houses(g, top, l0, l1) && Unmoved(g, g', top)
    requires PayloadsKept(g.words0, g'.words0, l0) && PayloadsKept(g.words1, g'.words1, l1)
    ensures Same(g, g', PlacedAt(g.start0, l0) + PlacedAt(g.start1, l1))
  {
    var all := PlacedAt(g.start0, l0) + PlacedAt(g.start1, l1);
    forall q, l, a | (q, l) in all && q <= a < q + l && Load(g, a).Some? ensures Load(g', a) == Load(g, a) {
      if (q, l) in PlacedAt(g.start0, l0) {
        Unplaced(g.start0, l0, q, l);
        assert (q - g.start0, l) in l0;
      } else {
        Unplaced(g.start1, l1, q, l);
        assert (q - g.start1, l) in l1;
      }
    }
  }

  lemma Unplaced(start: nat, live: set<(nat, nat)>, q: nat, l: nat)
    requires (q, l) in PlacedAt(start, live)
    ensures q >= start && (q - start, l) in live
  {
  }

  lemma HousesAll(m: MemoryManager)
    requires m.Valid()
    ensures Houses(m.GetImage(), m.initialHeap + INITIAL_SIZE, m.heaps[0].GetLive(), m.heaps[1].GetLive())
  {
    hide Extent, Live, Tiled, AllAligned, Backed, Zeroed;
    var h := m.heaps[0];
    forall p, n | (p, n) in h.GetLive() ensures h.inited && h.start + p + n <= m.initialHeap + INITIAL_SIZE {
      LiveInside(h.blocks, 0, p, n);
    }
    forall p, n | (p, n) in m.heaps[1].GetLive() ensures m.heaps[1].inited {
      LiveInside(m.heaps[1].blocks, 0, p, n);
    }
  }

  lemma SameWithin(g: Image, g': Image, all: set<(nat, nat)>, some: set<(nat, nat)>)
    requires Same(g, g', all) && some <= all
    ensures Same(g, g', some)
  {
  }

  /** Every word of a live payload is in memory. */
  lemma PayloadLoads(m: MemoryManager, addr: nat, n: nat, k: nat)
    requires m.Valid() && (addr, n) in m.AllLive() && k < n && k % 4 == 0
    ensures Load(m.GetImage(), addr + k).Some?
  {
    hide Extent, Live, Tiled, AllAligned, Backed, Zeroed, Heap.Valid;
    var i := m.Home(addr, n);
    Unplaced(m.heaps[i].start, m.heaps[i].GetLive(), addr, n);
    assert m.heaps[i].Valid();
    PayloadBacked(m.heaps[i], addr - m.heaps[i].start, n, k);
  }

  // ---------------------------------------------------------------- in place

  /** Resizing the live payload at `addr` in place is sane. */
  ghost predicate SaneAt(m: MemoryManager, addr: nat, n: nat, size: nat)
    requires m.Valid() && (addr, n) in m.AllLive()
    reads m, m.heaps
  {
    var h := m.heaps[m.Home(addr, n)];
    Sane(h, addr - h.start, n, After(h.blocks, 0, addr - h.start), size)
  }

  /** The live payload at `addr` can have `size` bytes where it is: its heap has them, and they are its own, behind it
      nothing is allocated, or the free blocks behind it hold them. */
  ghost predicate FitsAt(m: MemoryManager, addr: nat, n: nat, size: nat)
    requires m.Valid() && (addr, n) in m.AllLive()
    reads m, m.heaps
  {
    var h := m.heaps[m.Home(addr, n)];
    var post := After(h.blocks, 0, addr - h.start);
    addr - h.start + size <= h.size && (size <= n || post == [] || Grow(n, post, size).0 >= size)
  }

  /** The payload does not end within the tiled part of heap `i`. */
  ghost predicate Overruns(m: MemoryManager, i: nat, addr: nat, size: nat)
    requires i < |m.heaps|
    reads m, m.heaps
  {
    var h := m.heaps[i]; addr + size > h.start + h.offset || h.offset > h.size
  }

  lemma ResizedPlace(start: nat, live: set<(nat, nat)>, p: nat, n: nat, n': nat)
    requires (p, n) in live
    ensures PlacedAt(start, live - {(p, n)} + {(p, n')}) == PlacedAt(start, live) - {(start + p, n)} + {(start + p, n')}
  {
    GonePlace(start, live, p, n);
    var rest := live - {(p, n)};
    assert PlacedAt(start, rest + {(p, n')}) == PlacedAt(start, rest) + {(start + p, n')} by {
      assert (p, n') in rest + {(p, n')};
    }
  }

  /** Keeping the survivors of a resize in slot `i` keeps everything else and the common part. */
  lemma ResizeKeeps(
    g: Image, g': Image, top: nat, l0: set<(nat, nat)>, l1: set<(nat, nat)>, i: nat, p: nat, n: nat, count: nat)
    requires Houses(g, top, l0, l1) && Unmoved(g, g', top) && i <= 1 && count <= n
    requires if i == 0 then (p, n) in l0 && (g.start0 + p, n) !in PlacedAt(g.start1, l1)
             else (p, n) in l1 && (g.start1 + p, n) !in PlacedAt(g.start0, l0)
    requires PayloadsKept(g.words0, g'.words0, if i == 0 then Survivors(l0 - {(p, n)}, p, count) else l0)
    requires PayloadsKept(g.words1, g'.words1, if i == 1 then Survivors(l1 - {(p, n)}, p, count) else l1)
    ensures var addr := (if i == 0 then g.start0 else g.start1) + p;
            Same(g, g', PlacedAt(g.start0, l0) + PlacedAt(g.start1, l1) - {(addr, n)} + {(addr, count)})
  {
    var addr := (if i == 0 then g.start0 else g.start1) + p;
    var k0 := if i == 0 then Survivors(l0 - {(p, n)}, p, count) else l0;
    var k1 := if i == 1 then Survivors(l1 - {(p, n)}, p, count) else l1;
    hide Houses, PayloadsKept, Same, PlacedAt, Unmoved;
    HousesSurvivors(g, top, l0, l1, i, p, n, count);
    KeptIsSame(g, g', top, k0, k1);
    var p0, p1 := PlacedAt(g.start0, l0), PlacedAt(g.start1, l1);
    if i == 0 {
      ResizedPlace(g.start0, l0, p, n, count);
      Regroup(p0, p1, (addr, n), (addr, count));
    } else {
      ResizedPlace(g.start1, l1, p, n, count);
      Regroup(p1, p0, (addr, n), (addr, count));
    }
  }

  lemma Regroup(a: set<(nat, nat)>, b: set<(nat, nat)>, x: (nat, nat), y: (nat, nat))
    requires x !in b
    ensures (a - {x} + {y}) + b == a + b - {x} + {y} && b + (a - {x} + {y}) == b + a - {x} + {y}
  {
  }

  lemma HousesSurvivors(
    g: Image, top: nat, l0: set<(nat, nat)>, l1: set<(nat, nat)>, i: nat, p: nat, n: nat, count: nat)
    requires Houses(g, top, l0, l1) && i <= 1 && (p, n) in (if i == 0 then l0 else l1) && count <= n
    ensures i == 0 ==> Houses(g, top, Survivors(l0 - {(p, n)}, p, count), l1)
    ensures i == 1 ==> Houses(g, top, l0, Survivors(l1 - {(p, n)}, p, count))
  {
  }

  /** Tries to resize the live payload at `addr` where it is. A resize that is not sane claims success. */
  method Resize(m: MemoryManager, addr: nat, ghost n: nat, size: nat) returns (ok: bool, orig: nat)
    requires m.Valid() && (addr, n) in m.AllLive() && size % 8 == 4 && size < WORD_LIMIT
    modifies m.heaps
    ensures orig == n
    ensures old(SaneAt(m, addr, n, size)) ==>
      && m.Valid() && (ok <==> old(FitsAt(m, addr, n, size)))
      && (ok ==>
            && m.AllLive() == old(m.AllLive()) - {(addr, n)} + {(addr, if size < n then n else size)}
            && Same(old(m.GetImage()), m.GetImage(), old(m.AllLive()) - {(addr, n)})
            && Copied(old(m.GetImage()), m.GetImage(), addr, addr, Min(n, size)))
      && (!ok ==>
            && m.AllLive() == old(m.AllLive()) && m.GetImage() == old(m.GetImage())
            && m.heaps[m.activeHeap].offset == old(m.heaps[m.activeHeap].offset))
    ensures !old(SaneAt(m, addr, n, size)) ==> ok && Overruns(m, old(m.Home(addr, n)), addr, size)
  {
    hide Extent, Live, Tiled, AllAligned, Backed, Zeroed, Heap.Valid, PayloadsKept, Grow, PlacedAt, Houses, Same,
      Load, RunsOff, After, Copied, Describes, FitWraps, WalkStrays;
    ghost var g, l0, l1 := m.GetImage(), m.heaps[0].GetLive(), m.heaps[1].GetLive();
    ghost var top, count := m.initialHeap + INITIAL_SIZE, Min(n, size);
    HousesAll(m);
    LoadsAll(m, addr, n);
    ghost var sane := SaneAt(m, addr, n, size);
    var i := m.FindHeap(addr, n);
    var h := m.heaps[i];
    var p := addr - h.start;
    ghost var pre, post := SplitAt(h.blocks, 0, p, n);
    PayloadsSame(m.heaps[1 - i].words, m.heaps[1 - i].GetLive());
    ok, orig := ReallocInPlace(h, p, size, n, pre, post);
    if ok && sane {
      ResizedPlace(h.start, old(h.GetLive()), p, n, if size < n then n else size);
      ResizeKeeps(g, m.GetImage(), top, l0, l1, i, p, n, count);
      SameOwn(g, m.GetImage(), old(m.AllLive()), addr, n, count);
    }
  }

  lemma LoadsAll(m: MemoryManager, addr: nat, n: nat)
    requires m.Valid() && (addr, n) in m.AllLive()
    ensures forall k :: 0 <= k < n && k % 4 == 0 ==> Load(m.GetImage(), addr + k).Some?
  {
    forall k | 0 <= k < n && k % 4 == 0 ensures Load(m.GetImage(), addr + k).Some? {
      PayloadLoads(m, addr, n, k);
    }
  }

  lemma SameOwn(g: Image, g': Image, live: set<(nat, nat)>, addr: nat, n: nat, count: nat)
    requires Same(g, g', live - {(addr, n)} + {(addr, count)}) && count <= n
    requires forall k :: 0 <= k < n && k % 4 == 0 ==> Load(g, addr + k).Some?
    ensures Same(g, g', live - {(addr, n)}) && Copied(g, g', addr, addr, count)
  {
    hide Load;
    SameWithin(g, g', live - {(addr, n)} + {(addr, count)}, live - {(addr, n)});
    forall k | 0 <= k < count && k % 4 == 0 ensures Load(g', addr + k) == Load(g, addr + k) {
      assert (addr, count) in live - {(addr, n)} + {(addr, count)};
    }
  }

  // ---------------------------------------------------------------- moving

  method Allocate(m: MemoryManager, size: nat) returns (r: Option<nat>)
    requires m.Valid() && 0 < size < WORD_LIMIT && size % 8 == 4
    modifies m, m.heaps
    ensures !old(m.Wraps(size)) ==>
      && m.Valid() && Same(old(m.GetImage()), m.GetImage(), old(m.AllLive()))
      && (r.Some? ==>
            m.AllLive() == old(m.AllLive()) + {(r.value, size)} && (r.value, size) !in old(m.AllLive()))
      && (r.None? ==> m.AllLive() == old(m.AllLive()))
      && (r.None? ==>
            && m.pages == m.limit && m.Exhausted()
            && forall i :: 0 <= i < m.actualSize ==> !CanHold(m.heaps[i].blocks, size))
    ensures old(m.Wraps(size)) ==>
      && r.Some? && m.activeHeap == old(m.activeHeap)
      && m.heaps[m.activeHeap].offset <= old(m.heaps[m.activeHeap].offset)
  {
    hide Extent, Live, Tiled, AllAligned, Backed, Zeroed, Heap.Valid, PayloadsKept, PlacedAt, Houses, Same, Adjusted,
      CanHold;
    ghost var g, l0, l1 := m.GetImage(), m.heaps[0].GetLive(), m.heaps[1].GetLive();
    HousesAll(m);
    AdjustedOnce(size);
    ghost var wraps := m.Wraps(size);
    r := m.Malloc(size);
    if !wraps {
      HousesAll(m);
      assert Unmoved(g, m.GetImage(), m.initialHeap + INITIAL_SIZE) by { HousesTop(m); }
      KeptIsSame(g, m.GetImage(), m.initialHeap + INITIAL_SIZE, l0, l1);
    }
  }

  lemma AdjustedOnce(size: nat)
    requires size % 8 == 4
    ensures Adjusted(size) == size
  {
    BlockEnd(0, size);
    assert size + MARKER == 0 + MARKER + size;
  }

  lemma HousesTop(m: MemoryManager)
    requires m.Valid()
    ensures m.heaps[1].inited ==> m.heaps[1].start >= m.initialHeap + INITIAL_SIZE
  {
    hide Heap.Valid;
  }

  method Release(m: MemoryManager, addr: nat, ghost n: nat)
    requires m.Valid() && (addr, n) in m.AllLive()
    modifies m.heaps
    ensures m.Valid() && Same(old(m.GetImage()), m.GetImage(), old(m.AllLive()))
    ensures m.AllLive() == old(m.AllLive()) - {(addr, n)}
  {
    hide Extent, Live, Tiled, AllAligned, Backed, Zeroed, Heap.Valid, PayloadsKept, PlacedAt, Houses, Same;
    ghost var g, l0, l1 := m.GetImage(), m.heaps[0].GetLive(), m.heaps[1].GetLive();
    HousesAll(m);
    m.Free(Some(addr), n);
    assert Unmoved(g, m.GetImage(), m.initialHeap + INITIAL_SIZE) by { HousesTop(m); }
    KeptIsSame(g, m.GetImage(), m.initialHeap + INITIAL_SIZE, l0, l1);
  }

  /** Copies the first `count` bytes of one live payload into another. */
  method Copy(m: MemoryManager, from: nat, ghost n: nat, to: nat, ghost l: nat, count: nat)
    requires m.Valid() && (from, n) in m.AllLive() && (to, l) in m.AllLive() && (from, n) != (to, l)
    requires count <= n && count <= l && count % 4 == 0
    modifies m.heaps
    ensures m.Valid() && m.AllLive() == old(m.AllLive())
    ensures Copied(old(m.GetImage()), m.GetImage(), from, to, count)
    ensures WroteWithin(old(m.GetImage()), m.GetImage(), to, l)
  {
    hide Extent, Live, Tiled, AllAligned, Backed, Zeroed, Heap.Valid, PayloadsKept, PlacedAt, Load;
    ghost var g := m.GetImage();
    LoadsAll(m, from, n);
    m.LiveMemoryIsDisjoint(from, n, to, l);
    var k := 0;
    while k < count
      invariant k <= count && k % 4 == 0
      invariant m.Valid() && m.AllLive() == old(m.AllLive())
      invariant Copied(g, m.GetImage(), from, to, k)
      invariant WroteWithin(g, m.GetImage(), to, l)
    {
      var v := m.Fetch(from, n, k);
      m.Store(to, l, k, v);
      k := k + 4;
    }
  }

  /** Payloads that a copy does not write to, and the copied words, survive what keeps all payloads. */
  lemma MovedSame(
    g0: Image, g1: Image, g2: Image, g3: Image, live: set<(nat, nat)>, addr: nat, n: nat, r: nat, size: nat, count: nat)
    requires Same(g0, g1, live) && Same(g2, g3, live + {(r, size)}) && (addr, n) in live && count <= n && count <= size
    requires forall k :: 0 <= k < n && k % 4 == 0 ==> Load(g0, addr + k).Some?
    requires WroteWithin(g1, g2, r, size)
    requires forall q, l :: (q, l) in live ==> Disjoint(q, l, r, size)
    requires Copied(g1, g2, addr, r, count)
    ensures Same(g0, g3, live) && Copied(g0, g3, addr, r, count)
  {
    hide Load;
    forall q, l, a | (q, l) in live && q <= a < q + l && Load(g0, a).Some? ensures Load(g3, a) == Load(g0, a) {
      assert (q, l) in live + {(r, size)} && Disjoint(q, l, r, size);
    }
    forall k | 0 <= k < count && k % 4 == 0 ensures Load(g3, r + k) == Load(g0, addr + k) {
      assert (r, size) in live + {(r, size)};
    }
  }

  /** Allocates anew, copies and frees the old payload. */
  method Move(m: MemoryManager, addr: nat, n: nat, size: nat) returns (r: Option<nat>)
    requires m.Valid() && (addr, n) in m.AllLive() && 0 < size < WORD_LIMIT && size % 8 == 4 && !m.Wraps(size)
    modifies m, m.heaps
    ensures m.Valid() && Same(old(m.GetImage()), m.GetImage(), old(m.AllLive()))
    ensures r.Some? ==> r.value != addr && m.AllLive() == old(m.AllLive()) - {(addr, n)} + {(r.value, size)}
    ensures r.Some? ==> Copied(old(m.GetImage()), m.GetImage(), addr, r.value, Min(n, size))
    ensures r.None? ==> m.AllLive() == old(m.AllLive())
    ensures r.None? ==> m.pages == m.limit && m.Exhausted()
    ensures r.None? ==> forall i :: 0 <= i < m.actualSize ==> !CanHold(m.heaps[i].blocks, size)
  {
    hide Extent, Live, Tiled, AllAligned, Backed, Zeroed, Heap.Valid, PlacedAt, Same, Copied, Load, CanHold;
    ghost var g0, live := m.GetImage(), m.AllLive();
    LoadsAll(m, addr, n);
    r := Allocate(m, size);
    if r.None? {
      return;
    }
    ghost var g1 := m.GetImage();
    forall q, l | (q, l) in live ensures Disjoint(q, l, r.value, size) {
      m.LiveMemoryIsDisjoint(q, l, r.value, size);
    }
    var count := if size < n then size else n;
    SizeInFours(m, addr, n);
    InFours(size);
    Copy(m, addr, n, r.value, size, count);
    ghost var g2 := m.GetImage();
    Release(m, addr, n);
    MovedSame(g0, g1, g2, m.GetImage(), live, addr, n, r.value, size, count);
  }

  lemma SizeInFours(m: MemoryManager, addr: nat, n: nat)
    requires m.Valid() && (addr, n) in m.AllLive()
    ensures n % 4 == 0 && n > 0
  {
    hide Extent, Live, Tiled, Backed, Zeroed, AllAligned;
    var h := m.heaps[m.Home(addr, n)];
    Unplaced(h.start, h.GetLive(), addr, n);
    LiveAligned(h.blocks, 0, addr - h.start, n);
    InFours(n);
  }

  lemma InFours(n: nat)
    requires n % 8 == 4
    ensures n % 4 == 0
  {
    var a := n / 8;
    assert n == 8 * a + 4 == 4 * (2 * a + 1);
    Fours(2 * a + 1);
  }

  // ---------------------------------------------------------------- realloc

  ghost function Held(ptr: Option<nat>, n: nat): set<(nat, nat)> { if ptr.Some? then {(ptr.value, n)} else {} }

  /** `realloc`. Success replaces the payload by one of the new size, with the same contents as far as
      both reach; a payload that shrinks in place keeps its old size. Failure changes nothing, and means
      that no free memory can hold the request. Other payloads are never touched. All this if resizing in
      place is sane; if not, success is claimed for a payload that runs over the end of its heap's blocks. */
  method Realloc(m: MemoryManager, ptr: Option<nat>, ghost n: nat, request: nat) returns (r: Option<nat>)
    requires m.Valid() && request < WORD_LIMIT && (ptr.Some? ==> (ptr.value, n) in m.AllLive())
    requires request > 0 && ptr.Some? && SaneAt(m, ptr.value, n, Adjusted(request)) ==> !m.Wraps(Adjusted(request))
    modifies m, m.heaps
    ensures request == 0 || (ptr.None? && !old(m.Wraps(Adjusted(request)))) ||
            (ptr.Some? && old(SaneAt(m, ptr.value, n, Adjusted(request)))) ==>
      && m.Valid() && (request == 0 ==> r.None?)
      && (request > 0 && ptr.Some? ==> (r == ptr <==> old(FitsAt(m, ptr.value, n, Adjusted(request)))))
      && Same(old(m.GetImage()), m.GetImage(), old(m.AllLive()) - Held(ptr, n))
      && (r.Some? ==>
            m.AllLive() == old(m.AllLive()) - Held(ptr, n) +
                           {(r.value, if r == ptr && Adjusted(request) < n then n else Adjusted(request))})
      && (r.Some? && ptr.Some? ==>
            Copied(old(m.GetImage()), m.GetImage(), ptr.value, r.value, Min(n, Adjusted(request))))
      && (r.None? && request == 0 ==> m.AllLive() == old(m.AllLive()) - Held(ptr, n))
      && (r.None? && request > 0 ==>
            && m.AllLive() == old(m.AllLive()) && Same(old(m.GetImage()), m.GetImage(), old(m.AllLive()))
            && m.pages == m.limit && m.Exhausted() && forall i :: 0 <= i < m.actualSize ==>
              !CanHold(m.heaps[i].blocks, Adjusted(request)))
    ensures request > 0 && ptr.Some? && !old(SaneAt(m, ptr.value, n, Adjusted(request))) ==>
      r == ptr && Overruns(m, old(m.Home(ptr.value, n)), ptr.value, Adjusted(request))
    ensures request > 0 && ptr.None? && old(m.Wraps(Adjusted(request))) ==>
      && r.Some? && m.activeHeap == old(m.activeHeap)
      && m.heaps[m.activeHeap].offset <= old(m.heaps[m.activeHeap].offset)
  {
    hide Extent, Live, Tiled, AllAligned, Backed, Zeroed, Heap.Valid, PlacedAt, Same, Copied, Load, CanHold, Adjusted,
      Sane, Overruns;
    ghost var g, live := m.GetImage(), m.AllLive();
    if request == 0 {
      SameAgain(g, live);
      if ptr.Some? { Release(m, ptr.value, n); }
      SameWithin(g, m.GetImage(), live, live - Held(ptr, n));
      return None;
    }
    AdjustedAligned(request);
    AdjustedOnce(Adjusted(request));
    var size := Adjusted(request);
    if ptr.None? {
      ghost var wraps := m.Wraps(size);
      r := Allocate(m, size);
      if !wraps { SameWithin(g, m.GetImage(), live, live - Held(ptr, n)); }
      return;
    }
    var ok, orig := Resize(m, ptr.value, n, size);
    if ok {
      return ptr;
    }
    r := Move(m, ptr.value, orig, size);
    SameWithin(g, m.GetImage(), live, live - Held(ptr, n));
  }

  lemma SameAgain(g: Image, live: set<(nat, nat)>)
    ensures Same(g, g, live)
  {
  }
}
