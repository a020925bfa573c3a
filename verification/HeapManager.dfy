/** The allocator as a whole: a static first heap, then heaps carved out of memory grown page by page,
    and, once memory cannot grow, first fit over what was freed. Memory is limited to less than 2 GiB
    and is grown by this code only. */
module HeapManager {
  import opened Sums
  import opened HeapBlocks
  import opened HeapMemory

  const HEAP_SLOTS := 16
  const INITIAL_SIZE := 8192
  const PAGE := 65536

  /** Rounds a request up so that header and payload together fill whole eight byte units, in 32 bit
      arithmetic. */
  function Adjusted(request: nat): nat {
    var remainder := (request + MARKER) % 8;
    if remainder > 0 then (request + 8 - remainder) % WORD_LIMIT else request
  }

  /** How much to grow memory that ends at `end`: to the end of the page, or of the next one when less
      than a kibibyte of this one is left. */
  function Growth(end: nat): int {
    if end % PAGE <= PAGE - 1024 then (end + PAGE) - (end % PAGE) - end
    else (end + PAGE * 2) - (end % (PAGE * 2)) - end
  }

  function RoundedUp(bytes: nat): nat { (bytes + 7) / 8 * 8 }

  function PagesFor(end: nat): nat { (end + PAGE - 1) / PAGE }

  /** So many pages hold `end` bytes, and fewer do not. */
  lemma PagesSuffice(end: nat)
    ensures end <= PagesFor(end) * PAGE < end + PAGE
  {
  }

  lemma PagesAreMonotone(end: nat, pages: nat)
    requires end <= pages * PAGE
    ensures PagesFor(end) <= pages
  {
  }

  function Zeros(lo: nat, hi: nat): Words { map k | lo <= k < hi && k % 4 == 0 :: 0 }

  function PlacedAt(start: nat, live: set<(nat, nat)>): set<(nat, nat)> {
    set x | x in live :: (start + x.0, x.1)
  }

  /** The live payloads of a heap at their absolute addresses. */
  ghost function Placed(h: Heap): set<(nat, nat)>
    reads h
  {
    PlacedAt(h.start, h.GetLive())
  }

  /** The memory behind the two heaps: for each whether it is in use, where it starts, and its words. */
  datatype Image = Image(inited0: bool, start0: nat, words0: Words, inited1: bool, start1: nat, words1: Words)

  /** The word at an address, if there is memory there. */
  function Load(g: Image, addr: nat): Option<Word> {
    if g.inited1 && addr >= g.start1 then
      if addr - g.start1 in g.words1 then Some(g.words1[addr - g.start1]) else None
    else if addr >= g.start0 && addr - g.start0 in g.words0 then Some(g.words0[addr - g.start0])
    else None
  }

  /** One word changed. */
  ghost predicate Wrote(g: Image, g': Image, addr: nat, v: Word) {
    Load(g', addr) == Some(v) && forall a :: a != addr ==> Load(g', a) == Load(g, a)
  }

  ghost predicate Unused(h: Heap)
    reads h
  {
    !h.inited && h.size == 0 && h.blocks == []
  }

  ghost predicate Closed(h: Heap)
    reads h
  {
    h.inited && h.size > 0 && h.offset == h.size
  }

  class MemoryManager {
    const limit: nat          // pages the host grants
    const initialHeap: nat    // address of the static first heap
    const heaps: seq<Heap>
    var brk: nat
    var pages: nat
    var actualSize: nat
    var activeHeap: nat
    var activeFreeHeap: nat

    /** The slots are separate objects, each tiled. */
    ghost predicate Slots()
      reads this, heaps
    {
      && |heaps| == HEAP_SLOTS
      && (forall i, j :: 0 <= i < j < HEAP_SLOTS ==> heaps[i] != heaps[j])
      && (forall i :: 0 <= i < HEAP_SLOTS ==> heaps[i].Valid())
      && (forall i :: 2 <= i < HEAP_SLOTS ==> Unused(heaps[i]))
    }

    /** Heap 0 is the static buffer; heap 1 ends where memory ends, so it alone can be expanded. */
    ghost predicate Layout()
      requires |heaps| == HEAP_SLOTS
      reads this, heaps
    {
      && limit * PAGE < ALLOC_BIT && brk == pages * PAGE && pages <= limit
      && initialHeap + INITIAL_SIZE < brk
      && (if heaps[0].inited then heaps[0].start == initialHeap && heaps[0].size == INITIAL_SIZE else Unused(heaps[0]))
      && (if heaps[1].inited then
            && heaps[1].start + heaps[1].size == brk
            && heaps[1].start > initialHeap + INITIAL_SIZE
            && heaps[1].size > 0
          else Unused(heaps[1]))
    }

    ghost predicate Exhausted()
      reads this
    {
      activeHeap > 0 && actualSize == activeHeap
    }

    ghost predicate Phase()
      requires |heaps| == HEAP_SLOTS
      reads this, heaps
    {
      if Exhausted() then
        && pages == limit && activeHeap <= 2 && activeFreeHeap < actualSize
        && Closed(heaps[0]) && (if activeHeap == 2 then Closed(heaps[1]) else !heaps[1].inited)
      else
        && activeHeap <= 1 && activeFreeHeap == 0
        && (if activeHeap == 1 then actualSize == HEAP_SLOTS && Closed(heaps[0]) && heaps[1].inited
            else !heaps[1].inited && (if heaps[0].inited then actualSize == HEAP_SLOTS
                                      else actualSize in {0, HEAP_SLOTS}))
    }

    ghost predicate Valid()
      reads this, heaps
    {
      Slots() && Layout() && Phase()
    }

    ghost function AllLive(): set<(nat, nat)>
      requires |heaps| == HEAP_SLOTS
      reads this, heaps
    {
      Placed(heaps[0]) + Placed(heaps[1])
    }

    /** The allocator before its first use: `initialPages` pages of memory, of which the static first
        heap is a part. */
    constructor (limit: nat, initialPages: nat, initialHeap: nat)
      requires limit * PAGE < ALLOC_BIT && initialPages <= limit
      requires initialHeap + INITIAL_SIZE < initialPages * PAGE
      ensures Valid() && AllLive() == {}
      ensures this.limit == limit && this.initialHeap == initialHeap && pages == initialPages
      ensures activeHeap == 0 && !Exhausted() && heaps[0].offset == 0 && fresh(heaps)
    {
      this.limit, this.initialHeap := limit, initialHeap;
      brk, pages := initialPages * PAGE, initialPages;
      actualSize, activeHeap, activeFreeHeap := 0, 0, 0;
      var hs: seq<Heap> := [];
      for k := 0 to HEAP_SLOTS
        invariant |hs| == k && fresh(hs)
        invariant forall i, j :: 0 <= i < j < k ==> hs[i] != hs[j]
        invariant forall i :: 0 <= i < k ==> hs[i].Valid() && Unused(hs[i])
      {
        var h := new Heap();
        hs := hs + [h];
      }
      heaps := hs;
    }

    /** Moves the end of the memory in use. It fails exactly when the host does not grant the pages that
        takes, and takes no more pages than it needs. */
    method Sbrk(bytes: nat) returns (at: Option<nat>)
      requires limit * PAGE < ALLOC_BIT && pages <= limit && brk <= pages * PAGE
      modifies this`brk, this`pages
      ensures at.Some? <==> bytes < ALLOC_BIT && PagesFor(old(brk) + RoundedUp(bytes)) <= limit
      ensures at.Some? ==> at.value == old(brk) && brk == old(brk) + RoundedUp(bytes)
      ensures at.Some? ==> brk <= pages * PAGE && pages <= limit
      ensures at.Some? ==> pages == (if PagesFor(brk) > old(pages) then PagesFor(brk) else old(pages))
      ensures at.None? ==> brk == old(brk) && pages == old(pages)
    {
      if bytes > ALLOC_BIT - 1 {
        return None;
      }
      PagesSuffice(brk + RoundedUp(bytes));
      PagesAreMonotone(brk, pages);
      var desired := PagesFor(brk + RoundedUp(bytes));
      if desired > pages {
        if desired > limit {
          return None;
        }
        pages := desired;
      }
      at := Some(brk);
      brk := brk + RoundedUp(bytes);
    }

    /** Of every live payload, no word changed; and no heap in use moved. */
    twostate predicate Undisturbed()
      requires |heaps| == HEAP_SLOTS
      reads this, heaps
    {
      && (old(heaps[0].inited) ==> heaps[0].inited && heaps[0].start == old(heaps[0].start))
      && (old(heaps[1].inited) ==> heaps[1].inited && heaps[1].start == old(heaps[1].start))
      && PayloadsKept(old(heaps[0].words), heaps[0].words, old(heaps[0].GetLive()))
      && PayloadsKept(old(heaps[1].words), heaps[1].words, old(heaps[1].GetLive()))
    }

    /** Each heap's live payloads are what they were. */
    twostate predicate SameLive()
      requires |heaps| == HEAP_SLOTS
      reads this, heaps
    {
      && heaps[0].GetLive() == old(heaps[0].GetLive()) && heaps[1].GetLive() == old(heaps[1].GetLive())
      && Placed(heaps[0]) == old(Placed(heaps[0])) && Placed(heaps[1]) == old(Placed(heaps[1]))
    }

    /** The host has refused a page: the rest of the active heap becomes a free block and no slot is active. */
    method Exhaust()
      requires Valid() && !Exhausted() && actualSize == HEAP_SLOTS && heaps[activeHeap].inited && pages == limit
      modifies this`activeHeap, this`actualSize, heaps[activeHeap]
      ensures Valid() && SameLive() && Undisturbed() && Exhausted()
    {
      hide Extent, Live, Tiled, PayloadsKept, AllAligned, Backed, Zeroed, PlacedAt;
      PayloadsSame(heaps[1 - activeHeap].words, heaps[1 - activeHeap].GetLive());
      heaps[activeHeap].CleanupRemaining();
      activeHeap := activeHeap + 1;
      actualSize := activeHeap;
    }

    /** The active heap cannot be extended: it is closed, and the new page starts the next slot. */
    method OpenNextHeap(at: nat)
      requires Slots() && Layout0() && activeHeap == 0 && actualSize == HEAP_SLOTS && activeFreeHeap == 0
      requires heaps[0].inited && !heaps[1].inited && at + PAGE == brk && at > initialHeap + INITIAL_SIZE
      modifies this`activeHeap, heaps[0], heaps[1]
      ensures Valid() && SameLive() && Undisturbed()
      ensures activeHeap == 1 && !Exhausted() && heaps[1].inited && heaps[1].offset == 0 && heaps[1].size == PAGE
    {
      hide Extent, Live, Tiled, PayloadsKept, AllAligned, Backed, Zeroed, PlacedAt;
      heaps[0].CleanupRemaining();
      activeHeap := activeHeap + 1;
      NothingLive(heaps[1]);
      ZerosAreZero(0, PAGE);
      heaps[1].Init(at, PAGE, Zeros(0, PAGE));
      NothingLive(heaps[1]);
      PayloadsNone(old(heaps[1].words), heaps[1].words);
    }

    ghost predicate Layout0()
      requires |heaps| == HEAP_SLOTS
      reads this, heaps
    {
      && limit * PAGE < ALLOC_BIT && brk == pages * PAGE && pages <= limit
      && initialHeap + INITIAL_SIZE < brk
      && heaps[0].start == initialHeap && heaps[0].size == INITIAL_SIZE && Unused(heaps[1])
    }

    /** The active heap has room for `n` bytes and their header, once it is set up. */
    ghost predicate Roomy(n: nat)
      requires |heaps| == HEAP_SLOTS && activeHeap < HEAP_SLOTS
      reads this, heaps
    {
      heaps[activeHeap].offset + n + MARKER <=
      if heaps[activeHeap].inited then heaps[activeHeap].size else INITIAL_SIZE
    }

    /** `n` bytes and their header fit into the active heap, or into what it or the next one can grow to. */
    ghost predicate Reachable(n: nat)
      requires |heaps| == HEAP_SLOTS && activeHeap < HEAP_SLOTS && pages <= limit
      reads this, heaps
    {
      Roomy(n) || RoomAt(limit) >= n + MARKER
    }

    /** What is left of the active heap, or of the next one, once memory has grown to `p` pages. */
    ghost function RoomAt(p: nat): int
      requires |heaps| == HEAP_SLOTS && activeHeap < HEAP_SLOTS
      reads this, heaps
    {
      (p - pages) * PAGE + if activeHeap == 1 then heaps[1].size - heaps[1].offset else 0
    }

    /** Grows memory by one page. It extends the active heap when that one ends where memory ends,
        else opens the next slot; when the host refuses, the allocator is exhausted. */
    method NextActiveHeap() returns (grown: bool)
      requires Valid() && !Exhausted() && actualSize == HEAP_SLOTS && heaps[activeHeap].inited
      modifies this`brk, this`pages, this`activeHeap, this`actualSize, heaps
      ensures Valid() && SameLive() && Undisturbed()
      ensures grown ==> !Exhausted() && actualSize == HEAP_SLOTS && heaps[activeHeap].inited && pages == old(pages) + 1
      ensures grown ==> heaps[activeHeap].offset <= old(heaps[activeHeap].offset)
      ensures grown ==> activeHeap == 1 && heaps[1].size - heaps[1].offset == old(RoomAt(pages + 1))
      ensures grown <==> old(pages) < limit
      ensures !grown ==> Exhausted() && pages == old(pages)
    {
      hide Extent, Live, Tiled, PayloadsKept, AllAligned, Backed, Zeroed, Growth, Heap.Valid, PagesFor, RoundedUp;
      GrowthIsPage(brk, pages);
      WholePages(pages);
      var size := Sbrk(0);
      // memory stays below 2 GiB, so the address is never negative as a signed number
      assert size == Some(brk) && brk < ALLOC_BIT;
      var adj := Growth(brk);
      // memory always ends at a page boundary
      assert adj == PAGE;
      var at := Sbrk(adj);
      OnePageMore(old(pages));
      if at.None? {
        Exhaust();
        return false;
      }
      var current := heaps[activeHeap];
      PayloadsSame(heaps[1 - activeHeap].words, heaps[1 - activeHeap].GetLive());
      ZerosAreZero(current.size, current.size + adj);
      var expanded := current.ExpandMemory(at.value, adj, Zeros(current.size, current.size + adj));
      if !expanded {
        OpenNextHeap(at.value);
      }
      return true;
    }

    /** The request makes the sum of the room test wrap around in 32 bits. */
    ghost predicate Wraps(n: nat)
      requires |heaps| == HEAP_SLOTS && activeHeap <= 2
      reads this, heaps
    {
      !Exhausted() && heaps[activeHeap].offset + n + MARKER >= WORD_LIMIT
    }

    /** Allocates at the end of the active heap, if there is room. */
    method BumpActive(n: nat) returns (r: Option<nat>)
      requires Valid() && !Exhausted() && heaps[activeHeap].inited && n % 8 == 4 && n < WORD_LIMIT
      modifies heaps[activeHeap]
      ensures !old(Wraps(n)) ==>
        && Valid() && Undisturbed() && heaps[activeHeap].inited
        && (r.Some? <==> old(heaps[activeHeap].offset) + n + MARKER <= heaps[activeHeap].size)
        && heaps[activeHeap].size == old(heaps[activeHeap].size)
        && (r.Some? ==> heaps[activeHeap].offset == old(heaps[activeHeap].offset) + n + MARKER)
        && (r.Some? ==> r.value + n == heaps[activeHeap].start + heaps[activeHeap].offset)
        && (r.None? ==> SameLive() && heaps[activeHeap].offset == old(heaps[activeHeap].offset))
        && (r.Some? ==> AllLive() == old(AllLive()) + {(r.value, n)} && (r.value, n) !in old(AllLive()))
      ensures old(Wraps(n)) ==> r.Some? && heaps[activeHeap].offset <= old(heaps[activeHeap].offset)
    {
      hide Extent, Live, Tiled, PayloadsKept, AllAligned, Heap.Valid, PlacedAt;
      var h := heaps[activeHeap];
      ghost var other := heaps[1 - activeHeap];
      PayloadsSame(other.words, other.GetLive());
      var p := h.Malloc(n);
      if p.None? {
        return None;
      }
      r := Some(h.start + p.value);
      if h.Valid() && h.GetLive() == old(h.GetLive()) + {(p.value, n)} && !old(Wraps(n)) {
        NewPlace(h.start, old(h.GetLive()), p.value, n);
        PlacedApart(h, other, h.start + p.value, n);
      }
    }

    /** The payload ends where the active heap is allocated to, in the last page of memory if memory has grown. */
    twostate predicate Bumped(p: nat, n: nat)
      requires |heaps| == HEAP_SLOTS && activeHeap < HEAP_SLOTS
      reads this, heaps
    {
      && p + n == heaps[activeHeap].start + heaps[activeHeap].offset && pages >= old(pages)
      && (pages > old(pages) ==> heaps[activeHeap].offset > heaps[activeHeap].size - PAGE)
    }

    /** Allocates at the end of the active heap, growing memory by no more pages than that takes, as long as the
        host grants them. */
    method Bump(n: nat) returns (r: Option<nat>)
      requires Valid() && !Exhausted() && actualSize == HEAP_SLOTS && heaps[activeHeap].inited
      requires n % 8 == 4 && n < WORD_LIMIT
      modifies this`brk, this`pages, this`activeHeap, this`actualSize, heaps
      ensures !old(Wraps(n)) ==>
        && Valid() && Undisturbed()
        && (r.Some? <==> old(Reachable(n)))
        && (r.None? ==> Exhausted() && SameLive() && pages == limit)
        && (r.Some? ==> AllLive() == old(AllLive()) + {(r.value, n)} && (r.value, n) !in old(AllLive()))
        && (r.Some? ==> !Exhausted() && Bumped(r.value, n) && (pages == old(pages) <==> old(Roomy(n))))
      ensures old(Wraps(n)) ==>
        r.Some? && activeHeap == old(activeHeap) && heaps[activeHeap].offset <= old(heaps[activeHeap].offset)
    {
      hide Extent, Live, Tiled, PayloadsKept, AllAligned, Backed, Zeroed, Heap.Valid, PlacedAt, Closed, Unused;
      PayloadsSame(heaps[0].words, heaps[0].GetLive());
      PayloadsSame(heaps[1].words, heaps[1].GetLive());
      ghost var wraps := Wraps(n);
      var more := true;
      r := None;
      while more
        invariant Valid() && Undisturbed() && SameLive() && r.None?
        invariant if more then !Exhausted() && actualSize == HEAP_SLOTS && heaps[activeHeap].inited else Exhausted()
        invariant pages >= old(pages) && (!more ==> pages == limit && !old(Roomy(n)))
        invariant more && pages == old(pages) ==>
          && activeHeap == old(activeHeap) && heaps[activeHeap].offset == old(heaps[activeHeap].offset)
          && heaps[activeHeap].size == old(heaps[activeHeap].size)
        invariant more && pages > old(pages) ==>
          && !old(Roomy(n)) && activeHeap == 1 && RoomAt(limit) == old(RoomAt(limit))
          && heaps[1].offset + n + MARKER > heaps[1].size - PAGE
        invariant !more ==> !old(Reachable(n))
        invariant if wraps then more && Wraps(n) && activeHeap == old(activeHeap)
                  && heaps[activeHeap].offset == old(heaps[activeHeap].offset)
                  else more ==> !Wraps(n)
        decreases more, limit - pages
      {
        ghost var w0, w1 := heaps[0].words, heaps[1].words;
        r := BumpActive(n);
        if !wraps {
          PayloadsTrans(old(heaps[0].words), w0, heaps[0].words, old(heaps[0].GetLive()));
          PayloadsTrans(old(heaps[1].words), w1, heaps[1].words, old(heaps[1].GetLive()));
        }
        if r.Some? {
          return;
        }
        w0, w1 := heaps[0].words, heaps[1].words;
        more := NextActiveHeap();
        PayloadsTrans(old(heaps[0].words), w0, heaps[0].words, old(heaps[0].GetLive()));
        PayloadsTrans(old(heaps[1].words), w1, heaps[1].words, old(heaps[1].GetLive()));
      }
    }

    /** Searches the freed memory of one closed heap. */
    method ReuseIn(i: nat, n: nat) returns (r: Option<nat>)
      requires Valid() && Exhausted() && i < actualSize && n % 8 == 4
      modifies heaps[i]
      ensures Valid() && Undisturbed()
      ensures r.None? ==> SameLive() && !CanHold(heaps[i].blocks, n)
      ensures r.Some? ==> AllLive() == old(AllLive()) + {(r.value, n)} && (r.value, n) !in old(AllLive())
    {
      hide Extent, Live, Tiled, PayloadsKept, AllAligned, Heap.Valid, PlacedAt, FromFreed, CanHold;
      var h := heaps[i];
      ghost var other := heaps[1 - i];
      PayloadsSame(other.words, other.GetLive());
      SearchLaw(h, n);
      // every heap searched here is completely tiled
      assert h.offset == h.size;
      var p := h.MallocFromFreed(n);
      if p.None? {
        return None;
      }
      NewPlace(h.start, old(h.GetLive()), p.value, n);
      PlacedApart(h, other, h.start + p.value, n);
      return Some(h.start + p.value);
    }

    method Advance()
      requires Valid() && Exhausted()
      modifies this`activeFreeHeap
      ensures Valid() && Exhausted()
      ensures activeFreeHeap == if old(activeFreeHeap) + 1 == actualSize then 0 else old(activeFreeHeap) + 1
    {
      activeFreeHeap := activeFreeHeap + 1;
      if activeFreeHeap == actualSize {
        activeFreeHeap := 0;
      }
    }

    /** Searches the closed heaps in turn, starting where the last search succeeded. */
    method Reuse(n: nat) returns (r: Option<nat>)
      requires Valid() && Exhausted() && n % 8 == 4
      modifies this`activeFreeHeap, heaps
      ensures Valid() && Undisturbed()
      ensures r.None? ==> SameLive() && forall i :: 0 <= i < actualSize ==> !CanHold(heaps[i].blocks, n)
      ensures r.Some? ==> AllLive() == old(AllLive()) + {(r.value, n)} && (r.value, n) !in old(AllLive())
    {
      hide Extent, Live, Tiled, PayloadsKept, AllAligned, Heap.Valid, CanHold, Unused, Closed, Layout;
      PayloadsSame(heaps[0].words, heaps[0].GetLive());
      PayloadsSame(heaps[1].words, heaps[1].GetLive());
      var end := activeFreeHeap;
      var first := true;
      ghost var tried: set<nat> := {};
      r := None;
      while first || activeFreeHeap != end
        invariant Valid() && Exhausted() && Undisturbed() && SameLive() && r.None?
        invariant forall i <- tried :: i < actualSize && !CanHold(heaps[i].blocks, n)
        invariant if first then activeFreeHeap == end && tried == {}
                  else if activeFreeHeap != end then actualSize == 2 && tried == {end}
                  else forall i :: 0 <= i < actualSize ==> i in tried
        decreases if first then 2 else if activeFreeHeap != end then 1 else 0
      {
        ghost var w0, w1 := heaps[0].words, heaps[1].words;
        r := ReuseIn(activeFreeHeap, n);
        PayloadsTrans(old(heaps[0].words), w0, heaps[0].words, old(heaps[0].GetLive()));
        PayloadsTrans(old(heaps[1].words), w1, heaps[1].words, old(heaps[1].GetLive()));
        if r.Some? {
          return;
        }
        tried := tried + {activeFreeHeap};
        first := false;
        Advance();
      }
    }

    /** Sets up the static first heap before the first allocation. */
    method Prepare()
      requires Valid() && !Exhausted()
      modifies this`actualSize, heaps[0]
      ensures Valid() && SameLive() && Undisturbed()
      ensures !Exhausted() && actualSize == HEAP_SLOTS && heaps[activeHeap].inited
      ensures heaps[activeHeap].offset == old(heaps[activeHeap].offset)
      ensures forall n :: Roomy(n) == old(Roomy(n))
    {
      hide Extent, Live, Tiled, PayloadsKept, AllAligned, Backed, Zeroed, PlacedAt;
      PayloadsSame(heaps[0].words, heaps[0].GetLive());
      PayloadsSame(heaps[1].words, heaps[1].GetLive());
      if actualSize == 0 {
        actualSize := HEAP_SLOTS;
      }
      if activeHeap == 0 && !heaps[0].inited {
        NothingLive(heaps[0]);
        ZerosAreZero(0, INITIAL_SIZE);
        heaps[0].Init(initialHeap, INITIAL_SIZE, Zeros(0, INITIAL_SIZE));
        NothingLive(heaps[0]);
        PayloadsNone(old(heaps[0].words), heaps[0].words);
      }
    }

    /** `malloc`. Success adds exactly one payload, of the size the request is adjusted to, and disturbs no
        other. It comes from the active heap while memory lasts, and memory grows only when that heap has no
        room, by no more pages than it takes. Failure means that the host refuses the next page and no run of
        freed blocks can hold the request. All this
        as long as the room test does not wrap around; if it does, a payload is handed out that the heap has
        no room for, and the next one will not be put behind it. */
    method Malloc(request: nat) returns (r: Option<nat>)
      requires Valid() && request < WORD_LIMIT
      modifies this, heaps
      ensures request == 0 || !old(Wraps(Adjusted(request))) ==>
        && Valid() && Undisturbed()
        && (r.Some? ==>
              && AllLive() == old(AllLive()) + {(r.value, Adjusted(request))}
              && (r.value, Adjusted(request)) !in old(AllLive()))
        && (r.None? ==> SameLive())
        && (r.Some? && !Exhausted() ==>
              && Bumped(r.value, Adjusted(request))
              && (pages == old(pages) <==> old(Roomy(Adjusted(request)))))
        && (!old(Exhausted()) && request > 0 ==> (!Exhausted() <==> old(Reachable(Adjusted(request)))))
        && (r.None? && request > 0 ==>
              pages == limit && Exhausted() && forall i :: 0 <= i < actualSize ==>
                !CanHold(heaps[i].blocks, Adjusted(request)))
      ensures request > 0 && old(Wraps(Adjusted(request))) ==>
        r.Some? && activeHeap == old(activeHeap) && heaps[activeHeap].offset <= old(heaps[activeHeap].offset)
    {
      hide Extent, Live, Tiled, PayloadsKept, AllAligned, Heap.Valid, CanHold, Unused, Closed, Layout, Adjusted;
      PayloadsSame(heaps[0].words, heaps[0].GetLive());
      PayloadsSame(heaps[1].words, heaps[1].GetLive());
      if request == 0 {
        return None;
      }
      AdjustedAligned(request);
      var n := Adjusted(request);
      ghost var wraps := Wraps(n);
      if activeHeap < actualSize || activeHeap == 0 {
        Prepare();
        ghost var w0, w1 := heaps[0].words, heaps[1].words;
        r := Bump(n);
        if !wraps {
          PayloadsTrans(old(heaps[0].words), w0, heaps[0].words, old(heaps[0].GetLive()));
          PayloadsTrans(old(heaps[1].words), w1, heaps[1].words, old(heaps[1].GetLive()));
        }
        if r.Some? {
          return;
        }
      }
      ghost var w0, w1 := heaps[0].words, heaps[1].words;
      r := Reuse(n);
      PayloadsTrans(old(heaps[0].words), w0, heaps[0].words, old(heaps[0].GetLive()));
      PayloadsTrans(old(heaps[1].words), w1, heaps[1].words, old(heaps[1].GetLive()));
    }

    /** `free`: nothing for a null pointer, else it looks for the heap that holds the payload. */
    method Free(ptr: Option<nat>, ghost n: nat)
      requires Valid() && (ptr.Some? ==> (ptr.value, n) in AllLive())
      modifies heaps
      ensures Valid() && Undisturbed()
      ensures AllLive() == old(AllLive()) - if ptr.Some? then {(ptr.value, n)} else {}
    {
      hide Extent, Live, Tiled, PayloadsKept, AllAligned, Heap.Valid, PlacedAt;
      PayloadsSame(heaps[0].words, heaps[0].GetLive());
      PayloadsSame(heaps[1].words, heaps[1].GetLive());
      if ptr.None? {
        return;
      }
      var addr := ptr.value;
      var i := FindHeap(addr, n);
      heaps[i].Free(addr - heaps[i].start, n);
      GonePlace(heaps[i].start, old(heaps[i].GetLive()), addr - heaps[i].start, n);
    }

    /** The first heap in use that the address of a live payload is in: the one the payload belongs to. */
    method FindHeap(addr: nat, ghost n: nat) returns (i: nat)
      requires Valid() && (addr, n) in AllLive()
      ensures i == Home(addr, n)
      ensures (addr - heaps[i].start, n) in heaps[i].GetLive() && (addr, n) !in Placed(heaps[1 - i])
    {
      hide Extent, Live, Tiled, AllAligned, Heap.Valid, PlacedAt;
      ghost var at := Home(addr, n);
      i := 0;
      while i < actualSize && heaps[i].inited && !(heaps[i].start + MARKER <= addr < heaps[i].start + heaps[i].size)
        invariant 0 <= i <= at
        decreases at - i
      {
        i := i + 1;
      }
      FoundHome(addr, n, i);
    }

    ghost function GetImage(): Image
      requires |heaps| == HEAP_SLOTS
      reads this, heaps
    {
      Image(heaps[0].inited, heaps[0].start, heaps[0].words, heaps[1].inited, heaps[1].start, heaps[1].words)
    }

    /** A program's own store into a payload it holds. */
    method Store(addr: nat, ghost n: nat, k: nat, v: Word)
      requires Valid() && (addr, n) in AllLive() && k < n && k % 4 == 0
      modifies heaps
      ensures Valid() && SameLive() && Wrote(old(GetImage()), GetImage(), addr + k, v)
      ensures Exhausted() == old(Exhausted())
    {
      hide Extent, Live, Tiled, AllAligned, Backed, Zeroed, PlacedAt, Heap.Valid;
      var i := FindHeap(addr, n);
      heaps[i].Store(addr - heaps[i].start, n, k, v);
    }

    /** A program's own load from a payload it holds. */
    method Fetch(addr: nat, ghost n: nat, k: nat) returns (v: Word)
      requires Valid() && (addr, n) in AllLive() && k < n && k % 4 == 0
      ensures Load(GetImage(), addr + k) == Some(v)
    {
      hide Extent, Live, Tiled, AllAligned, Backed, Zeroed, PlacedAt;
      var i := FindHeap(addr, n);
      PayloadBacked(heaps[i], addr - heaps[i].start, n, k);
      v := heaps[i].words[addr + k - heaps[i].start];
    }

    /** The slot of the heap that a live payload lies in. */
    ghost function Home(addr: nat, n: nat): (i: nat)
      requires Valid() && (addr, n) in AllLive()
      reads this, heaps
      ensures i <= 1 && i < actualSize && heaps[i].inited && (addr, n) in Placed(heaps[i])
      ensures heaps[i].start + MARKER <= addr && addr + n <= heaps[i].start + heaps[i].size && n > 0
      ensures i == 1 ==> heaps[0].inited
    {
      var i := if (addr, n) in Placed(heaps[0]) then 0 else 1;
      PlacedInside(heaps[i], addr, n);
      i
    }

    lemma FoundHome(addr: nat, n: nat, i: nat)
      requires Valid() && (addr, n) in AllLive() && i <= 1 && heaps[i].inited
      requires heaps[i].start + MARKER <= addr < heaps[i].start + heaps[i].size
      ensures (addr - heaps[i].start, n) in heaps[i].GetLive() && (addr, n) !in Placed(heaps[1 - i])
    {
      hide Extent, Live, Tiled, AllAligned, Backed, Zeroed;
      if (addr, n) in Placed(heaps[1 - i]) {
        PlacedInside(heaps[1 - i], addr, n);
      }
    }

    /** Any two live payloads of the whole allocator occupy disjoint addresses. */
    lemma LiveMemoryIsDisjoint(p: nat, n: nat, q: nat, m: nat)
      requires Valid() && (p, n) in AllLive() && (q, m) in AllLive() && (p, n) != (q, m)
      ensures Disjoint(p, n, q, m)
    {
      hide Extent, Live, Tiled, AllAligned, Backed, Zeroed;
      var i, j := Home(p, n), Home(q, m);
      if i == j {
        var h := heaps[i];
        LivePayloadsDisjoint(h.blocks, 0, p - h.start, n, q - h.start, m);
      }
    }
  }

  /** Every word of a live payload is there. */
  lemma PayloadBacked(h: Heap, p: nat, n: nat, k: nat)
    requires h.Valid() && (p, n) in h.GetLive() && k < n && k % 4 == 0
    ensures p + k in h.words && p + n <= h.size
  {
    hide Extent, Live, Tiled, AllAligned;
    LiveInside(h.blocks, 0, p, n);
    LiveAligned(h.blocks, 0, p, n);
    FourAhead(p, k);
  }

  lemma FourAhead(p: nat, k: nat)
    requires p % 8 == 4 && k % 4 == 0
    ensures (p + k) % 4 == 0
  {
    var a, b := p / 8, k / 4;
    assert p + k == 4 * (2 * a + b + 1);
    Fours(2 * a + b + 1);
  }

  lemma GonePlace(start: nat, live: set<(nat, nat)>, p: nat, n: nat)
    ensures PlacedAt(start, live - {(p, n)}) == PlacedAt(start, live) - {(start + p, n)}
  {
  }

  lemma AdjustedAligned(request: nat)
    requires request < WORD_LIMIT
    ensures Adjusted(request) % 8 == 4 && Adjusted(request) < WORD_LIMIT
    ensures request <= Adjusted(request) ==> Adjusted(request) < request + 8
  {
    var q, rest := (request + MARKER) / 8, (request + MARKER) % 8;
    assert request + MARKER == 8 * q + rest;
    if rest > 0 {
      var sum := request + 8 - rest;
      assert sum == 8 * q + 4;
      Adjusts(q);
    } else {
      assert request == 8 * (q - 1) + 4;
      Adjusts(q - 1);
    }
  }

  lemma Adjusts(q: int)
    requires 0 <= 8 * q + 4 <= WORD_LIMIT + 4
    ensures (8 * q + 4) % 8 == 4
    ensures (8 * q + 4) % WORD_LIMIT == if 8 * q + 4 < WORD_LIMIT then 8 * q + 4 else 4
  {
  }

  /** What a search of a heap's freed memory brings. */
  lemma SearchLaw(h: Heap, n: nat)
    requires h.Valid() && n % 8 == 4
    ensures AllAligned(h.blocks)
    ensures var f := FromFreed(h.blocks, 0, n);
            && SearchKeeps(h.blocks, 0, n, f)
            && (f.at.None? ==> !CanHold(f.blocks, n))
  {
    hide FromFreed, CanHold, Extent, Live, Tiled, Backed, Zeroed;
    FromFreedLive(h.blocks, 0, n);
    var f := FromFreed(h.blocks, 0, n);
    if f.at.None? {
      FromFreedFails(h.blocks, 0, n);
      FromFreedComplete(f.blocks, 0, n);
    }
  }

  lemma ZerosAreZero(lo: nat, hi: nat)
    ensures Zeroed(Zeros(lo, hi), lo, hi)
  {
  }

  lemma WholePages(pages: nat)
    ensures PagesFor(pages * PAGE) == pages && RoundedUp(0) == 0
  {
  }

  lemma OnePageMore(pages: nat)
    ensures PagesFor(pages * PAGE + RoundedUp(PAGE)) == pages + 1 && RoundedUp(PAGE) == PAGE
  {
    WholePages(pages + 1);
  }

  lemma GrowthIsPage(end: nat, pages: nat)
    requires end == pages * PAGE
    ensures Growth(end) == PAGE
  {
  }

  lemma NewPlace(start: nat, live: set<(nat, nat)>, p: nat, n: nat)
    requires (p, n) !in live
    ensures PlacedAt(start, live + {(p, n)}) == PlacedAt(start, live) + {(start + p, n)}
    ensures (start + p, n) !in PlacedAt(start, live)
  {
    assert (p, n) in live + {(p, n)};
  }

  lemma PlacedInside(h: Heap, a: nat, n: nat)
    requires h.Valid() && (a, n) in Placed(h)
    ensures h.start + MARKER <= a && a + n <= h.start + h.size && n > 0
    ensures (a - h.start, n) in h.GetLive()
  {
    var x :| x in h.GetLive() && (a, n) == (h.start + x.0, x.1);
    LiveInside(h.blocks, 0, x.0, x.1);
    LiveSized(h.blocks, 0, x.0, x.1);
  }

  /** A payload of one heap is not one of another heap that lies elsewhere. */
  lemma PlacedApart(h: Heap, other: Heap, a: nat, n: nat)
    requires h.Valid() && other.Valid() && (a, n) in Placed(h)
    requires h.start + h.size <= other.start || other.start + other.size <= h.start || other.size == 0
    ensures (a, n) !in Placed(other)
  {
    PlacedInside(h, a, n);
    if (a, n) in Placed(other) {
      PlacedInside(other, a, n);
    }
  }

  lemma NothingLive(h: Heap)
    requires h.blocks == []
    ensures h.GetLive() == {} && Placed(h) == {}
  {
  }

  // ---------------------------------------------------------------- 32 bit wrap-around

  /** A request that fits the address space is rounded up to whole units, never down. */
  lemma AdjustedRoundsUp(request: nat)
    requires request < WORD_LIMIT
    ensures request <= Adjusted(request) <==> request <= WORD_LIMIT - 4
  {
  }

  /** The bump allocator's test, made on the wrapped sum, is right exactly when the sum does not wrap
      around: a wrapped sum always passes. */
  lemma BumpTestIsExact(offset: nat, n: nat, size: nat)
    requires offset <= size < ALLOC_BIT && n <= WORD_LIMIT - MARKER
    ensures ((offset + n + MARKER) % WORD_LIMIT <= size <==> offset + n + MARKER <= size) <==>
            offset + n + MARKER < WORD_LIMIT
  {
  }

  /** Such a request exists: it asks for almost the whole address space and passes the test. */
  lemma BumpTestWraps()
    ensures var n := WORD_LIMIT - 12;
            n % 8 == 4 && (8 + n + MARKER) % WORD_LIMIT <= INITIAL_SIZE < 8 + n + MARKER
  {
  }
}
