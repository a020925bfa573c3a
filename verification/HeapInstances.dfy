/** Few calls on a new heap that lead to each of the two ways in which a resize in place goes wrong, and one on a new
    allocator that makes it grow. */
module HeapInstances {
  import opened Sums
  import opened HeapBlocks
  import opened HeapMemory
  import opened HeapRealloc
  import opened HeapManager

  predicate IsWord(k: nat) { k % 4 == 0 }

  /** The 8192 bytes the allocator starts with, at address 1024. */
  method NewHeap() returns (h: Heap)
    ensures fresh(h) && h.Valid() && h.start == 1024 && h.size == 8192 && h.offset == 0 && h.blocks == []
  {
    h := new Heap();
    h.Init(1024, 8192, map k: nat | k < 8192 && IsWord(k) :: 0);
  }

  lemma {:induction false} OneAndOne(n: nat)
    ensures Extent([Block(n, true)]) == n + MARKER && Live([Block(n, true)], 0) == {(MARKER, n)}
    ensures Freed([Block(n, true), Block(n, true)], 0, n + 2 * MARKER) == [Block(n, true), Block(n, false)]
  {
    assert [Block(n, true), Block(n, true)][1..] == [Block(n, true)];
  }

  /** Two blocks of 12 bytes, the second of them freed, and the first grown to 60 bytes: the end of the tiled part
      stays inside the payload. */
  method StrayIsReached() returns (h: Heap, p: nat, n: nat, ok: bool)
    ensures ok && p == 4 && n == 60 && h.offset == 32 < p + n <= h.size
    ensures forall bs :: Describes(h, bs) ==> (p, n) !in Live(bs, 0)
  {
    h := NewHeap();
    var a := h.Malloc(12);
    OneAndOne(12);
    assert h.blocks == [Block(12, true)];
    var b := h.Malloc(12);
    assert h.blocks == [Block(12, true), Block(12, true)];
    h.Free(20, 12);
    assert h.blocks == [] + [Block(12, true)] + [Block(12, false)];
    p, n := 4, 60;
    var size;
    ok, size := ReallocInPlace(h, p, n, 12, [], [Block(12, false)]);
  }

  /** One block of 12 bytes, grown to 9220 bytes: more than the heap has. */
  method FitWrapsIsReached() returns (h: Heap, p: nat, n: nat, ok: bool)
    ensures ok && p == 4 && n == 9220 && h.offset == p + n > h.size
    ensures forall bs :: Describes(h, bs) ==> (p, n) !in Live(bs, 0)
  {
    h := NewHeap();
    var a := h.Malloc(12);
    OneAndOne(12);
    assert h.blocks == [] + [Block(12, true)] + [];
    p, n := 4, 9220;
    var size;
    ok, size := ReallocInPlace(h, p, n, 12, [], []);
  }

  /** A request too large for the static heap, on a new allocator whose host has pages left, is granted. */
  method PageIsGranted() returns (m: MemoryManager, r: Option<nat>)
    ensures m.Valid() && r.Some? && m.AllLive() == {(r.value, 10004)} && m.pages > 2
  {
    m := new MemoryManager(10, 2, 1024);
    assert Adjusted(10000) == 10004;
    hide Heap.Valid, MemoryManager.Valid, CanHold, PlacedAt, Live, PayloadsKept;
    r := m.Malloc(10000);
  }
}
