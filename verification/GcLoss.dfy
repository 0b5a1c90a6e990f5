/** What a store nothing recorded leads to: a minor collection leaves a dangling field, in a heap the
    mutator can reach. */
module GcLoss {
  import opened Basics
  import opened GcMemory
  import opened GcHeap
  import opened GcCollected
  import opened GcMutator
  import opened Gc

  /** The field of a live object names an address where nothing lives. */
  ghost predicate Dangles(h: Heap, a: nat, f: nat) {
    Live(h, a) && a in h.mem && f < |h.mem[a].fields| && !RefLive(h, h.mem[a].fields[f])
  }

  /** With a full remembered set, a store that has something to record, and then a minor collection: the
      field dangles, although in the heap that is never collected it still holds the object stored. */
  method LoseField(c: Collector, obj: Ref, f: nat, val: Ref)
    requires c.Valid() && obj.Ptr? && Live(c.View(), obj.a) && RefLive(c.View(), val) && obj.a in c.mem && f < |c.mem[obj.a].fields|
    requires |c.remembered| >= MAX_REMEMBERED && Records(c.View(), obj.a, val)
    requires c.oldBump + (c.nurseryBump - c.nursery) <= c.oldFrom + c.oldSpace
    modifies c
    ensures Dangles(c.View(), obj.a, f) && c.refusals == old(c.refusals) && c.roots == old(c.roots)
    ensures val.Ptr? && val.a in old(c.ids) && obj.a in old(c.ids) && old(c.ids)[obj.a] < |c.objs|
      && f < |c.objs[old(c.ids)[obj.a]].fields| && c.objs[old(c.ids)[obj.a]].fields[f] == LPtr(old(c.ids)[val.a])
  {
    hide HeapOk, Covered, StoreOf;
    ghost var h := c.View();
    LiveIn(h, obj.a);
    LiveIn(h, val.a);
    c.StoreField(obj, f, val);
    ghost var g := c.View();
    BarrierRecords(h, obj.a, val);
    UnmarkedOutside(h, obj.a);
    c.MinorCollect();
  }

  /** An unmarked old object is not in the set. */
  lemma UnmarkedOutside(h: Heap, a: nat)
    requires HeapOk(h) && a in h.old_ && a in h.mem && !h.mem[a].remembered
    ensures a !in h.remembered
  {
    hide RegionsOk, ClosedOk, MeansOk;
  }

  // ---- such a heap is reached ----

  const CELL: nat := HEADER + WORD

  /** Slots 0 to `n - 1` are pinned and hold `n` different objects of one field each, in that order of
      allocation. */
  ghost predicate Cells(h: Heap, n: nat) {
    && h.roots == seq(n, k => k) && |h.objs| >= n
    && forall k :: 0 <= k < n ==> k in h.slots && h.slots[k].Ptr? && CellAt(h, k, h.slots[k].a)
  }

  ghost predicate CellAt(h: Heap, k: nat, a: nat) {
    a in h.ids && h.ids[a] == k && k < |h.objs| && |h.objs[k].fields| == 1
  }

  /** Allocate and pin `n` cells in an empty nursery with room for them. */
  method MakeCells(c: Collector, n: nat)
    requires c.Valid() && c.roots == [] && c.objs == [] && !c.missed && c.remembered == []
    requires c.nurseryBump == c.nursery && n * CELL <= c.nurserySize
    modifies c
    ensures c.Valid() && Cells(c.View(), n) && !c.missed && c.remembered == [] && c.nurseryBump == c.nursery + n * CELL
    ensures c.oldFrom == old(c.oldFrom) && c.oldSpace == old(c.oldSpace) && c.oldBump == old(c.oldBump)
    ensures c.refusals == old(c.refusals) && |c.objs| == n
  {
    hide HeapOk, Covered, StoreOf;
    for i := 0 to n
      invariant c.Valid() && Cells(c.View(), i) && !c.missed && c.remembered == [] && c.nurseryBump == c.nursery + i * CELL
      invariant c.oldFrom == old(c.oldFrom) && c.oldSpace == old(c.oldSpace) && c.oldBump == old(c.oldBump)
      invariant c.refusals == old(c.refusals) && |c.objs| == i
    {
      ghost var h := c.View();
      CellFits(i, n);
      var r, ok := c.Alloc(CON, 1, 0);
      NewIsNew(h, c.View(), r.a, CON, 0, 1);
      c.PushRoot(i, r);
      CellsMore(h, c.View(), i, r.a);
    }
  }

  lemma NewIsNew(h: Heap, g: Heap, a: nat, tag: nat, aux: int, nfields: nat)
    requires HeapOk(h) && GrowsYoung(h, g, a, tag, aux, nfields)
    ensures !Live(h, a) && a in g.young && g.ids == h.ids[a := |h.objs|] && g.objs == h.objs + [LObj(tag, aux, Nulls(nfields))]
    ensures g.roots == h.roots && g.slots == h.slots && g.remembered == h.remembered && g.old_ == h.old_
    ensures forall b :: b in h.mem && b != a ==> b in g.mem && g.mem[b] == h.mem[b]
  {
    hide ClosedOk, RememberedOk, MeansOk;
    GrowsYoungRegions(h, g, a, tag, aux, nfields);
  }

  lemma CellFits(i: nat, n: nat)
    requires i < n
    ensures i * CELL + CELL == (i + 1) * CELL <= n * CELL
  {}

  lemma CellsMore(h: Heap, g: Heap, n: nat, a: nat)
    requires HeapOk(h) && Cells(h, n) && |h.objs| == n && !Live(h, a)
    requires g.roots == h.roots + [n] && g.slots == h.slots[n := Ptr(a)]
    requires g.ids == h.ids[a := n] && g.objs == h.objs + [LObj(CON, 0, Nulls(1))]
    ensures Cells(g, n + 1)
  {
    hide RegionsOk, ClosedOk, RememberedOk;
    forall k | 0 <= k < n ensures k in g.slots && g.slots[k].Ptr? && CellAt(g, k, g.slots[k].a) {
      assert CellAt(h, k, h.slots[k].a);
    }
  }

  lemma CellsKept(h: Heap, g: Heap, n: nat)
    requires HeapOk(g) && Cells(h, n) && g.roots == h.roots && StoreOf(g) == StoreOf(h)
    ensures Cells(g, n)
  {
    hide HeapOk;
    forall k | 0 <= k < n ensures k in g.slots && g.slots[k].Ptr? && CellAt(g, k, g.slots[k].a) {
      assert g.roots[k] == k && CellAt(h, k, h.slots[k].a);
      assert StoreOf(h).slots[k] == LPtr(k);
      SlotRead(g, k);
    }
  }

  /** The first `i` cells, and only they, are recorded; the others are old and not marked. */
  ghost predicate Recorded(h: Heap, n: nat, i: nat) {
    Cells(h, n) && i <= n && |h.remembered| == i && forall k :: 0 <= k < i ==> h.remembered[k] == h.slots[k].a
  }

  /** What a store into cell `i` may rely on. */
  lemma CellRecords(h: Heap, n: nat, i: nat, v: Ref)
    requires HeapOk(h) && Recorded(h, n, i) && i < n && v.Ptr? && h.young == [v.a] && Elsewhere(h, n, v.a)
    ensures var a := h.slots[i].a;
      Live(h, a) && a in h.mem && |h.mem[a].fields| == 1 && Records(h, a, v) && RefLive(h, v)
    ensures |h.remembered| == i && h.slots[i].a in h.ids && h.ids[h.slots[i].a] == i
  {
    hide RegionsOk, ClosedOk;
    var a := h.slots[i].a;
    assert CellAt(h, i, a);
    LiveIn(h, a);
    forall k | 0 <= k < i ensures h.remembered[k] != a { assert CellAt(h, k, h.slots[k].a); }
  }

  lemma RecordedMore(h: Heap, g: Heap, n: nat, i: nat, v: Ref)
    requires HeapOk(h) && Recorded(h, n, i) && i < n && h.slots[i].a in h.mem && Stores(h, g, h.slots[i].a, 0, v)
    requires Records(h, h.slots[i].a, v)
    ensures Recorded(g, n, i + 1) && g == h.(mem := g.mem, remembered := g.remembered, objs := g.objs)
  {
    hide HeapOk;
    forall k | 0 <= k < n ensures k in g.slots && g.slots[k].Ptr? && CellAt(g, k, g.slots[k].a) {
      assert CellAt(h, k, h.slots[k].a);
    }
  }

  /** All cells but the last point to the young object, and are recorded. */
  method RecordCells(c: Collector, n: nat, v: Ref)
    requires c.Valid() && Recorded(c.View(), n, 0) && n == MAX_REMEMBERED + 1 && v.Ptr? && c.young == [v.a] && !c.missed
    requires v.a in c.ids && c.ids[v.a] == n && Elsewhere(c.View(), n, v.a)
    modifies c
    ensures c.Valid() && Recorded(c.View(), n, n - 1) && !c.missed && Elsewhere(c.View(), n, v.a)
    ensures c.View() == old(c.View()).(mem := c.mem, remembered := c.remembered, objs := c.objs) && c.refusals == old(c.refusals)
  {
    hide HeapOk, Covered, StoreOf, Cells, Recorded, Stores, StoresSilently;
    for i := 0 to n - 1
      invariant c.Valid() && Recorded(c.View(), n, i) && !c.missed && Elsewhere(c.View(), n, v.a)
      invariant c.View() == old(c.View()).(mem := c.mem, remembered := c.remembered, objs := c.objs) && c.refusals == old(c.refusals)
    {
      ghost var h := c.View();
      CellRecords(h, n, i, v);
      c.StoreField(c.slots[i], 0, v);
      RecordedMore(h, c.View(), n, i, v);
    }
  }

  /** No cell is at `a`. */
  ghost predicate Elsewhere(h: Heap, n: nat, a: nat) {
    forall k :: 0 <= k < n ==> k in h.slots && h.slots[k].Ptr? && h.slots[k].a != a
  }

  /** Allocate one cell more than the set has room for, promote them, and make all but the last point to a
      young object. Nothing is missed, and nothing asks the host for memory. */
  method Saturate() returns (c: Collector, v: Ref)
    ensures fresh(c) && c.Valid() && !c.missed && c.refusals == 0 && Recorded(c.View(), MAX_REMEMBERED + 1, MAX_REMEMBERED)
    ensures v.Ptr? && c.young == [v.a] && v.a in c.ids && c.ids[v.a] == MAX_REMEMBERED + 1
    ensures Elsewhere(c.View(), MAX_REMEMBERED + 1, v.a)
    ensures c.oldBump + (c.nurseryBump - c.nursery) <= c.oldFrom + c.oldSpace
  {
    hide HeapOk, Covered, StoreOf, Cells, Recorded, Elsewhere;
    var n := MAX_REMEMBERED + 1;
    var size := (n + 1) * CELL;
    c := new Collector(size, 1, 1, 1, 2, 0, size);
    EmptyCells(c.View());
    MakeCells(c, n);
    ghost var h := c.View();
    c.MinorCollect();
    CellsKept(h, c.View(), n);
    ghost var g := c.View();
    var ok: bool;
    v, ok := c.Alloc(CON, 0, 0);
    NewIsNew(g, c.View(), v.a, CON, 0, 0);
    CellsGrown(g, c.View(), n, v.a);
    RecordCells(c, n, v);
  }

  lemma EmptyCells(h: Heap)
    requires h.roots == []
    ensures Cells(h, 0)
  {}

  lemma CellsGrown(h: Heap, g: Heap, n: nat, a: nat)
    requires HeapOk(h) && Cells(h, n) && h.remembered == [] && !Live(h, a)
    requires g.roots == h.roots && g.slots == h.slots && g.remembered == h.remembered
    requires g.ids == h.ids[a := |h.objs|] && g.objs == h.objs + [LObj(CON, 0, Nulls(0))]
    ensures Recorded(g, n, 0) && Elsewhere(g, n, a)
  {
    hide RegionsOk, ClosedOk, RememberedOk;
    forall k | 0 <= k < n ensures k in g.slots && g.slots[k].Ptr? && CellAt(g, k, g.slots[k].a) && g.slots[k].a != a {
      assert CellAt(h, k, h.slots[k].a);
    }
  }

  /** A run of the mutator that loses a value: the last cell is stored to as well, and a minor collection
      follows. The cell is pinned, its field dangles, and the heap that is never collected has the young
      object there. */
  method LoseValue() returns (c: Collector, cell: Ref)
    ensures c.refusals == 0 && MAX_REMEMBERED in c.roots && cell.Ptr? && Dangles(c.View(), cell.a, 0)
    ensures |c.objs| > MAX_REMEMBERED && |c.objs[MAX_REMEMBERED].fields| > 0
      && c.objs[MAX_REMEMBERED].fields[0] == LPtr(MAX_REMEMBERED + 1)
  {
    hide HeapOk, Covered, StoreOf, Recorded;
    var v: Ref;
    c, v := Saturate();
    CellRecords(c.View(), MAX_REMEMBERED + 1, MAX_REMEMBERED, v);
    CellPinned(c.View());
    cell := c.slots[MAX_REMEMBERED];
    LoseField(c, cell, 0, v);
  }

  lemma CellPinned(h: Heap)
    requires Recorded(h, MAX_REMEMBERED + 1, MAX_REMEMBERED)
    ensures MAX_REMEMBERED in h.roots
  {
    assert h.roots[MAX_REMEMBERED] == MAX_REMEMBERED;
  }
}
