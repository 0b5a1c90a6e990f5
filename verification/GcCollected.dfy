/** A finished collection leaves a well-formed heap that stands for the same store. */
module GcCollected {
  import opened Basics
  import opened GcMemory
  import opened GcCopy
  import opened GcHeap

  // ---- the new tiles ----

  function Targets(c: Copy): (ts: seq<nat>)
    ensures |ts| == |c.order|
  {
    seq(|c.order|, k requires 0 <= k < |c.order| => if c.order[k] in c.rho then c.rho[c.order[k]] else 0)
  }

  lemma {:induction false} TargetsTiled(c: Copy, mem: Mem, k: nat)
    requires CopyOk(c) && k <= |c.order| && Scanned(c, mem, |c.order|, 0)
    ensures Tiled(mem, Targets(c)[..k], c.base, c.base + Bytes(c.mem0, c.order[..k]))
  {
    hide CopyOk;
    if k > 0 {
      TargetsTiled(c, mem, k - 1);
      PlacedAt(c, k - 1);
      DstInside(c, k - 1);
      assert CopyAt(c, mem, k - 1, Progress(c, k - 1, |c.order|, 0));
      assert Targets(c)[..k][..k - 1] == Targets(c)[..k - 1];
      assert c.order[..k][..k - 1] == c.order[..k - 1];
    }
  }

  lemma AllTargetsTiled(c: Copy, mem: Mem)
    requires CopyOk(c) && Scanned(c, mem, |c.order|, 0)
    ensures Tiled(mem, Targets(c), c.base, End(c))
  {
    hide CopyOk, Scanned, Tiled;
    TargetsTiled(c, mem, |c.order|);
    assert Targets(c)[..|c.order|] == Targets(c) && c.order[..|c.order|] == c.order;
  }

  lemma TargetsAre(c: Copy, b: nat)
    requires CopyOk(c)
    ensures b in Targets(c) <==> IsTarget(c, b)
  {
    hide Reached;
    OrderDistinct(c);
    if b in Targets(c) {
      var k :| 0 <= k < |c.order| && Targets(c)[k] == b;
      PlacedAt(c, k);
    }
    if IsTarget(c, b) {
      var a := SourceOf(c, b);
      var k :| 0 <= k < |c.order| && c.order[k] == a;
      assert Targets(c)[k] == b;
    }
  }

  /** The copy of a kept object, fully scanned. */
  lemma TargetObject(c: Copy, mem: Mem, alloc: nat, b: nat)
    requires Copying(c, mem, alloc, |c.order|, 0) && IsTarget(c, b)
    ensures var a := SourceOf(c, b);
      a in c.mem0 && b in mem && mem[b].tag == c.mem0[a].tag && mem[b].remembered == c.mem0[a].remembered
      && mem[b].aux == c.mem0[a].aux && FieldsMoved(c, c.mem0[a].fields, mem[b].fields, |c.mem0[a].fields|)
  {
    hide CopyOk;
    OrderDistinct(c);
    var a := SourceOf(c, b);
    var k :| 0 <= k < |c.order| && c.order[k] == a;
    DstInside(c, k);
    assert CopyAt(c, mem, k, Progress(c, k, |c.order|, 0));
  }

  // ---- roots ----

  ghost predicate SlotsMoved(c: Copy, roots: seq<nat>, slots: map<nat, Ref>, slots': map<nat, Ref>, n: nat) {
    n <= |roots| && slots'.Keys == slots.Keys
    && (forall i :: 0 <= i < n ==> roots[i] in slots && RefMoved(c, slots[roots[i]], slots'[roots[i]]))
    && forall i :: n <= i < |roots| ==> roots[i] in slots && slots'[roots[i]] == slots[roots[i]]
  }

  // ---- where a collection leaves the heap ----

  /** After a major collection into `[c.base, limit)`. */
  ghost function AfterMajor(h: Heap, c: Copy, mem: Mem, limit: nat, slots: map<nat, Ref>, boxed: seq<Ref>): Heap
    requires CopyOk(c)
  {
    h.(mem := mem, nurseryBump := h.nursery, oldFrom := c.base, oldBump := End(c), oldLimit := limit,
       young := [], old_ := Targets(c), slots := slots, boxed := boxed, remembered := [], ids := MovedIds(c, h.ids))
  }

  /** After a minor collection. */
  ghost function AfterMinor(h: Heap, c: Copy, mem: Mem, slots: map<nat, Ref>, boxed: seq<Ref>): Heap
    requires CopyOk(c)
  {
    h.(mem := mem, nurseryBump := h.nursery, oldBump := End(c), young := [], old_ := h.old_ + Targets(c),
       slots := slots, boxed := boxed, remembered := [], ids := MovedIds(c, h.ids))
  }

  /** What the collector keeps: the new copies, and the objects that stayed with their fields moved. */
  ghost predicate Collected(h: Heap, c: Copy, mem: Mem, slots: map<nat, Ref>, boxed: seq<Ref>) {
    && ClosedOk(h) && MeansOk(h) && c.mem0 == h.mem && Copying(c, mem, End(c), |c.order|, 0)
    && (forall a :: a in c.tiles ==> Live(h, a)) && StaysOutside(c, h.ids)
    && (forall a :: Live(h, a) && a !in c.tiles ==> Stayed(c, mem, a))
    && (forall a :: a in c.tiles && a in h.mem ==> !h.mem[a].remembered)
    && SlotsMoved(c, h.roots, h.slots, slots, |h.roots|) && FieldsMoved(c, h.boxed, boxed, |h.boxed|)
  }

  /** An object that stays put has its mark cleared and its fields moved. */
  ghost predicate Stayed(c: Copy, mem: Mem, a: nat) {
    a in c.mem0 && a in mem && mem[a].tag == c.mem0[a].tag && mem[a].aux == c.mem0[a].aux && !mem[a].remembered
    && FieldsMoved(c, c.mem0[a].fields, mem[a].fields, |c.mem0[a].fields|)
  }

  /** The parts of the heap a collection determines. */
  ghost predicate Result(h: Heap, c: Copy, mem: Mem, slots: map<nat, Ref>, boxed: seq<Ref>, g: Heap)
    requires CopyOk(c)
  {
    && g.mem == mem && g.slots == slots && g.boxed == boxed && g.roots == h.roots && g.remembered == []
    && g.ids == MovedIds(c, h.ids) && g.objs == h.objs && g.young == []
    && forall b :: b in g.old_ <==> IsTarget(c, b) || (Live(h, b) && b !in c.tiles)
  }

  /** Every live object of the result, seen from the object it comes from. */
  lemma OriginOf(h: Heap, c: Copy, mem: Mem, slots: map<nat, Ref>, boxed: seq<Ref>, b: nat) returns (a: nat)
    requires Collected(h, c, mem, slots, boxed) && (IsTarget(c, b) || (Live(h, b) && b !in c.tiles))
    ensures Live(h, a) && a in h.mem && b in mem && a in h.ids && b in MovedIds(c, h.ids) && MovedIds(c, h.ids)[b] == h.ids[a]
    ensures mem[b].tag == h.mem[a].tag && mem[b].aux == h.mem[a].aux && !mem[b].remembered
    ensures FieldsMoved(c, h.mem[a].fields, mem[b].fields, |h.mem[a].fields|)
  {
    hide CopyOk, Reached, RefsLive, ObjMeans, FieldsMoved, MovedIds, Sources, Scanned, StaysOutside;
    if IsTarget(c, b) {
      a := SourceOf(c, b);
      RhoInside(c, a);
      TargetObject(c, mem, End(c), b);
      MovedIdOf(c, h.ids, a);
    } else {
      a := b;
      assert Stayed(c, mem, a);
      StayingIdOf(c, h.ids, a);
    }
  }

  lemma RefLiveMoved(h: Heap, c: Copy, mem: Mem, slots: map<nat, Ref>, boxed: seq<Ref>, g: Heap, r: Ref, r': Ref)
    requires Collected(h, c, mem, slots, boxed) && Result(h, c, mem, slots, boxed, g)
    requires RefLive(h, r) && RefMoved(c, r, r')
    ensures RefLive(g, r')
  {
    hide CopyOk, Reached, RefsLive, ObjMeans, FieldsMoved, MovedIds, Sources, Scanned, StaysOutside;
    if r.Ptr? && r.a in c.tiles { assert IsTarget(c, c.rho[r.a]); }
  }

  lemma ClosedMoved(h: Heap, c: Copy, mem: Mem, slots: map<nat, Ref>, boxed: seq<Ref>, g: Heap)
    requires Collected(h, c, mem, slots, boxed) && Result(h, c, mem, slots, boxed, g)
    ensures ClosedOk(g)
  {
    hide CopyOk, Reached, MovedIds, Sources, Scanned, StaysOutside, MeansOk, RefMoved, RefLive, Stayed, Copying, IsTarget;
    forall b | Live(g, b) ensures b in mem && mem[b].tag != FWD && RefsLive(g, mem[b].fields) {
      var a := OriginOf(h, c, mem, slots, boxed, b);
      forall i | 0 <= i < |mem[b].fields| ensures RefLive(g, mem[b].fields[i]) {
        RefLiveMoved(h, c, mem, slots, boxed, g, h.mem[a].fields[i], mem[b].fields[i]);
      }
    }
    forall i | 0 <= i < |h.roots| ensures h.roots[i] in slots && RefLive(g, slots[h.roots[i]]) {
      RefLiveMoved(h, c, mem, slots, boxed, g, h.slots[h.roots[i]], slots[h.roots[i]]);
    }
    forall i | 0 <= i < |boxed| ensures RefLive(g, boxed[i]) {
      RefLiveMoved(h, c, mem, slots, boxed, g, h.boxed[i], boxed[i]);
    }
  }

  lemma MeansMovedAll(h: Heap, c: Copy, mem: Mem, slots: map<nat, Ref>, boxed: seq<Ref>, g: Heap)
    requires Collected(h, c, mem, slots, boxed) && Result(h, c, mem, slots, boxed, g)
    ensures MeansOk(g)
  {
    hide CopyOk, Reached, Sources, Scanned, StaysOutside, Stayed, ObjMeans, FieldsMoved, RefsLive, SlotsMoved, SourceOf;
    forall b ensures b in g.ids <==> Live(g, b) { LiveIds(h, c, mem, slots, boxed, g, b); }
    hide MovedIds;
    forall a, b | a in g.ids && b in g.ids && g.ids[a] == g.ids[b] ensures a == b {
      MovedIdsInjective(c, h.ids, a, b);
    }
    forall b | b in g.ids ensures b in mem && g.ids[b] < |g.objs| && ObjMeans(g.ids, mem[b], g.objs[g.ids[b]]) {
      assert Live(g, b);
      var a := OriginOf(h, c, mem, slots, boxed, b);
      ObjMeansMoved(c, h.ids, h.mem[a], mem[b], h.objs[h.ids[a]]);
    }
  }

  lemma LiveIds(h: Heap, c: Copy, mem: Mem, slots: map<nat, Ref>, boxed: seq<Ref>, g: Heap, b: nat)
    requires Collected(h, c, mem, slots, boxed) && Result(h, c, mem, slots, boxed, g)
    ensures b in g.ids <==> Live(g, b)
  {
    hide CopyOk, Reached, Sources, Scanned, StaysOutside, Stayed, ObjMeans, FieldsMoved, RefsLive, SlotsMoved, Tiled;
    if IsTarget(c, b) { assert c.rho[SourceOf(c, b)] in c.rho.Values; }
  }

  /** The store a collected heap stands for is the one it stood for. */
  lemma StoreMoved(h: Heap, c: Copy, mem: Mem, slots: map<nat, Ref>, boxed: seq<Ref>, g: Heap)
    requires Collected(h, c, mem, slots, boxed) && Result(h, c, mem, slots, boxed, g)
    ensures StoreOf(g) == StoreOf(h)
  {
    hide CopyOk, Reached, Sources, Scanned, StaysOutside, Stayed, ObjMeans, MovedIds, Meaning, RefMoved, IsTarget;
    forall s | s in h.roots && s in h.slots ensures s in slots && Meaning(g.ids, slots[s]) == Meaning(h.ids, h.slots[s]) {
      var i :| 0 <= i < |h.roots| && h.roots[i] == s;
      assert RefLive(h, h.slots[s]);
      MeaningMoved(c, h.ids, h.slots[s], slots[s]);
    }
    forall i | 0 <= i < |boxed| ensures Meaning(g.ids, boxed[i]) == Meaning(h.ids, h.boxed[i]) {
      MeaningMoved(c, h.ids, h.boxed[i], boxed[i]);
    }
  }

  /** No mark is left, and the remembered set is empty; with an empty nursery it covers everything. */
  lemma RememberedMoved(h: Heap, c: Copy, mem: Mem, slots: map<nat, Ref>, boxed: seq<Ref>, g: Heap)
    requires Collected(h, c, mem, slots, boxed) && Result(h, c, mem, slots, boxed, g)
    ensures RememberedOk(g) && Covered(g)
  {
    hide CopyOk, Reached, Sources, Scanned, StaysOutside, Stayed, ObjMeans, MovedIds, FieldsMoved, RefsLive, SlotsMoved, IsTarget;
    forall b | b in g.old_ ensures b in mem && !mem[b].remembered {
      var a := OriginOf(h, c, mem, slots, boxed, b);
    }
  }

  /** A major collection: every live object may move. */
  lemma MajorDone(h: Heap, c: Copy, mem: Mem, limit: nat, slots: map<nat, Ref>, boxed: seq<Ref>)
    requires Collected(h, c, mem, slots, boxed) && c.tiles == h.young + h.old_
    requires h.nursery <= h.nurseryLimit && End(c) <= limit && (h.nurseryLimit <= c.base || limit <= h.nursery)
    ensures CopyOk(c)
    ensures var g := AfterMajor(h, c, mem, limit, slots, boxed); HeapOk(g) && StoreOf(g) == StoreOf(h)
  {
    hide Reached, StaysOutside, Stayed, MeansOk, ClosedOk, MovedIds, SlotsMoved, FieldsMoved, StoreOf, RememberedOk, CopyOk, IsTarget;
    var g := AfterMajor(h, c, mem, limit, slots, boxed);
    forall b ensures b in Targets(c) <==> IsTarget(c, b) { TargetsAre(c, b); }
    ClosedMoved(h, c, mem, slots, boxed, g);
    MeansMovedAll(h, c, mem, slots, boxed, g);
    StoreMoved(h, c, mem, slots, boxed, g);
    RememberedMoved(h, c, mem, slots, boxed, g);
    AllTargetsTiled(c, mem);
  }

  /** A minor collection: only nursery objects move, behind the old generation's frontier. */
  lemma MinorDone(h: Heap, c: Copy, mem: Mem, slots: map<nat, Ref>, boxed: seq<Ref>)
    requires Collected(h, c, mem, slots, boxed) && c.tiles == h.young && RegionsOk(h)
    requires c.base == h.oldBump && End(c) <= h.oldLimit
    requires forall a :: a in h.young ==> a !in h.old_
    ensures CopyOk(c)
    ensures var g := AfterMinor(h, c, mem, slots, boxed); HeapOk(g) && StoreOf(g) == StoreOf(h)
  {
    hide Reached, StaysOutside, MeansOk, ClosedOk, MovedIds, SlotsMoved, StoreOf, RememberedOk, CopyOk, IsTarget, RefMoved, Tiled;
    var g := AfterMinor(h, c, mem, slots, boxed);
    forall b ensures b in Targets(c) <==> IsTarget(c, b) { TargetsAre(c, b); }
    ClosedMoved(h, c, mem, slots, boxed, g);
    MeansMovedAll(h, c, mem, slots, boxed, g);
    StoreMoved(h, c, mem, slots, boxed, g);
    RememberedMoved(h, c, mem, slots, boxed, g);
    AllTargetsTiled(c, mem);
    OldStaysTiled(h, c, mem, slots, boxed);
    TiledAppend(mem, h.old_, Targets(c), h.oldFrom, h.oldBump, End(c));
    EmptyTiled(mem, h.nursery);
  }

  lemma EmptyTiled(mem: Mem, base: nat)
    ensures Tiled(mem, [], base, base)
  {}

  lemma OldStaysTiled(h: Heap, c: Copy, mem: Mem, slots: map<nat, Ref>, boxed: seq<Ref>)
    requires Collected(h, c, mem, slots, boxed) && c.tiles == h.young && RegionsOk(h)
    requires forall a :: a in h.young ==> a !in h.old_
    ensures Tiled(mem, h.old_, h.oldFrom, h.oldBump)
  {
    hide Reached, StaysOutside, MeansOk, ClosedOk, SlotsMoved, CopyOk, RefMoved, Tiled;
    forall k | 0 <= k < |h.old_| ensures h.old_[k] in mem && SizeAt(mem, h.old_[k]) == SizeAt(h.mem, h.old_[k]) {
      assert Live(h, h.old_[k]);
      assert Stayed(c, mem, h.old_[k]);
    }
    TiledSame(h.mem, mem, h.old_, h.oldFrom, h.oldBump);
  }

  // ---- what a collection may assume of the heap ----

  lemma YoungOldDisjoint(h: Heap)
    requires RegionsOk(h)
    ensures forall a :: a in h.young ==> h.nursery <= a < h.nurseryLimit && a !in h.old_
    ensures forall a :: a in h.old_ ==> h.oldFrom <= a < h.oldBump && !(h.nursery <= a < h.nurseryLimit)
  {
    hide Tiled;
    TiledFacts(h.mem, h.young, h.nursery, h.nurseryBump);
    TiledFacts(h.mem, h.old_, h.oldFrom, h.oldBump);
  }

  /** Nursery survivors are promoted behind the old generation's frontier. */
  function MinorCopy(h: Heap): Copy {
    Copy(h.mem, h.young, (set a | a in h.young), h.oldBump, [], map[])
  }

  /** A minor copy of the nursery to the old frontier may begin. */
  lemma MinorStarts(h: Heap, c: Copy)
    requires HeapOk(h) && h.oldBump + (h.nurseryBump - h.nursery) <= h.oldLimit
    requires c == MinorCopy(h)
    ensures Copying(c, h.mem, c.base, 0, 0) && c.base + Bytes(c.mem0, c.tiles) <= h.oldLimit
    ensures StaysOutside(c, h.ids) && forall a :: a in h.old_ ==> a !in c.tiles && a < c.base && a in h.mem
  {
    hide Tiled, RefsLive, Means, Copying;
    YoungOldDisjoint(h);
    TiledFacts(h.mem, h.young, h.nursery, h.nurseryBump);
    TiledFacts(h.mem, h.old_, h.oldFrom, h.oldBump);
    CopyStarts(c, h.mem);
  }

  /** A live word is one a minor collection knows how to treat. */
  lemma LiveKnown(h: Heap, c: Copy, r: Ref)
    requires RegionsOk(h) && c.tiles == h.young && c.starts == (set a | a in h.young) && RefLive(h, r)
    ensures r.Ptr? ==> (h.nursery <= r.a < h.nurseryLimit <==> r.a in c.tiles)
    ensures MayMove(c, r)
  {
    hide Tiled, Reached;
    YoungOldDisjoint(h);
    if r.Ptr? && r.a in c.tiles { StartReached(c, r.a); }
  }

  lemma StayedMore(c: Copy, d: Copy, mem: Mem, mem': Mem, a: nat)
    requires Stayed(c, mem, a) && Continues(c, d) && a in mem' && mem'[a] == mem[a]
    ensures Stayed(d, mem', a)
  {
    forall i | 0 <= i < |mem[a].fields| ensures RefMoved(d, c.mem0[a].fields[i], mem'[a].fields[i]) {
      RefMovedMore(c, d, c.mem0[a].fields[i], mem[a].fields[i]);
    }
  }

  /** An unmarked old object has nothing to move. */
  lemma UnrememberedStayed(h: Heap, d: Copy, mem: Mem, a: nat)
    requires HeapOk(h) && Covered(h) && d.mem0 == h.mem && d.tiles == h.young && a in h.old_ && a !in h.remembered
    requires a in mem && mem[a] == h.mem[a]
    ensures Stayed(d, mem, a)
  {
    hide Tiled, MeansOk;
    var o := h.mem[a];
    assert !HasYoung(h, o);
    forall i | 0 <= i < |o.fields| ensures RefMoved(d, o.fields[i], o.fields[i]) {
      assert !(o.fields[i].Ptr? && o.fields[i].a in h.young);
    }
  }

  lemma SlotsMovedLater(c: Copy, d: Copy, roots: seq<nat>, slots: map<nat, Ref>, slots': map<nat, Ref>)
    requires SlotsMoved(c, roots, slots, slots', |roots|) && Continues(c, d)
    ensures SlotsMoved(d, roots, slots, slots', |roots|)
  {
    forall i | 0 <= i < |roots| ensures RefMoved(d, slots[roots[i]], slots'[roots[i]]) {
      RefMovedMore(c, d, slots[roots[i]], slots'[roots[i]]);
    }
  }

  lemma FieldsMovedLater(c: Copy, d: Copy, fields: seq<Ref>, fields': seq<Ref>)
    requires FieldsMoved(c, fields, fields', |fields|) && Continues(c, d)
    ensures FieldsMoved(d, fields, fields', |fields|)
  {
    forall i | 0 <= i < |fields| ensures RefMoved(d, fields[i], fields'[i]) { RefMovedMore(c, d, fields[i], fields'[i]); }
  }

  /** The phases of a minor collection together. */
  lemma MinorFinished(
    h: Heap, c1: Copy, c2: Copy, c3: Copy, d: Copy, mem3: Mem, mem: Mem, slots: map<nat, Ref>, boxed: seq<Ref>)
    requires HeapOk(h) && Covered(h) && d.mem0 == h.mem && d.tiles == h.young && d.base == h.oldBump && End(d) <= h.oldLimit
    requires Copying(d, mem, End(d), |d.order|, 0) && Advanced(c3, d, mem3, mem)
    requires Continues(c1, c2) && Continues(c2, c3)
    requires SlotsMoved(c1, h.roots, h.slots, slots, |h.roots|) && FieldsMoved(c2, h.boxed, boxed, |h.boxed|)
    requires forall a :: a in h.old_ ==> if a in h.remembered then Stayed(c3, mem3, a) else a in mem3 && mem3[a] == h.mem[a]
    ensures Collected(h, d, mem, slots, boxed)
  {
    hide Tiled, Reached, CopyOk, Sources, Scanned, SlotsMoved, FieldsMoved, RefMoved, ObjMeans, RefsLive;
    YoungOldDisjoint(h);
    ContinuesTrans(c1, c2, c3);
    ContinuesTrans(c1, c3, d);
    ContinuesTrans(c2, c3, d);
    SlotsMovedLater(c1, d, h.roots, h.slots, slots);
    FieldsMovedLater(c2, d, h.boxed, boxed);
    forall a | a in h.old_ ensures Stayed(d, mem, a) {
      if a in h.remembered {
        StayedIn(c3, mem3, a);
        StayedMore(c3, d, mem3, mem, a);
      } else {
        UnrememberedStayed(h, d, mem, a);
      }
    }
  }

  lemma StayedIn(c: Copy, mem: Mem, a: nat)
    requires Stayed(c, mem, a)
    ensures a in mem
  {}

  // ---- the major collection's side ----

  /** The addresses the roots and the handle table name. */
  function RootAddresses(h: Heap): set<nat> {
    (set s | s in h.roots && s in h.slots && h.slots[s].Ptr? :: h.slots[s].a)
    + (set r | r in h.boxed && r.Ptr? :: r.a)
  }

  function MajorCopy(h: Heap, base: nat): Copy {
    Copy(h.mem, h.young + h.old_, RootAddresses(h), base, [], map[])
  }

  /** A region that overlaps nothing in use. */
  predicate FreshRegion(h: Heap, base: nat, size: nat) {
    (base + size <= h.nursery || h.nurseryLimit <= base) && (base + size <= h.oldFrom || h.oldLimit <= base)
  }

  ghost predicate Unmarked(h: Heap) {
    forall a :: Live(h, a) && a in h.mem ==> !h.mem[a].remembered
  }

  lemma {:induction false} Occupancy(h: Heap)
    requires RegionsOk(h)
    ensures Bytes(h.mem, h.young + h.old_) == (h.nurseryBump - h.nursery) + (h.oldBump - h.oldFrom)
  {
    hide Tiled;
    TiledFacts(h.mem, h.young, h.nursery, h.nurseryBump);
    TiledFacts(h.mem, h.old_, h.oldFrom, h.oldBump);
    BytesAppend(h.mem, h.young, h.old_);
  }

  lemma MajorStarts(h: Heap, base: nat, size: nat)
    requires RegionsOk(h) && ClosedOk(h) && FreshRegion(h, base, size)
    requires (h.nurseryBump - h.nursery) + (h.oldBump - h.oldFrom) <= size
    ensures var c := MajorCopy(h, base);
      Copying(c, h.mem, base, 0, 0) && c.base + Bytes(c.mem0, c.tiles) <= base + size
  {
    hide Tiled, RefsLive;
    var c := MajorCopy(h, base);
    YoungOldDisjoint(h);
    Occupancy(h);
    TiledFacts(h.mem, h.young, h.nursery, h.nurseryBump);
    TiledFacts(h.mem, h.old_, h.oldFrom, h.oldBump);
    forall a | a in c.tiles ensures a in h.mem && h.mem[a].tag != FWD && Outside(c, a) {
      assert Live(h, a);
    }
    CopyStarts(c, h.mem);
  }

  /** A root is reached from itself. */
  lemma RootReached(h: Heap, c: Copy, r: Ref)
    requires c.starts == RootAddresses(h) && c.tiles == h.young + h.old_ && RefLive(h, r)
    requires (exists i :: 0 <= i < |h.roots| && h.roots[i] in h.slots && h.slots[h.roots[i]] == r) || r in h.boxed
    ensures MayMove(c, r) && (r.Ptr? ==> r.a in c.tiles)
  {
    hide Reached;
    if r.Ptr? { StartReached(c, r.a); }
  }

  /** The phases of a major collection together. */
  lemma MajorFinished(
    h: Heap, c1: Copy, c2: Copy, d: Copy, mem: Mem, slots: map<nat, Ref>, boxed: seq<Ref>)
    requires ClosedOk(h) && MeansOk(h) && Unmarked(h) && d.mem0 == h.mem && d.tiles == h.young + h.old_
    requires Copying(d, mem, End(d), |d.order|, 0) && Continues(c1, c2) && Continues(c2, d)
    requires SlotsMoved(c1, h.roots, h.slots, slots, |h.roots|) && FieldsMoved(c2, h.boxed, boxed, |h.boxed|)
    ensures Collected(h, d, mem, slots, boxed)
  {
    hide Tiled, Reached, CopyOk, Sources, Scanned, SlotsMoved, FieldsMoved, RefMoved, ObjMeans, RefsLive;
    ContinuesTrans(c1, c2, d);
    SlotsMovedLater(c1, d, h.roots, h.slots, slots);
    FieldsMovedLater(c2, d, h.boxed, boxed);
  }

  /** A major collection keeps exactly what the roots reach. */
  lemma KeptIffReached(h: Heap, d: Copy, mem: Mem, slots: map<nat, Ref>, boxed: seq<Ref>, a: nat)
    requires Collected(h, d, mem, slots, boxed) && d.tiles == h.young + h.old_ && d.starts == RootAddresses(h)
    ensures a in d.rho <==> Reached(d, a)
  {
    hide Sources, Scanned, ObjMeans, MeansOk, FieldsMoved, CopyOk;
    if a in d.rho {
      OrderDistinct(d);
      var k :| 0 <= k < |d.order| && d.order[k] == a;
      PlacedAt(d, k);
    }
    if Reached(d, a) {
      var path :| Path(d, path, a);
      StartsMoved(h, d, mem, slots, boxed);
      forall b, e | b in d.tiles && PointsTo(d.mem0, b, e) ensures e in d.tiles {
        assert Live(h, b);
        var i :| 0 <= i < |h.mem[b].fields| && h.mem[b].fields[i] == Ptr(e);
        assert RefLive(h, h.mem[b].fields[i]);
      }
      ReachedMoved(d, mem, End(d), path, a);
    }
  }

  lemma StartsMoved(h: Heap, d: Copy, mem: Mem, slots: map<nat, Ref>, boxed: seq<Ref>)
    requires Collected(h, d, mem, slots, boxed) && d.tiles == h.young + h.old_ && d.starts == RootAddresses(h)
    ensures forall s :: s in d.starts ==> s in d.rho
  {
    hide Sources, Scanned, ObjMeans, MeansOk, CopyOk, Copying, Reached;
    forall s | s in d.starts ensures s in d.rho {
      if t :| t in h.roots && t in h.slots && h.slots[t] == Ptr(s) {
        var i :| 0 <= i < |h.roots| && h.roots[i] == t;
        assert RefMoved(d, h.slots[t], slots[t]);
      } else {
        var i :| 0 <= i < |h.boxed| && h.boxed[i] == Ptr(s);
        assert RefMoved(d, h.boxed[i], boxed[i]);
      }
    }
  }

  /** The heap with every remembered mark cleared. */
  ghost predicate Cleared(h: Heap, g: Heap) {
    && g == h.(mem := g.mem, remembered := []) && Unmarked(g)
    && forall a :: a in h.mem ==> a in g.mem && g.mem[a] == h.mem[a].(remembered := g.mem[a].remembered)
  }

  lemma ClearedOk(h: Heap, g: Heap)
    requires HeapOk(h) && Cleared(h, g)
    ensures RegionsOk(g) && ClosedOk(g) && MeansOk(g) && StoreOf(g) == StoreOf(h)
  {
    hide RegionsOk, ClosedOk, MeansOk;
    ClearedRegions(h, g);
    ClearedClosed(h, g);
    ClearedMeans(h, g);
  }

  lemma ClearedRegions(h: Heap, g: Heap)
    requires RegionsOk(h) && Cleared(h, g)
    ensures RegionsOk(g)
  {
    hide Tiled;
    TiledFacts(h.mem, h.young, h.nursery, h.nurseryBump);
    TiledFacts(h.mem, h.old_, h.oldFrom, h.oldBump);
    TiledSame(h.mem, g.mem, h.young, h.nursery, h.nurseryBump);
    TiledSame(h.mem, g.mem, h.old_, h.oldFrom, h.oldBump);
  }

  lemma ClearedClosed(h: Heap, g: Heap)
    requires ClosedOk(h) && Cleared(h, g)
    ensures ClosedOk(g)
  {
    forall a | Live(g, a) ensures a in g.mem && g.mem[a].tag != FWD && RefsLive(g, g.mem[a].fields) {
      assert Live(h, a);
      forall i | 0 <= i < |g.mem[a].fields| ensures RefLive(g, g.mem[a].fields[i]) { assert RefLive(h, h.mem[a].fields[i]); }
    }
    forall i | 0 <= i < |g.boxed| ensures RefLive(g, g.boxed[i]) { assert RefLive(h, h.boxed[i]); }
  }

  lemma ClearedMeans(h: Heap, g: Heap)
    requires MeansOk(h) && Cleared(h, g)
    ensures MeansOk(g)
  {
    hide Means;
    forall a | a in g.ids ensures ObjMeans(g.ids, g.mem[a], g.objs[g.ids[a]]) { assert ObjMeans(h.ids, h.mem[a], h.objs[h.ids[a]]); }
  }

  /** A live object that is not yet cleared is still waiting in the remembered set. */
  lemma ClearedAll(h: Heap, mem: Mem)
    requires HeapOk(h)
    requires forall a :: a in h.mem ==> a in mem && mem[a] == if a in h.remembered then h.mem[a].(remembered := false) else h.mem[a]
    ensures Cleared(h, h.(mem := mem, remembered := []))
  {
    hide Tiled, MeansOk, ClosedOk;
  }

  // ---- precision: what a major collection keeps is exactly what is reached ----

  ghost predicate ReachedIn(h: Heap, a: nat) {
    Reached(MajorCopy(h, 0), a)
  }

  /** No garbage: every live object is reached from a root or a handle. */
  ghost predicate AllReached(h: Heap) {
    forall a :: Live(h, a) ==> ReachedIn(h, a)
  }

  lemma ReachedCleared(h: Heap, g: Heap, d: Copy, a: nat)
    requires g == h.(mem := g.mem, remembered := []) && d.mem0 == g.mem && d.starts == RootAddresses(g) && ReachedIn(h, a)
    requires forall b :: b in h.mem ==> b in g.mem && g.mem[b].fields == h.mem[b].fields
    ensures Reached(d, a)
  {
    var path :| Path(MajorCopy(h, 0), path, a);
    forall k | 0 <= k < |path| - 1 ensures PointsTo(d.mem0, path[k], path[k + 1]) {
      assert PointsTo(h.mem, path[k], path[k + 1]);
    }
    assert Path(d, path, a);
  }

  lemma {:induction false} PathMoved(
    h: Heap, d: Copy, mem: Mem, slots: map<nat, Ref>, boxed: seq<Ref>, g: Heap, path: seq<nat>, a: nat)
    requires Collected(h, d, mem, slots, boxed) && d.tiles == h.young + h.old_ && d.starts == RootAddresses(h)
    requires g.mem == mem && g.slots == slots && g.boxed == boxed && g.roots == h.roots
    requires Path(d, path, a)
    ensures a in d.rho && ReachedIn(g, d.rho[a])
    decreases |path|
  {
    hide Sources, Scanned, ObjMeans, MeansOk, CopyOk, Copying, ClosedOk, RefsLive;
    assert Reached(d, a);
    KeptIffReached(h, d, mem, slots, boxed, a);
    if |path| == 1 {
      StartMoved(h, d, mem, slots, boxed, g, a);
    } else {
      var b := path[|path| - 2];
      assert Path(d, path[..|path| - 1], b);
      PathMoved(h, d, mem, slots, boxed, g, path[..|path| - 1], b);
      assert PointsTo(d.mem0, path[|path| - 2], path[|path| - 2 + 1]);
      EdgeMoved(h, d, mem, slots, boxed, b, a);
      PathStep(MajorCopy(g, 0), d.rho[b], d.rho[a]);
    }
  }

  lemma StartMoved(h: Heap, d: Copy, mem: Mem, slots: map<nat, Ref>, boxed: seq<Ref>, g: Heap, a: nat)
    requires Collected(h, d, mem, slots, boxed) && d.tiles == h.young + h.old_ && a in RootAddresses(h)
    requires g.mem == mem && g.slots == slots && g.boxed == boxed && g.roots == h.roots && a in d.rho
    ensures ReachedIn(g, d.rho[a])
  {
    hide Sources, Scanned, ObjMeans, MeansOk, CopyOk, Copying, Reached;
    if s :| s in h.roots && s in h.slots && h.slots[s] == Ptr(a) {
      var i :| 0 <= i < |h.roots| && h.roots[i] == s;
      assert RefMoved(d, h.slots[s], slots[s]);
      assert Live(h, a);
      assert slots[s] == Ptr(d.rho[a]);
    } else {
      var i :| 0 <= i < |h.boxed| && h.boxed[i] == Ptr(a);
      assert RefLive(h, h.boxed[i]) && RefMoved(d, h.boxed[i], boxed[i]);
      assert boxed[i] == Ptr(d.rho[a]) && boxed[i] in boxed;
    }
    StartReached(MajorCopy(g, 0), d.rho[a]);
  }

  lemma EdgeMoved(h: Heap, d: Copy, mem: Mem, slots: map<nat, Ref>, boxed: seq<Ref>, b: nat, a: nat)
    requires Collected(h, d, mem, slots, boxed) && d.tiles == h.young + h.old_ && b in d.rho && a in d.rho
    requires PointsTo(d.mem0, b, a)
    ensures PointsTo(mem, d.rho[b], d.rho[a])
  {
    hide Sources, Scanned, ObjMeans, MeansOk, CopyOk, Reached, ClosedOk;
    CollectedCopying(h, d, mem, slots, boxed);
    RhoInside(d, a);
    assert IsTarget(d, d.rho[b]);
    TargetObject(d, mem, End(d), d.rho[b]);
    RhoInjective(d, SourceOf(d, d.rho[b]), b);
    var i :| 0 <= i < |d.mem0[b].fields| && d.mem0[b].fields[i] == Ptr(a);
    assert RefMoved(d, d.mem0[b].fields[i], mem[d.rho[b]].fields[i]);
    assert mem[d.rho[b]].fields[i] in mem[d.rho[b]].fields;
  }

  lemma CollectedCopying(h: Heap, d: Copy, mem: Mem, slots: map<nat, Ref>, boxed: seq<Ref>)
    requires Collected(h, d, mem, slots, boxed)
    ensures CopyOk(d) && Copying(d, mem, End(d), |d.order|, 0)
  {
    hide CopyOk;
  }

  /** After a major collection there is no garbage. */
  lemma MajorReached(h: Heap, d: Copy, mem: Mem, slots: map<nat, Ref>, boxed: seq<Ref>, g: Heap)
    requires Collected(h, d, mem, slots, boxed) && d.tiles == h.young + h.old_ && d.starts == RootAddresses(h)
    requires g.mem == mem && g.slots == slots && g.boxed == boxed && g.roots == h.roots
    requires g.young == [] && g.old_ == Targets(d)
    ensures AllReached(g)
  {
    hide Sources, Scanned, ObjMeans, MeansOk, CopyOk, Copying, ClosedOk, Reached, ReachedIn;
    CollectedCopying(h, d, mem, slots, boxed);
    forall b | Live(g, b) ensures ReachedIn(g, b) {
      TargetsAre(d, b);
      var a := SourceOf(d, b);
      KeptIffReached(h, d, mem, slots, boxed, a);
      ReachedMovedTo(h, d, mem, slots, boxed, g, a);
    }
  }

  lemma ReachedMovedTo(h: Heap, d: Copy, mem: Mem, slots: map<nat, Ref>, boxed: seq<Ref>, g: Heap, a: nat)
    requires Collected(h, d, mem, slots, boxed) && d.tiles == h.young + h.old_ && d.starts == RootAddresses(h)
    requires g.mem == mem && g.slots == slots && g.boxed == boxed && g.roots == h.roots && Reached(d, a)
    ensures a in d.rho && ReachedIn(g, d.rho[a])
  {
    hide Collected, ReachedIn;
    var path :| Path(d, path, a);
    PathMoved(h, d, mem, slots, boxed, g, path, a);
  }

  /** A heap without garbage keeps its size. */
  lemma MajorExact(before: Heap, h: Heap, d: Copy, mem: Mem, slots: map<nat, Ref>, boxed: seq<Ref>)
    requires Collected(h, d, mem, slots, boxed) && d.tiles == h.young + h.old_ && d.starts == RootAddresses(h)
    requires RegionsOk(h) && Cleared(before, h) && AllReached(before)
    ensures End(d) - d.base == (h.nurseryBump - h.nursery) + (h.oldBump - h.oldFrom)
  {
    hide Sources, Scanned, ObjMeans, MeansOk, CopyOk, Copying, ClosedOk, Reached, ReachedIn, Tiled;
    CollectedCopying(h, d, mem, slots, boxed);
    OrderDistinct(d);
    OrderIn(d);
    forall a | a in d.tiles ensures a in d.order {
      assert Live(before, a);
      ReachedCleared(before, h, d, a);
      KeptIffReached(h, d, mem, slots, boxed, a);
    }
    YoungOldDisjoint(h);
    TilesDistinct(h);
    SelectionFills(d.mem0, d.order, d.tiles);
    Occupancy(h);
  }

  lemma TilesDistinct(h: Heap)
    requires RegionsOk(h)
    ensures Distinct(h.young + h.old_)
  {
    hide Tiled;
    YoungOldDisjoint(h);
    TiledFacts(h.mem, h.young, h.nursery, h.nurseryBump);
    TiledFacts(h.mem, h.old_, h.oldFrom, h.oldBump);
    var s := h.young + h.old_;
    forall i, j | 0 <= i < j < |s| ensures s[i] != s[j] {
      if i < |h.young| && j >= |h.young| {
        assert s[i] in h.young && s[j] in h.old_;
      } else if i >= |h.young| {
        assert h.old_[i - |h.young|] != h.old_[j - |h.young|];
      }
    }
  }

  /** The bytes in use. */
  function Used(h: Heap): int {
    (h.nurseryBump - h.nursery) + (h.oldBump - h.oldFrom)
  }

  lemma UsedSize(h: Heap)
    requires HeapOk(h)
    ensures h.nursery <= h.nurseryBump <= h.nurseryLimit && h.oldFrom <= h.oldBump <= h.oldLimit && Used(h) >= 0
  {
    hide Tiled, ClosedOk, RememberedOk, MeansOk;
  }

  /** What a relocation into `size` bytes does: the same store in a region of that size, no garbage, no
      more bytes than before, and exactly as many if there was no garbage. */
  ghost predicate Relocated(before: Heap, g: Heap, size: nat) {
    && HeapOk(g) && StoreOf(g) == StoreOf(before) && AllReached(g) && g.roots == before.roots
    && g.nursery == before.nursery && g.nurseryBump == g.nursery && g.young == [] && g.remembered == []
    && g.oldLimit == g.oldFrom + size && Used(g) <= Used(before)
    && (AllReached(before) ==> Used(g) == Used(before))
  }

  lemma RelocationDone(
    before: Heap, h: Heap, d: Copy, mem: Mem, slots: map<nat, Ref>, boxed: seq<Ref>, size: nat, g: Heap)
    requires Collected(h, d, mem, slots, boxed) && d.tiles == h.young + h.old_ && d.starts == RootAddresses(h)
    requires HeapOk(before) && RegionsOk(h) && Cleared(before, h) && StoreOf(h) == StoreOf(before)
    requires CopyOk(d) && End(d) - d.base <= Used(before) <= size && FreshRegion(before, d.base, size)
    requires g == AfterMajor(h, d, mem, d.base + size, slots, boxed)
    ensures Relocated(before, g, size)
  {
    hide CopyOk, Collected, StoreOf, AllReached, Tiled, RememberedOk, MeansOk;
    var limit := d.base + size;
    MajorDone(h, d, mem, limit, slots, boxed);
    MajorReached(h, d, mem, slots, boxed, g);
    if AllReached(before) { MajorExact(before, h, d, mem, slots, boxed); }
  }
}
