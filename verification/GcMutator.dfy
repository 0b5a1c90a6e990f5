/** What the mutator's steps do to the heap and to the store it stands for. */
module GcMutator {
  import opened Basics
  import opened GcMemory
  import opened GcCopy
  import opened GcHeap
  import opened GcCollected

  // ---- the store that never collects ----

  function Nulls(n: nat): seq<LRef> {
    seq(n, i => LNull)
  }

  function Allocated(s: Store, tag: nat, aux: int, nfields: nat): Store {
    s.(objs := s.objs + [LObj(tag, aux, Nulls(nfields))])
  }

  function Stored(s: Store, id: nat, f: nat, v: LRef): Store
    requires id < |s.objs| && f < |s.objs[id].fields|
  {
    s.(objs := s.objs[id := s.objs[id].(fields := s.objs[id].fields[f := v])])
  }

  // ---- a new object ----

  function NewObj(tag: nat, aux: int, nfields: nat): Obj {
    Obj(tag, false, aux, seq(nfields, i => Null))
  }

  /** `h` with a new object of the store at `a`, before any region accounts for it. */
  function WithObject(h: Heap, a: nat, tag: nat, aux: int, nfields: nat): Heap {
    h.(mem := h.mem[a := NewObj(tag, aux, nfields)], ids := h.ids[a := |h.objs|],
       objs := h.objs + [LObj(tag, aux, Nulls(nfields))])
  }

  ghost predicate GrowsYoung(h: Heap, g: Heap, a: nat, tag: nat, aux: int, nfields: nat) {
    var end := a + Size(NewObj(tag, aux, nfields));
    a == h.nurseryBump && end <= h.nurseryLimit
    && g == WithObject(h, a, tag, aux, nfields).(nurseryBump := end, young := h.young + [a])
  }

  ghost predicate GrowsOld(h: Heap, g: Heap, a: nat, tag: nat, aux: int, nfields: nat) {
    var end := a + Size(NewObj(tag, aux, nfields));
    a == h.oldBump && end <= h.oldLimit
    && g == WithObject(h, a, tag, aux, nfields).(oldBump := end, old_ := h.old_ + [a])
  }

  /** `g` is `h` with a new object at `a`, in the nursery or in the old generation. */
  ghost predicate Grows(h: Heap, g: Heap, a: nat, tag: nat, aux: int, nfields: nat) {
    GrowsYoung(h, g, a, tag, aux, nfields) || GrowsOld(h, g, a, tag, aux, nfields)
  }

  lemma {:induction false} TiledNew(mem: Mem, ts: seq<nat>, base: nat, a: nat, o: Obj)
    requires Tiled(mem, ts, base, a)
    ensures Tiled(mem[a := o], ts, base, a) && Tiled(mem[a := o], ts + [a], base, a + Size(o))
  {
    TiledFacts(mem, ts, base, a);
    TiledSame(mem, mem[a := o], ts, base, a);
    assert (ts + [a])[..|ts|] == ts;
  }

  lemma TiledAway(mem: Mem, ts: seq<nat>, base: nat, end: nat, a: nat, o: Obj)
    requires Tiled(mem, ts, base, end) && (a < base || a >= end)
    ensures Tiled(mem[a := o], ts, base, end)
  {
    hide Tiled;
    TiledFacts(mem, ts, base, end);
    TiledSame(mem, mem[a := o], ts, base, end);
  }

  lemma GrowsYoungRegions(h: Heap, g: Heap, a: nat, tag: nat, aux: int, nfields: nat)
    requires RegionsOk(h) && GrowsYoung(h, g, a, tag, aux, nfields)
    ensures RegionsOk(g) && !Live(h, a)
  {
    hide Tiled;
    var o := NewObj(tag, aux, nfields);
    YoungOldDisjoint(h);
    TiledFacts(h.mem, h.young, h.nursery, h.nurseryBump);
    TiledNew(h.mem, h.young, h.nursery, a, o);
    TiledAway(h.mem, h.old_, h.oldFrom, h.oldBump, a, o);
  }

  lemma GrowsOldRegions(h: Heap, g: Heap, a: nat, tag: nat, aux: int, nfields: nat)
    requires RegionsOk(h) && GrowsOld(h, g, a, tag, aux, nfields)
    ensures RegionsOk(g) && !Live(h, a)
  {
    hide Tiled;
    var o := NewObj(tag, aux, nfields);
    YoungOldDisjoint(h);
    TiledFacts(h.mem, h.old_, h.oldFrom, h.oldBump);
    TiledNew(h.mem, h.old_, h.oldFrom, a, o);
    TiledAway(h.mem, h.young, h.nursery, h.nurseryBump, a, o);
  }

  lemma GrowsRegions(h: Heap, g: Heap, a: nat, tag: nat, aux: int, nfields: nat)
    requires RegionsOk(h) && Grows(h, g, a, tag, aux, nfields)
    ensures RegionsOk(g) && !Live(h, a) && forall b :: Live(g, b) <==> Live(h, b) || b == a
  {
    hide RegionsOk;
    if GrowsYoung(h, g, a, tag, aux, nfields) {
      GrowsYoungRegions(h, g, a, tag, aux, nfields);
    } else {
      GrowsOldRegions(h, g, a, tag, aux, nfields);
    }
  }

  /** What the other parts of the heap need to know of a new object. */
  lemma GrowsParts(h: Heap, g: Heap, a: nat, tag: nat, aux: int, nfields: nat)
    requires Grows(h, g, a, tag, aux, nfields)
    ensures g.mem == h.mem[a := NewObj(tag, aux, nfields)] && g.ids == h.ids[a := |h.objs|]
    ensures g.objs == h.objs + [LObj(tag, aux, Nulls(nfields))]
    ensures g.roots == h.roots && g.slots == h.slots && g.boxed == h.boxed && g.remembered == h.remembered
    ensures g.young == h.young || g.young == h.young + [a]
    ensures g.old_ == h.old_ || g.old_ == h.old_ + [a]
    ensures forall i :: 0 <= i < nfields ==> g.mem[a].fields[i] == Null
    ensures |g.mem[a].fields| == nfields && !g.mem[a].remembered
    ensures a in g.young || a in g.old_
  {}

  lemma FieldLive(h: Heap, b: nat, i: nat)
    requires ClosedOk(h) && Live(h, b) && b in h.mem && i < |h.mem[b].fields|
    ensures RefLive(h, h.mem[b].fields[i])
  {
    assert RefsLive(h, h.mem[b].fields);
  }

  lemma ObjMeansMore(ids: map<nat, nat>, a: nat, id: nat, o: Obj, l: LObj)
    requires ObjMeans(ids, o, l) && a !in ids
    ensures ObjMeans(ids[a := id], o, l)
  {}

  lemma NewMeans(ids: map<nat, nat>, tag: nat, aux: int, nfields: nat)
    ensures ObjMeans(ids, NewObj(tag, aux, nfields), LObj(tag, aux, Nulls(nfields)))
  {}

  /** A new object, with all its fields null, keeps the heap well-formed. */
  lemma GrowsOk(h: Heap, g: Heap, a: nat, tag: nat, aux: int, nfields: nat)
    requires HeapOk(h) && Grows(h, g, a, tag, aux, nfields) && tag != FWD
    ensures HeapOk(g) && StoreOf(g) == Allocated(StoreOf(h), tag, aux, nfields) && (Covered(h) ==> Covered(g))
    ensures Live(g, a) && g.ids[a] == |h.objs|
  {
    hide RegionsOk, ClosedOk, RememberedOk, MeansOk, StoreOf, Grows, Covered;
    GrowsRegions(h, g, a, tag, aux, nfields);
    GrowsClosed(h, g, a, tag, aux, nfields);
    GrowsRemembered(h, g, a, tag, aux, nfields);
    if Covered(h) { GrowsCovered(h, g, a, tag, aux, nfields); }
    GrowsMeans(h, g, a, tag, aux, nfields);
    GrowsStore(h, g, a, tag, aux, nfields);
  }

  lemma GrowsClosed(h: Heap, g: Heap, a: nat, tag: nat, aux: int, nfields: nat)
    requires RegionsOk(h) && ClosedOk(h) && Grows(h, g, a, tag, aux, nfields) && tag != FWD
    ensures ClosedOk(g)
  {
    hide RegionsOk;
    GrowsRegions(h, g, a, tag, aux, nfields);
    forall b | Live(g, b) ensures b in g.mem && g.mem[b].tag != FWD && RefsLive(g, g.mem[b].fields) {
      if b != a { assert Live(h, b); }
    }
  }

  lemma GrowsRemembered(h: Heap, g: Heap, a: nat, tag: nat, aux: int, nfields: nat)
    requires RegionsOk(h) && RememberedOk(h) && Grows(h, g, a, tag, aux, nfields)
    ensures RememberedOk(g)
  {
    hide RegionsOk, Grows;
    GrowsRegions(h, g, a, tag, aux, nfields);
    GrowsParts(h, g, a, tag, aux, nfields);
  }

  lemma GrowsCovered(h: Heap, g: Heap, a: nat, tag: nat, aux: int, nfields: nat)
    requires RegionsOk(h) && ClosedOk(h) && Covered(h) && Grows(h, g, a, tag, aux, nfields)
    ensures Covered(g)
  {
    hide RegionsOk, Grows, RefsLive;
    GrowsRegions(h, g, a, tag, aux, nfields);
    GrowsParts(h, g, a, tag, aux, nfields);
    forall b | b in g.old_ && b in g.mem && HasYoung(g, g.mem[b]) ensures b in g.remembered {
      var i :| 0 <= i < |g.mem[b].fields| && g.mem[b].fields[i].Ptr? && g.mem[b].fields[i].a in g.young;
      if b != a {
        FieldLive(h, b, i);
        assert HasYoung(h, h.mem[b]);
      }
    }
  }

  lemma GrowsMeans(h: Heap, g: Heap, a: nat, tag: nat, aux: int, nfields: nat)
    requires RegionsOk(h) && MeansOk(h) && Grows(h, g, a, tag, aux, nfields)
    ensures MeansOk(g) && a in g.ids && g.ids[a] == |h.objs| && Live(g, a)
  {
    hide RegionsOk, Grows, ObjMeans, NewObj, Nulls;
    GrowsRegions(h, g, a, tag, aux, nfields);
    GrowsParts(h, g, a, tag, aux, nfields);
    forall b | b in g.ids ensures b in g.mem && g.ids[b] < |g.objs| && ObjMeans(g.ids, g.mem[b], g.objs[g.ids[b]]) {
      if b == a {
        NewMeans(g.ids, tag, aux, nfields);
      } else {
        ObjMeansMore(h.ids, a, |h.objs|, h.mem[b], h.objs[h.ids[b]]);
      }
    }
  }

  lemma GrowsStore(h: Heap, g: Heap, a: nat, tag: nat, aux: int, nfields: nat)
    requires RegionsOk(h) && ClosedOk(h) && MeansOk(h) && Grows(h, g, a, tag, aux, nfields)
    ensures StoreOf(g) == Allocated(StoreOf(h), tag, aux, nfields)
  {
    hide RegionsOk, ObjMeans, Grows, NewObj, Nulls;
    GrowsRegions(h, g, a, tag, aux, nfields);
    GrowsParts(h, g, a, tag, aux, nfields);
    forall s | s in h.roots && s in h.slots ensures Meaning(g.ids, h.slots[s]) == Meaning(h.ids, h.slots[s]) {
      var i :| 0 <= i < |h.roots| && h.roots[i] == s;
      assert RefLive(h, h.slots[s]);
    }
    forall i | 0 <= i < |h.boxed| ensures Meaning(g.ids, h.boxed[i]) == Meaning(h.ids, h.boxed[i]) {
      assert RefLive(h, h.boxed[i]);
    }
  }

  // ---- a store into a field ----

  /** Does the barrier record object `a` for a store of `v`? */
  predicate Records(h: Heap, a: nat, v: Ref)
    requires a in h.mem
  {
    v.Ptr? && v.a in h.young && a in h.old_ && !h.mem[a].remembered
  }

  /** `g` is `h` after storing `v` into field `f` of the object at `a`, with the barrier. */
  ghost predicate Stores(h: Heap, g: Heap, a: nat, f: nat, v: Ref) {
    a in h.mem && f < |h.mem[a].fields| && a in h.ids && h.ids[a] < |h.objs| && f < |h.objs[h.ids[a]].fields|
    && var id := h.ids[a];
    var o := h.mem[a].(fields := h.mem[a].fields[f := v]);
    var l := h.objs[id].(fields := h.objs[id].fields[f := Meaning(h.ids, v)]);
    g == if Records(h, a, v)
         then h.(mem := h.mem[a := o.(remembered := true)], remembered := h.remembered + [a], objs := h.objs[id := l])
         else h.(mem := h.mem[a := o], objs := h.objs[id := l])
  }

  /** The same store when the barrier records nothing. */
  ghost predicate StoresSilently(h: Heap, g: Heap, a: nat, f: nat, v: Ref) {
    a in h.mem && f < |h.mem[a].fields| && a in h.ids && h.ids[a] < |h.objs| && f < |h.objs[h.ids[a]].fields|
    && var id := h.ids[a];
    g == h.(mem := h.mem[a := h.mem[a].(fields := h.mem[a].fields[f := v])],
            objs := h.objs[id := h.objs[id].(fields := h.objs[id].fields[f := Meaning(h.ids, v)])])
  }

  /** What both have in common: the field is written, and at most the object's mark and the set change. */
  ghost predicate Writes(h: Heap, g: Heap, a: nat, f: nat, v: Ref) {
    a in h.mem && f < |h.mem[a].fields| && a in h.ids && h.ids[a] < |h.objs| && f < |h.objs[h.ids[a]].fields|
    && a in g.mem
    && var id := h.ids[a];
    var o := h.mem[a].(fields := h.mem[a].fields[f := v], remembered := g.mem[a].remembered);
    g == h.(mem := h.mem[a := o], remembered := g.remembered,
            objs := h.objs[id := h.objs[id].(fields := h.objs[id].fields[f := Meaning(h.ids, v)])])
  }

  /** A barriered store keeps the heap well-formed, and the remembered set still covers every old object
      that points into the nursery. */
  lemma StoresOk(h: Heap, g: Heap, a: nat, f: nat, v: Ref)
    requires HeapOk(h) && Stores(h, g, a, f, v) && Live(h, a) && RefLive(h, v)
    ensures HeapOk(g) && StoreOf(g) == Stored(StoreOf(h), h.ids[a], f, Meaning(h.ids, v)) && (Covered(h) ==> Covered(g))
  {
    hide RegionsOk, ClosedOk, RememberedOk, MeansOk, StoreOf, Covered;
    assert Writes(h, g, a, f, v);
    hide Stores, Writes;
    WritesRegions(h, g, a, f, v);
    WritesClosed(h, g, a, f, v);
    StoresRemembered(h, g, a, f, v);
    WritesMeans(h, g, a, f, v);
    WritesStore(h, g, a, f, v);
    if Covered(h) { StoresCovered(h, g, a, f, v); }
  }

  lemma WritesRegions(h: Heap, g: Heap, a: nat, f: nat, v: Ref)
    requires RegionsOk(h) && Writes(h, g, a, f, v)
    ensures RegionsOk(g)
  {
    hide Tiled;
    TiledFacts(h.mem, h.young, h.nursery, h.nurseryBump);
    TiledFacts(h.mem, h.old_, h.oldFrom, h.oldBump);
    TiledSame(h.mem, g.mem, h.young, h.nursery, h.nurseryBump);
    TiledSame(h.mem, g.mem, h.old_, h.oldFrom, h.oldBump);
  }

  lemma WritesClosed(h: Heap, g: Heap, a: nat, f: nat, v: Ref)
    requires ClosedOk(h) && Writes(h, g, a, f, v) && Live(h, a) && RefLive(h, v)
    ensures ClosedOk(g)
  {
    forall b | Live(g, b) ensures b in g.mem && g.mem[b].tag != FWD && RefsLive(g, g.mem[b].fields) {
      assert Live(h, b) && RefsLive(h, h.mem[b].fields);
    }
  }

  lemma StoresRemembered(h: Heap, g: Heap, a: nat, f: nat, v: Ref)
    requires RegionsOk(h) && RememberedOk(h) && Stores(h, g, a, f, v)
    ensures RememberedOk(g)
  {
    hide RegionsOk;
    YoungOldDisjoint(h);
  }

  lemma StoresCovered(h: Heap, g: Heap, a: nat, f: nat, v: Ref)
    requires RegionsOk(h) && ClosedOk(h) && RememberedOk(h) && Covered(h) && Stores(h, g, a, f, v)
    ensures Covered(g)
  {
    hide RegionsOk, RefsLive;
    YoungOldDisjoint(h);
    forall b | b in g.old_ && b in g.mem && HasYoung(g, g.mem[b]) ensures b in g.remembered {
      var i :| 0 <= i < |g.mem[b].fields| && g.mem[b].fields[i].Ptr? && g.mem[b].fields[i].a in g.young;
      if b != a || i != f {
        assert h.mem[b].fields[i] == g.mem[b].fields[i];
        assert HasYoung(h, h.mem[b]);
      }
    }
  }

  lemma WritesMeans(h: Heap, g: Heap, a: nat, f: nat, v: Ref)
    requires ClosedOk(h) && MeansOk(h) && Writes(h, g, a, f, v) && RefLive(h, v)
    ensures MeansOk(g)
  {
    hide ClosedOk;
    forall b | b in g.ids ensures b in g.mem && g.ids[b] < |g.objs| && ObjMeans(g.ids, g.mem[b], g.objs[g.ids[b]]) {
      assert ObjMeans(h.ids, h.mem[b], h.objs[h.ids[b]]);
    }
  }

  lemma WritesStore(h: Heap, g: Heap, a: nat, f: nat, v: Ref)
    requires Writes(h, g, a, f, v)
    ensures h.ids[a] < |h.objs| && f < |h.objs[h.ids[a]].fields|
    ensures StoreOf(g) == Stored(StoreOf(h), h.ids[a], f, Meaning(h.ids, v))
  {}

  /** A store nothing records, because the set is full or there is no barrier, keeps the heap well-formed;
      the remembered set still covers it exactly when there was nothing to record. */
  lemma SilentStoreOk(h: Heap, g: Heap, a: nat, f: nat, v: Ref)
    requires HeapOk(h) && StoresSilently(h, g, a, f, v) && Live(h, a) && RefLive(h, v)
    ensures HeapOk(g) && StoreOf(g) == Stored(StoreOf(h), h.ids[a], f, Meaning(h.ids, v))
    ensures Covered(h) ==> (Covered(g) <==> !Records(h, a, v))
  {
    hide RegionsOk, ClosedOk, MeansOk, StoreOf, Tiled;
    assert Writes(h, g, a, f, v);
    WritesRegions(h, g, a, f, v);
    WritesClosed(h, g, a, f, v);
    WritesMeans(h, g, a, f, v);
    WritesStore(h, g, a, f, v);
    if Records(h, a, v) {
      assert g.mem[a].fields[f] == v && HasYoung(g, g.mem[a]);
      assert a !in g.remembered;
    } else if Covered(h) {
      assert Stores(h, g, a, f, v);
      StoresCovered(h, g, a, f, v);
    }
  }

  // ---- roots and handles ----

  /** Changing the rooted words to other live words. */
  lemma RootsOk(h: Heap, g: Heap)
    requires HeapOk(h) && g == h.(roots := g.roots, slots := g.slots, boxed := g.boxed)
    requires Distinct(g.roots) && RefsLive(h, g.boxed)
    requires forall i :: 0 <= i < |g.roots| ==> g.roots[i] in g.slots && RefLive(h, g.slots[g.roots[i]])
    ensures HeapOk(g) && (Covered(h) ==> Covered(g))
  {
    hide Tiled, ObjMeans;
    forall a | Live(g, a) ensures a in g.mem && g.mem[a].tag != FWD && RefsLive(g, g.mem[a].fields) {
      assert Live(h, a) && RefsLive(h, h.mem[a].fields);
    }
  }

  /** What a field of a live object holds is what the store says. */
  lemma FieldRead(h: Heap, a: nat, f: nat)
    requires HeapOk(h) && Live(h, a) && a in h.mem && f < |h.mem[a].fields|
    ensures a in h.ids && h.ids[a] < |h.objs| && f < |h.objs[h.ids[a]].fields|
    ensures RefLive(h, h.mem[a].fields[f]) && Meaning(h.ids, h.mem[a].fields[f]) == h.objs[h.ids[a]].fields[f]
  {
    hide RegionsOk, RememberedOk;
    assert ObjMeans(h.ids, h.mem[a], h.objs[h.ids[a]]);
    assert RefsLive(h, h.mem[a].fields);
  }

  lemma LiveIn(h: Heap, a: nat)
    requires HeapOk(h) && Live(h, a)
    ensures a in h.mem && a in h.ids && h.ids[a] < |h.objs| && |h.mem[a].fields| == |h.objs[h.ids[a]].fields|
    ensures h.mem[a].tag == h.objs[h.ids[a]].tag && h.mem[a].aux == h.objs[h.ids[a]].aux
  {
    hide RegionsOk, RememberedOk, ClosedOk;
    assert ObjMeans(h.ids, h.mem[a], h.objs[h.ids[a]]);
  }

  // ---- slots, seen from the store ----

  function FreshSlot(roots: seq<nat>): (s: nat)
    ensures s !in roots && forall r :: r in roots ==> r < s
  {
    if roots == [] then 0
    else
      var rest, last := FreshSlot(roots[..|roots| - 1]), roots[|roots| - 1];
      assert forall r :: r in roots ==> r in roots[..|roots| - 1] || r == last;
      if last < rest then rest else last + 1
  }

  function Bound(s: Store, slot: nat, v: LRef): Store {
    s.(slots := s.slots[slot := v])
  }

  function Restricted(s: Store, roots: seq<nat>): Store {
    s.(slots := map r | r in roots && r in s.slots :: s.slots[r])
  }

  lemma PushStore(h: Heap, g: Heap, slot: nat, v: Ref)
    requires g == h.(roots := h.roots + [slot], slots := h.slots[slot := v]) && slot !in h.roots
    ensures StoreOf(g) == Bound(StoreOf(h), slot, Meaning(h.ids, v))
  {}

  lemma SetStore(h: Heap, g: Heap, slot: nat, v: Ref)
    requires g == h.(slots := h.slots[slot := v]) && slot in h.roots
    ensures StoreOf(g) == Bound(StoreOf(h), slot, Meaning(h.ids, v))
  {}

  lemma PopStore(h: Heap, g: Heap, n: nat)
    requires n <= |h.roots| && g == h.(roots := h.roots[..n])
    ensures StoreOf(g) == Restricted(StoreOf(h), h.roots[..n])
  {}

  /** A pinned slot holds a live word, and its meaning is the store's. */
  lemma SlotRead(h: Heap, slot: nat)
    requires HeapOk(h) && slot in h.roots
    ensures slot in h.slots && RefLive(h, h.slots[slot])
    ensures slot in StoreOf(h).slots && StoreOf(h).slots[slot] == Meaning(h.ids, h.slots[slot])
  {
    hide RegionsOk, RememberedOk, MeansOk, RefsLive;
    var i :| 0 <= i < |h.roots| && h.roots[i] == slot;
  }

  /** Binding a fresh slot and popping it again leaves the other slots. */
  lemma BoundRestricted(s: Store, roots: seq<nat>, slot: nat, v: LRef)
    requires slot !in roots && forall r :: r in s.slots ==> r in roots
    ensures Restricted(Bound(s, slot, v), roots) == s
  {}

  lemma SlotsRooted(h: Heap)
    ensures forall r :: r in StoreOf(h).slots ==> r in h.roots
  {}

  // ---- boxed arrays ----

  /** `s` with the first `k` fields of object `id` set to `v`. */
  function Filled(s: Store, id: nat, k: nat, v: LRef): Store
    requires id < |s.objs|
  {
    var o := s.objs[id];
    s.(objs := s.objs[id := o.(fields := seq(|o.fields|, i requires 0 <= i < |o.fields| => if i < k then v else o.fields[i]))])
  }

  lemma FilledNone(s: Store, id: nat, v: LRef)
    requires id < |s.objs|
    ensures Filled(s, id, 0, v) == s
  {
    var o := s.objs[id];
    assert Filled(s, id, 0, v).objs[id].fields == o.fields;
    assert Filled(s, id, 0, v).objs == s.objs;
  }

  lemma FilledMore(s: Store, id: nat, k: nat, v: LRef)
    requires id < |s.objs| && k < |s.objs[id].fields|
    ensures Stored(Filled(s, id, k, v), id, k, v) == Filled(s, id, k + 1, v)
  {
    assert Stored(Filled(s, id, k, v), id, k, v).objs[id].fields == Filled(s, id, k + 1, v).objs[id].fields;
    assert Stored(Filled(s, id, k, v), id, k, v).objs == Filled(s, id, k + 1, v).objs;
  }

  /** A new tuple with every field set is the array's backing object. */
  lemma FilledArray(s: Store, len: nat, v: LRef)
    ensures var t := Filled(Allocated(s, 1, 0, len), |s.objs|, len, v);
      t.(boxed := t.boxed + [LPtr(|s.objs|)]) == WithArray(s, len, v)
  {
    var t := Filled(Allocated(s, 1, 0, len), |s.objs|, len, v);
    assert t.objs[|s.objs|].fields == seq(len, i => v);
    assert t.objs == WithArray(s, len, v).objs;
  }

  function WithArray(s: Store, len: nat, v: LRef): Store {
    s.(objs := s.objs + [LObj(1, 0, seq(len, i => v))], boxed := s.boxed + [LPtr(|s.objs|)])
  }

  lemma BoxStore(h: Heap, g: Heap, r: Ref)
    requires g == h.(boxed := h.boxed + [r])
    ensures StoreOf(g) == StoreOf(h).(boxed := StoreOf(h).boxed + [Meaning(h.ids, r)])
  {}

  /** A handle's backing object, seen from the store. */
  lemma BoxedRead(h: Heap, k: nat)
    requires HeapOk(h) && k < |h.boxed|
    ensures RefLive(h, h.boxed[k]) && |StoreOf(h).boxed| == |h.boxed| && StoreOf(h).boxed[k] == Meaning(h.ids, h.boxed[k])
  {
    hide RegionsOk, RememberedOk, MeansOk;
  }
}
