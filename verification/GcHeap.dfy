/** The heap as the mutator understands it: a store that never collects, and what it means for the
    collected memory to stand for that store. */
module GcHeap {
  import opened Basics
  import opened GcMemory
  import opened GcCopy

  // ---- the never-collected heap ----

  datatype LRef = LNull | LImm(word: nat) | LPtr(id: nat)

  datatype LObj = LObj(tag: nat, aux: int, fields: seq<LRef>)

  /** Objects by order of allocation, the words in the rooted slots, and the handle table. */
  datatype Store = Store(objs: seq<LObj>, slots: map<nat, LRef>, boxed: seq<LRef>)

  // ---- a snapshot of the collected heap ----

  datatype Heap = Heap(
    mem: Mem, nursery: nat, nurseryBump: nat, nurseryLimit: nat, oldFrom: nat, oldBump: nat, oldLimit: nat,
    young: seq<nat>, old_: seq<nat>, roots: seq<nat>, slots: map<nat, Ref>, remembered: seq<nat>, boxed: seq<Ref>,
    ids: map<nat, nat>, objs: seq<LObj>)

  predicate Live(h: Heap, a: nat) {
    a in h.young || a in h.old_
  }

  predicate RefLive(h: Heap, r: Ref) {
    r.Ptr? ==> Live(h, r.a)
  }

  predicate RefsLive(h: Heap, rs: seq<Ref>) {
    forall i :: 0 <= i < |rs| ==> RefLive(h, rs[i])
  }

  predicate HasYoung(h: Heap, o: Obj) {
    exists i :: 0 <= i < |o.fields| && o.fields[i].Ptr? && o.fields[i].a in h.young
  }

  ghost predicate RegionsOk(h: Heap) {
    && h.nursery <= h.nurseryBump <= h.nurseryLimit && h.oldFrom <= h.oldBump <= h.oldLimit
    && (h.nurseryLimit <= h.oldFrom || h.oldLimit <= h.nursery)
    && Tiled(h.mem, h.young, h.nursery, h.nurseryBump) && Tiled(h.mem, h.old_, h.oldFrom, h.oldBump)
  }

  /** No live object is forwarded, and live objects and roots name live objects only. */
  ghost predicate ClosedOk(h: Heap) {
    && (forall a :: Live(h, a) ==> a in h.mem && h.mem[a].tag != FWD && RefsLive(h, h.mem[a].fields))
    && Distinct(h.roots) && (forall i :: 0 <= i < |h.roots| ==> h.roots[i] in h.slots && RefLive(h, h.slots[h.roots[i]]))
    && RefsLive(h, h.boxed)
  }

  /** The remembered set is exactly the marked old objects. */
  ghost predicate RememberedOk(h: Heap) {
    && (forall a :: a in h.young ==> a in h.mem && !h.mem[a].remembered)
    && (forall a :: a in h.old_ ==> a in h.mem && (h.mem[a].remembered <==> a in h.remembered))
    && (forall a :: a in h.remembered ==> a in h.old_) && Distinct(h.remembered)
  }

  /** The remembered set covers every old object that points into the nursery. */
  ghost predicate Covered(h: Heap) {
    forall a :: a in h.old_ && a in h.mem && HasYoung(h, h.mem[a]) ==> a in h.remembered
  }

  /** What a word stands for. */
  predicate Means(ids: map<nat, nat>, r: Ref, l: LRef) {
    match r
    case Null => l == LNull
    case Imm(w) => l == LImm(w)
    case Ptr(a) => a in ids && l == LPtr(ids[a])
  }

  predicate ObjMeans(ids: map<nat, nat>, o: Obj, l: LObj) {
    o.tag == l.tag && o.aux == l.aux && |o.fields| == |l.fields|
    && forall i :: 0 <= i < |o.fields| ==> Means(ids, o.fields[i], l.fields[i])
  }

  /** Live objects stand for distinct objects of the store, field by field. */
  ghost predicate MeansOk(h: Heap) {
    && (forall a :: a in h.ids <==> Live(h, a))
    && (forall a, b :: a in h.ids && b in h.ids && h.ids[a] == h.ids[b] ==> a == b)
    && (forall a :: a in h.ids ==> a in h.mem && h.ids[a] < |h.objs| && ObjMeans(h.ids, h.mem[a], h.objs[h.ids[a]]))
  }

  ghost predicate HeapOk(h: Heap) {
    RegionsOk(h) && ClosedOk(h) && RememberedOk(h) && MeansOk(h)
  }

  function Meaning(ids: map<nat, nat>, r: Ref): LRef {
    match r
    case Null => LNull
    case Imm(w) => LImm(w)
    case Ptr(a) => if a in ids then LPtr(ids[a]) else LNull
  }

  /** The store the heap stands for. */
  function StoreOf(h: Heap): Store {
    Store(h.objs,
          map s | s in h.roots && s in h.slots :: Meaning(h.ids, h.slots[s]),
          seq(|h.boxed|, i requires 0 <= i < |h.boxed| => Meaning(h.ids, h.boxed[i])))
  }

  // ---- what a finished copy preserves ----

  /** The identity of every kept object, at its new address. */
  ghost function MovedIds(c: Copy, ids: map<nat, nat>): (r: map<nat, nat>)
    requires CopyOk(c)
  {
    map b | b in ids.Keys + c.rho.Values && (IsTarget(c, b) || (b in ids && b !in c.tiles)) ::
      if IsTarget(c, b) then IdAt(c, ids, SourceOf(c, b)) else ids[b]
  }

  function IdAt(c: Copy, ids: map<nat, nat>, a: nat): nat {
    if a in ids then ids[a] else 0
  }

  ghost predicate IsTarget(c: Copy, b: nat) {
    exists a :: a in c.rho && c.rho[a] == b
  }

  ghost function SourceOf(c: Copy, b: nat): (a: nat)
    requires IsTarget(c, b)
    ensures a in c.rho && c.rho[a] == b
  {
    var a :| a in c.rho && c.rho[a] == b;
    a
  }

  lemma RhoInjective(c: Copy, a: nat, b: nat)
    requires CopyOk(c) && a in c.rho && b in c.rho && c.rho[a] == c.rho[b]
    ensures a == b
  {
    hide Reached;
    OrderDistinct(c);
    var i :| 0 <= i < |c.order| && c.order[i] == a;
    var j :| 0 <= j < |c.order| && c.order[j] == b;
    if i < j { DstDistinct(c, i, j); } else if j < i { DstDistinct(c, j, i); }
  }

  /** The new addresses lie in the newly filled room. */
  lemma RhoInside(c: Copy, a: nat)
    requires CopyOk(c) && a in c.rho
    ensures c.base <= c.rho[a] < End(c) && a in c.tiles && a in c.mem0 && c.rho[a] !in c.tiles
  {
    hide Reached;
    OrderDistinct(c);
    var i :| 0 <= i < |c.order| && c.order[i] == a;
    DstInside(c, i);
  }

  /** Everything that stays put lies outside the destination. */
  ghost predicate StaysOutside(c: Copy, ids: map<nat, nat>) {
    forall a :: a in ids && a !in c.tiles ==> a < c.base || a >= End(c)
  }

  lemma MovedIdOf(c: Copy, ids: map<nat, nat>, a: nat)
    requires CopyOk(c) && a in c.rho && a in ids
    ensures c.rho[a] in MovedIds(c, ids) && MovedIds(c, ids)[c.rho[a]] == ids[a]
  {
    hide CopyOk;
    assert IsTarget(c, c.rho[a]);
    RhoInjective(c, a, SourceOf(c, c.rho[a]));
    assert c.rho[a] in c.rho.Values;
  }

  lemma StayingIdOf(c: Copy, ids: map<nat, nat>, a: nat)
    requires CopyOk(c) && StaysOutside(c, ids) && a in ids && a !in c.tiles
    ensures a in MovedIds(c, ids) && MovedIds(c, ids)[a] == ids[a]
  {
    hide CopyOk;
    if IsTarget(c, a) { RhoInside(c, SourceOf(c, a)); }
  }

  /** A moved word stands for what it stood for. */
  lemma MeansMoved(c: Copy, ids: map<nat, nat>, r: Ref, r': Ref, l: LRef)
    requires CopyOk(c) && StaysOutside(c, ids) && RefMoved(c, r, r') && Means(ids, r, l)
    ensures Means(MovedIds(c, ids), r', l)
  {
    hide CopyOk, MovedIds, StaysOutside;
    if r.Ptr? {
      if r.a in c.tiles { MovedIdOf(c, ids, r.a); } else { StayingIdOf(c, ids, r.a); }
    }
  }

  lemma MeaningMoved(c: Copy, ids: map<nat, nat>, r: Ref, r': Ref)
    requires CopyOk(c) && StaysOutside(c, ids) && RefMoved(c, r, r') && (r.Ptr? ==> r.a in ids)
    ensures Meaning(MovedIds(c, ids), r') == Meaning(ids, r)
  {
    hide CopyOk, MovedIds, StaysOutside;
    MeansMoved(c, ids, r, r', Meaning(ids, r));
  }

  /** An object whose fields have all moved stands for what it stood for. */
  lemma ObjMeansMoved(c: Copy, ids: map<nat, nat>, o: Obj, o': Obj, l: LObj)
    requires CopyOk(c) && StaysOutside(c, ids) && ObjMeans(ids, o, l)
    requires o'.tag == o.tag && o'.aux == o.aux && FieldsMoved(c, o.fields, o'.fields, |o.fields|)
    ensures ObjMeans(MovedIds(c, ids), o', l)
  {
    hide CopyOk, MovedIds, StaysOutside, Means;
    forall i | 0 <= i < |o.fields| ensures Means(MovedIds(c, ids), o'.fields[i], l.fields[i]) {
      MeansMoved(c, ids, o.fields[i], o'.fields[i], l.fields[i]);
    }
  }

  lemma MovedIdsInjective(c: Copy, ids: map<nat, nat>, a: nat, b: nat)
    requires CopyOk(c) && StaysOutside(c, ids) && (forall x :: x in c.tiles ==> x in ids)
    requires forall x, y :: x in ids && y in ids && ids[x] == ids[y] ==> x == y
    requires a in MovedIds(c, ids) && b in MovedIds(c, ids) && MovedIds(c, ids)[a] == MovedIds(c, ids)[b]
    ensures a == b
  {
    hide CopyOk, StaysOutside;
    if IsTarget(c, a) { RhoInside(c, SourceOf(c, a)); }
    if IsTarget(c, b) { RhoInside(c, SourceOf(c, b)); }
  }
}
