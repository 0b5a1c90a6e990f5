/** The generational collector in compacting mode: bump allocation in a nursery, a write barrier and a
    remembered set, minor promotion, and a major that relocates the live set into a fresh region. */
module Gc {
  import opened Basics
  import opened GcMemory
  import opened GcCopy
  import opened GcHeap
  import opened GcCollected
  import opened GcMutator

  const MAX_REMEMBERED: nat := 65536

  const CON: nat := 0
  const TUPLE: nat := 1

  class Collector {
    const nursery: nat
    const nurserySize: nat
    const marginNurseries: nat
    const shrinkBand: nat
    var mem: Mem
    var nurseryBump: nat
    var oldFrom: nat
    var oldSpace: nat
    var oldBump: nat
    var roots: seq<nat>
    var slots: map<nat, Ref>
    var remembered: seq<nat>
    var boxed: seq<Ref>
    ghost var young: seq<nat>
    ghost var old_: seq<nat>
    ghost var ids: map<nat, nat>
    ghost var objs: seq<LObj>
    /** Auxiliary: since the last collection, has a store made an old object point into the nursery without
        recording it? No step of the collector looks at it. */
    var missed: bool
    /** The objects stored to with the barrier since the last collection. */
    ghost var stored: set<nat>
    /** Since the last collection, has an array that was born old been filled with a nursery pointer? */
    ghost var filledOld: bool
    /** How often the host has refused memory. */
    ghost var refusals: nat

    /** Split the budget into a nursery and one old region, each at least a page; the two regions come
        from the host, apart from each other. */
    constructor (heapBytes: nat, nurseryDiv: nat, oldDiv: nat, margin: nat, band: nat, nurseryBase: nat, oldBase: nat)
      requires nurseryDiv > 0 && oldDiv > 0 && margin > 0
      requires Apart(oldBase, AtLeast(heapBytes / oldDiv, 4096), nurseryBase, nurseryBase + AtLeast(heapBytes / nurseryDiv, 4096), 0, 0)
      ensures Valid() && StoreOf(View()) == Store([], map[], []) && roots == [] && remembered == [] && !missed && refusals == 0
      ensures stored == {} && !filledOld && marginNurseries == margin && shrinkBand == if band < 2 then 2 else band
      ensures nurseryBump == nursery && nursery == nurseryBase && oldBump == oldFrom == oldBase && objs == [] && boxed == []
      ensures nurserySize == if heapBytes / nurseryDiv < 4096 then 4096 else heapBytes / nurseryDiv
      ensures oldSpace == if heapBytes / oldDiv < 4096 then 4096 else heapBytes / oldDiv
    {
      nursery, nurserySize := nurseryBase, AtLeast(heapBytes / nurseryDiv, 4096);
      marginNurseries, shrinkBand := margin, AtLeast(band, 2);
      mem, nurseryBump := map[], nurseryBase;
      oldFrom, oldSpace, oldBump := oldBase, AtLeast(heapBytes / oldDiv, 4096), oldBase;
      roots, slots, remembered, boxed := [], map[], [], [];
      young, old_, ids, objs, missed, refusals := [], [], map[], [], false, 0;
      stored, filledOld := {}, false;
    }

    ghost function View(): Heap
      reads this
    {
      Heap(mem, nursery, nurseryBump, nursery + nurserySize, oldFrom, oldBump, oldFrom + oldSpace,
           young, old_, roots, slots, remembered, boxed, ids, objs)
    }

    ghost predicate Valid()
      reads this
    {
      HeapOk(View()) && (missed || Covered(View())) && Accounted() && nurserySize >= 4096 && marginNurseries >= 1 && shrinkBand >= 2
    }

    /** Every recorded object was stored to; something is missed only with the set full, or in an array born
        old. */
    ghost predicate Accounted()
      reads `remembered, `stored, `missed, `filledOld
    {
      (forall i :: 0 <= i < |remembered| ==> remembered[i] in stored) && (missed ==> |remembered| >= MAX_REMEMBERED || filledOld)
    }

    /** No field was stored to: the accounts are as they were, or closed by a collection. */
    twostate predicate NothingStored()
      reads `stored, `filledOld
    {
      (stored == {} || stored == old(stored)) && (filledOld ==> old(filledOld))
    }

    predicate InNursery(a: nat) {
      nursery <= a < nursery + nurserySize
    }

    // ---- evacuation ----

    /** Is a word one this collection knows how to treat? */
    ghost predicate Known(major: bool, c: Copy, o: Ref) {
      o.Ptr? ==> if major then o.a in c.tiles else (InNursery(o.a) <==> o.a in c.tiles)
    }

    ghost predicate CanEvac(major: bool, c: Copy, o: Ref)
      reads `oldFrom, `oldSpace
    {
      Known(major, c, o) && MayMove(c, o) && (!major ==> c.base + Bytes(c.mem0, c.tiles) <= oldFrom + oldSpace)
    }

    ghost predicate Evacuated(c: Copy, d: Copy, before: Mem, alloc: nat, k: nat, n: nat, o: Ref, r: Ref)
      reads `mem
    {
      Copying(d, mem, alloc, k, n) && Advanced(c, d, before, mem) && RefMoved(d, o, r)
    }

    lemma CanEvacMore(major: bool, c: Copy, d: Copy, o: Ref)
      requires CanEvac(major, c, o) && Continues(c, d)
      ensures CanEvac(major, d, o)
    {
      if o.Ptr? && o.a in c.tiles { PathMore(c, d, o.a); }
    }

    /** Copy `o`, known to be unmoved, to the frontier. */
    method CopyObject(a: nat, alloc: nat, ghost c: Copy, ghost k: nat, ghost n: nat)
      returns (r: Ref, frontier: nat, ghost d: Copy)
      requires Copying(c, mem, alloc, k, n) && a in c.tiles && a !in c.rho && Reached(c, a)
      modifies `mem
      ensures Evacuated(c, d, old(mem), frontier, k, n, Ptr(a), r)
      ensures a in old(mem) && r == Ptr(alloc) && frontier == alloc + Size(old(mem)[a])
      ensures mem == old(mem)[alloc := old(mem)[a]][a := Forwarded(old(mem)[a], alloc)]
    {
      hide Reached, CopyOk, Scanned, Sources;
      CopyOne(c, mem, alloc, k, n, a);
      var o := mem[a];
      mem := mem[alloc := o][a := Forwarded(o, alloc)];
      r, frontier := Ptr(alloc), alloc + Size(o);
      d := Next(c, a);
    }

    method EvacMinor(o: Ref, alloc: nat, ghost c: Copy, ghost k: nat, ghost n: nat)
      returns (r: Ref, frontier: nat, ghost d: Copy)
      requires Copying(c, mem, alloc, k, n) && CanEvac(false, c, o)
      modifies `mem
      ensures Evacuated(c, d, old(mem), frontier, k, n, o, r)
    {
      hide Reached, CopyOk, Scanned, Sources, Kept;
      r, frontier, d := o, alloc, c;
      KeptSame(c, mem);
      if o.Ptr? && InNursery(o.a) {
        SourceAt(c, mem, o.a);
        if mem[o.a].tag == FWD {
          r := Ptr(mem[o.a].aux);
        } else {
          CopyOne(c, mem, alloc, k, n, o.a);
          // The overflow abort is unreachable.
          assert alloc + Size(mem[o.a]) <= oldFrom + oldSpace;
          r, frontier, d := CopyObject(o.a, alloc, c, k, n);
        }
      }
    }

    method EvacMajor(o: Ref, alloc: nat, ghost c: Copy, ghost k: nat, ghost n: nat)
      returns (r: Ref, frontier: nat, ghost d: Copy)
      requires Copying(c, mem, alloc, k, n) && CanEvac(true, c, o)
      modifies `mem
      ensures Evacuated(c, d, old(mem), frontier, k, n, o, r) && Moved(r, mem, frontier) == MajorMove(old(mem), alloc, o)
    {
      hide Reached, CopyOk, Scanned, Sources, Kept;
      r, frontier, d := o, alloc, c;
      KeptSame(c, mem);
      if o.Ptr? {
        SourceAt(c, mem, o.a);
        if mem[o.a].tag == FWD {
          r := Ptr(mem[o.a].aux);
        } else {
          r, frontier, d := CopyObject(o.a, alloc, c, k, n);
        }
      }
    }

    /** The collection's own evacuation function. */
    method Evac(major: bool, o: Ref, alloc: nat, ghost c: Copy, ghost k: nat, ghost n: nat)
      returns (r: Ref, frontier: nat, ghost d: Copy)
      requires Copying(c, mem, alloc, k, n) && CanEvac(major, c, o)
      modifies `mem
      ensures Evacuated(c, d, old(mem), frontier, k, n, o, r)
    {
      hide Reached, Copying, Advanced;
      if major {
        r, frontier, d := EvacMajor(o, alloc, c, k, n);
      } else {
        r, frontier, d := EvacMinor(o, alloc, c, k, n);
      }
    }

    // ---- roots ----

    method EvacRoots(major: bool, alloc: nat, ghost c: Copy) returns (frontier: nat, ghost d: Copy)
      requires Copying(c, mem, alloc, 0, 0) && Distinct(roots)
      requires forall i :: 0 <= i < |roots| ==> roots[i] in slots && CanEvac(major, c, slots[roots[i]])
      modifies `mem, `slots
      ensures Copying(d, mem, frontier, 0, 0) && Advanced(c, d, old(mem), mem)
      ensures SlotsMoved(d, roots, old(slots), slots, |roots|)
    {
      hide Reached, Copying, Kept, RefMoved, CanEvac;
      frontier, d := alloc, c;
      KeptSame(c, mem);
      for i := 0 to |roots|
        invariant Copying(d, mem, frontier, 0, 0) && Advanced(c, d, old(mem), mem)
        invariant SlotsMoved(d, roots, old(slots), slots, i)
      {
        var s := roots[i];
        assert slots[s] == old(slots)[s];
        if slots[s] != Null {
          ghost var e, before, was := d, mem, slots;
          CanEvacMore(major, c, d, slots[s]);
          var r: Ref;
          r, frontier, d := Evac(major, slots[s], frontier, d, 0, 0);
          slots := slots[s := r];
          AdvancedTrans(c, e, d, old(mem), before, mem);
          SlotsMovedMore(e, d, roots, old(slots), was, i, r);
        } else {
          NullMoved(d);
        }
      }
    }

    /** The handle table's entries are extra roots. */
    method BoxedArrayGcRoots(major: bool, alloc: nat, ghost c: Copy) returns (frontier: nat, ghost d: Copy)
      requires Copying(c, mem, alloc, 0, 0)
      requires forall i :: 0 <= i < |boxed| ==> CanEvac(major, c, boxed[i])
      modifies `mem, `boxed
      ensures Copying(d, mem, frontier, 0, 0) && Advanced(c, d, old(mem), mem)
      ensures FieldsMoved(d, old(boxed), boxed, |old(boxed)|)
    {
      hide Reached, Copying, Kept, RefMoved, CanEvac;
      frontier, d := alloc, c;
      KeptSame(c, mem);
      for i := 0 to |boxed|
        invariant |boxed| == |old(boxed)|
        invariant Copying(d, mem, frontier, 0, 0) && Advanced(c, d, old(mem), mem)
        invariant FieldsMoved(d, old(boxed), boxed, i)
      {
        assert boxed[i] == old(boxed)[i];
        if boxed[i] != Null {
          ghost var e, before, was := d, mem, boxed;
          CanEvacMore(major, c, d, boxed[i]);
          var r: Ref;
          r, frontier, d := Evac(major, boxed[i], frontier, d, 0, 0);
          boxed := boxed[i := r];
          AdvancedTrans(c, e, d, old(mem), before, mem);
          FieldsMovedMore(e, d, old(boxed), was, i, r);
        } else {
          NullMoved(d);
        }
      }
    }

    // ---- the scan ----

    /** Every field of every object that may move is known. */
    ghost predicate FieldsKnown(major: bool, c: Copy)
      reads `oldFrom, `oldSpace
    {
      (!major ==> c.base + Bytes(c.mem0, c.tiles) <= oldFrom + oldSpace)
      && forall a, i :: a in c.tiles && a in c.mem0 && 0 <= i < |c.mem0[a].fields| ==> Known(major, c, c.mem0[a].fields[i])
    }

    /** Cheney's loop: scan the copies in order until the scan pointer meets the frontier. */
    method Scan(major: bool, start: nat, alloc: nat, ghost c: Copy) returns (frontier: nat, ghost d: Copy)
      requires Copying(c, mem, alloc, 0, 0) && start == c.base && FieldsKnown(major, c)
      modifies `mem
      ensures Copying(d, mem, frontier, |d.order|, 0) && Advanced(c, d, old(mem), mem)
    {
      hide Reached, CopyOk, Scanned, Sources, Kept, FieldsKnown;
      frontier, d := alloc, c;
      KeptSame(c, mem);
      var scan := start;
      ghost var k := 0;
      OrderShort(d);
      ScanDone(d, 0);
      while scan < frontier
        invariant Copying(d, mem, frontier, k, 0) && Advanced(c, d, old(mem), mem)
        invariant scan == d.base + Bytes(d.mem0, d.order[..k]) && FieldsKnown(major, d) && |d.order| <= |c.tiles|
        decreases |c.tiles| - k
      {
        ScanDone(d, k);
        ghost var e, before := d, mem;
        frontier, d := ScanOne(major, scan, frontier, d, k);
        AdvancedTrans(c, e, d, old(mem), before, mem);
        ScanNext(e, d, mem, frontier, k);
        scan := scan + Size(mem[scan]);
        k := k + 1;
        OrderShort(d);
        FieldsKnownMore(major, e, d);
      }
      ScanDone(d, k);
    }

    lemma FieldsKnownMore(major: bool, c: Copy, d: Copy)
      requires FieldsKnown(major, c) && Continues(c, d)
      ensures FieldsKnown(major, d)
    {}

    /** Evacuate one field of the object at the scan pointer. */
    method ScanField(major: bool, scan: nat, i: nat, alloc: nat, ghost c: Copy, ghost k: nat)
      returns (frontier: nat, ghost d: Copy)
      requires Copying(c, mem, alloc, k, i) && k < |c.order| && FieldsKnown(major, c)
      requires scan == c.base + Bytes(c.mem0, c.order[..k]) && c.order[k] in c.mem0 && i < |c.mem0[c.order[k]].fields|
      modifies `mem
      ensures k < |d.order| && Copying(d, mem, frontier, k, i + 1) && Advanced(c, d, old(mem), mem)
    {
      hide Reached, CopyOk, Scanned, Sources, Kept, FieldsKnown, Known, Copying;
      ghost var a := c.order[k];
      ScanObject(c, mem, alloc, k, i);
      ScanCopying(c, mem, alloc, k, i);
      FieldKnown(major, c, c, a, i);
      var r: Ref;
      r, frontier, d := Evac(major, mem[scan].fields[i], alloc, c, k, i);
      ScanObject(d, mem, frontier, k, i);
      FieldScanned(d, mem, frontier, k, i, r);
      ScanCopying(d, mem, frontier, k, i);
      TargetWritten(c, d, old(mem), mem, scan, mem[scan].(fields := mem[scan].fields[i := r]));
      mem := mem[scan := mem[scan].(fields := mem[scan].fields[i := r])];
    }

    /** Evacuate the fields of the object at the scan pointer. */
    method ScanOne(major: bool, scan: nat, alloc: nat, ghost c: Copy, ghost k: nat) returns (frontier: nat, ghost d: Copy)
      requires Copying(c, mem, alloc, k, 0) && k < |c.order| && FieldsKnown(major, c)
      requires scan == c.base + Bytes(c.mem0, c.order[..k])
      modifies `mem
      ensures k < |d.order| && d.order[k] in d.mem0 && Copying(d, mem, frontier, k, |d.mem0[d.order[k]].fields|)
      ensures Advanced(c, d, old(mem), mem)
    {
      hide Reached, CopyOk, Scanned, Sources, Kept, FieldsKnown, Known, Copying;
      frontier, d := alloc, c;
      KeptSame(c, mem);
      ScanObject(c, mem, alloc, k, 0);
      ghost var a := c.order[k];
      var i := 0;
      while i < |mem[scan].fields|
        invariant Copying(d, mem, frontier, k, i) && Advanced(c, d, old(mem), mem)
        invariant k < |d.order| && d.order[k] == a && a in d.mem0 && scan in mem && i <= |d.mem0[a].fields|
        invariant |mem[scan].fields| == |d.mem0[a].fields| && FieldsKnown(major, d)
        decreases |d.mem0[a].fields| - i
      {
        ghost var e, before := d, mem;
        PrefixSame(c, d, k);
        frontier, d := ScanField(major, scan, i, frontier, d, k);
        AdvancedTrans(c, e, d, old(mem), before, mem);
        PrefixSame(c, d, k);
        ScanObject(d, mem, frontier, k, i + 1);
        FieldsKnownMore(major, e, d);
        i := i + 1;
      }
    }

    lemma FieldKnown(major: bool, c: Copy, d: Copy, a: nat, i: nat)
      requires FieldsKnown(major, c) && Continues(c, d) && CopyOk(d) && a in d.tiles && Reached(d, a) && a in d.mem0
      requires i < |d.mem0[a].fields|
      ensures CanEvac(major, d, d.mem0[a].fields[i])
    {
      hide Reached, CopyOk;
      var r := d.mem0[a].fields[i];
      if r.Ptr? {
        assert PointsTo(d.mem0, a, r.a);
        PathStep(d, a, r.a);
      }
    }

    // ---- minor collection ----

    /** Evacuate the fields of one remembered object, which stays where it is. */
    method EvacFieldsOf(a: nat, alloc: nat, ghost c: Copy, ghost h: Heap) returns (frontier: nat, ghost d: Copy)
      requires Copying(c, mem, alloc, 0, 0) && a in mem && a in c.mem0 && mem[a] == c.mem0[a].(remembered := false)
      requires a !in c.tiles && a < c.base
      requires forall i :: 0 <= i < |c.mem0[a].fields| ==> CanEvac(false, c, c.mem0[a].fields[i])
      modifies `mem
      ensures Copying(d, mem, frontier, 0, 0) && Continues(c, d) && End(c) <= End(d) && Stayed(d, mem, a)
      ensures forall b :: b in old(mem) && b != a && b !in c.tiles && b < c.base ==> b in mem && mem[b] == old(mem)[b]
    {
      hide Reached, CopyOk, Scanned, Sources, RefMoved, CanEvac, Copying;
      frontier, d := alloc, c;
      ghost var o := c.mem0[a];
      for f := 0 to |mem[a].fields|
        invariant Copying(d, mem, frontier, 0, 0) && Continues(c, d) && End(c) <= End(d)
        invariant a in mem && mem[a].tag == o.tag && mem[a].aux == o.aux && !mem[a].remembered
        invariant FieldsMoved(d, o.fields, mem[a].fields, f)
        invariant forall b :: b in old(mem) && b != a && b !in c.tiles && b < c.base ==> b in mem && mem[b] == old(mem)[b]
      {
        ghost var e, was := d, mem[a].fields;
        CanEvacMore(false, c, d, o.fields[f]);
        var r: Ref;
        r, frontier, d := Evac(false, mem[a].fields[f], frontier, d, 0, 0);
        FieldsMovedMore(e, d, o.fields, was, f, r);
        CopyingElsewhere(d, mem, frontier, 0, 0, a, mem[a].(fields := mem[a].fields[f := r]));
        mem := mem[a := mem[a].(fields := mem[a].fields[f := r])];
      }
    }

    /** The remembered objects are extra roots; their marks are cleared. */
    method EvacRemembered(alloc: nat, ghost c: Copy, ghost h: Heap) returns (frontier: nat, ghost d: Copy)
      requires Copying(c, mem, alloc, 0, 0) && HeapOk(h) && c.mem0 == h.mem && c.tiles == h.young
      requires c.starts == (set a | a in h.young) && c.base == h.oldBump && remembered == h.remembered
      requires h.nursery == nursery && h.nurseryLimit == nursery + nurserySize
      requires c.base + Bytes(c.mem0, c.tiles) <= oldFrom + oldSpace
      requires forall b :: b in h.old_ ==> b in mem && mem[b] == h.mem[b]
      modifies `mem
      ensures Copying(d, mem, frontier, 0, 0) && Continues(c, d) && End(c) <= End(d)
      ensures forall b :: b in h.old_ ==> if b in h.remembered then Stayed(d, mem, b) else b in mem && mem[b] == h.mem[b]
    {
      hide Reached, CopyOk, Scanned, Sources, CanEvac, Copying, Tiled, MeansOk, Stayed, RefsLive;
      frontier, d := alloc, c;
      YoungOldDisjoint(h);
      for i := 0 to |remembered|
        invariant Copying(d, mem, frontier, 0, 0) && Continues(c, d) && End(c) <= End(d)
        invariant forall b :: b in h.old_ ==>
          if b in remembered[..i] then Stayed(d, mem, b) else b in mem && mem[b] == h.mem[b]
      {
        var a := remembered[i];
        ghost var e, before := d, mem;
        assert a in h.remembered && a in h.old_ && a !in remembered[..i];
        CopyingElsewhere(d, mem, frontier, 0, 0, a, mem[a].(remembered := false));
        mem := mem[a := mem[a].(remembered := false)];
        FieldsCanEvac(h, d, a);
        frontier, d := EvacFieldsOf(a, frontier, d, h);
        forall b | b in h.old_
          ensures if b in remembered[..i + 1] then Stayed(d, mem, b) else b in mem && mem[b] == h.mem[b]
        {
          if b in remembered[..i] {
            StayedIn(e, before, b);
            assert b != a;
            StayedMore(e, d, before, mem, b);
          }
        }
      }
    }

    lemma FieldsCanEvac(h: Heap, c: Copy, a: nat)
      requires HeapOk(h) && Live(h, a) && c.mem0 == h.mem && c.tiles == h.young && c.starts == (set b | b in h.young)
      requires h.nursery == nursery && h.nurseryLimit == nursery + nurserySize
      requires c.base + Bytes(c.mem0, c.tiles) <= oldFrom + oldSpace
      ensures a in c.mem0 && forall i :: 0 <= i < |c.mem0[a].fields| ==> CanEvac(false, c, c.mem0[a].fields[i])
    {
      hide Reached, Tiled, MeansOk, MayMove;
      forall i | 0 <= i < |c.mem0[a].fields| ensures CanEvac(false, c, c.mem0[a].fields[i]) {
        LiveKnown(h, c, c.mem0[a].fields[i]);
      }
    }

    /** Every root, handle and field of a well-formed heap is known to a minor collection. */
    lemma MinorKnown(h: Heap, c: Copy)
      requires HeapOk(h) && h == View() && c == MinorCopy(h)
      requires c.base + Bytes(c.mem0, c.tiles) <= oldFrom + oldSpace
      ensures forall i :: 0 <= i < |roots| ==> roots[i] in slots && CanEvac(false, c, slots[roots[i]])
      ensures forall i :: 0 <= i < |boxed| ==> CanEvac(false, c, boxed[i])
      ensures FieldsKnown(false, c)
    {
      hide Reached, Tiled, MeansOk, MayMove;
      forall i | 0 <= i < |roots| ensures CanEvac(false, c, slots[roots[i]]) { LiveKnown(h, c, slots[roots[i]]); }
      forall i | 0 <= i < |boxed| ensures CanEvac(false, c, boxed[i]) { LiveKnown(h, c, boxed[i]); }
      forall a, i | a in c.tiles && a in c.mem0 && 0 <= i < |c.mem0[a].fields| ensures Known(false, c, c.mem0[a].fields[i]) {
        assert Live(h, a);
        LiveKnown(h, c, c.mem0[a].fields[i]);
      }
    }

    /** Copy the nursery's survivors behind the old generation's frontier. An old object that is not
        remembered is not looked at. */
    method Promote() returns (alloc: nat, ghost d: Copy)
      requires Valid() && oldBump + (nurseryBump - nursery) <= oldFrom + oldSpace
      modifies `mem, `slots, `boxed
      ensures Covered(old(View())) ==> Collected(old(View()), d, mem, slots, boxed)
      ensures CopyOk(d) && d.tiles == young && d.base == oldBump && alloc == End(d)
      ensures alloc <= oldBump + (nurseryBump - nursery)
      ensures Skipped(old(View()), mem)
    {
      hide Reached, CopyOk, Scanned, Sources, Kept, Tiled, RememberedOk, MeansOk, ClosedOk, RefMoved, SlotsMoved, FieldsMoved,
        CanEvac, FieldsKnown, Stayed, Copying, Covered, Collected;
      ghost var h := View();
      ghost var c := MinorCopy(h);
      GcCollected.MinorStarts(h, c);
      MinorKnown(h, c);
      RootsDistinct(h);
      alloc, d := EvacRoots(false, oldBump, c);
      ghost var c1, mem1 := d, mem;
      forall i | 0 <= i < |boxed| ensures CanEvac(false, d, boxed[i]) { CanEvacMore(false, c, d, boxed[i]); }
      alloc, d := BoxedArrayGcRoots(false, alloc, d);
      AdvancedTrans(c, c1, d, h.mem, mem1, mem);
      OldUntouched(h, c, d, h.mem, mem);
      ghost var c2 := d;
      alloc, d := EvacRemembered(alloc, d, h);
      ghost var c3, mem3 := d, mem;
      FieldsKnownMore(false, c, d);
      alloc, d := Scan(false, oldBump, alloc, d);
      forall a | a in h.old_ ensures a in mem3 {
        if a in h.remembered { StayedIn(c3, mem3, a); }
      }
      OldUntouched(h, c3, d, mem3, mem);
      FrontierFits(d, mem, alloc);
      NurseryBytes(h);
      if Covered(h) { MinorFinished(h, c1, c2, c3, d, mem3, mem, slots, boxed); }
    }

    /** Promote the nursery's survivors into the old generation and free the nursery. When the remembered
        set covers the heap the store is kept. */
    method MinorCollect()
      requires Valid() && oldBump + (nurseryBump - nursery) <= oldFrom + oldSpace
      modifies this
      ensures Covered(old(View())) ==> Valid() && !missed && StoreOf(View()) == old(StoreOf(View()))
      ensures stored == {} && !filledOld
      ensures nurseryBump == nursery && young == [] && remembered == [] && oldFrom == old(oldFrom) && oldSpace == old(oldSpace)
      ensures roots == old(roots) && objs == old(objs) && refusals == old(refusals)
      ensures oldBump <= old(oldBump) + (old(nurseryBump) - nursery)
      ensures Skipped(old(View()), mem) && old(old_) <= old_ && forall a :: a in old_ ==> !InNursery(a)
    {
      hide Reached, CopyOk, Tiled, RememberedOk, MeansOk, ClosedOk, StoreOf, SlotsMoved, FieldsMoved, Stayed, Copying,
        StaysOutside, Covered, Collected, Skipped;
      ghost var h := View();
      var alloc: nat;
      ghost var d;
      alloc, d := Promote();
      YoungOldDisjoint(h);
      if Covered(h) { MinorDone(h, d, mem, slots, boxed); }
      TargetsOutside(h, d);
      AdoptPromoted(alloc, h, d);
      NothingYoung(View());
    }

    /** Commit the promotions and free the nursery. */
    method AdoptPromoted(alloc: nat, ghost h: Heap, ghost d: Copy)
      requires CopyOk(d) && View() == h.(mem := mem, slots := slots, boxed := boxed) && alloc == End(d)
      modifies `old_, `young, `ids, `remembered, `missed, `stored, `filledOld, `oldBump, `nurseryBump
      ensures View() == AfterMinor(h, d, mem, slots, boxed) && !missed && stored == {} && !filledOld && Accounted()
    {
      hide CopyOk, Targets, MovedIds, End;
      ghost var targets, moved := Targets(d), MovedIds(d, h.ids);
      remembered, missed, oldBump, nurseryBump := [], false, alloc, nursery;
      old_, young, ids, stored, filledOld := h.old_ + targets, [], moved, {}, false;
    }

    // ---- major collection ----

    /** A root, a handle or a field of a well-formed heap is known to a major collection. */
    lemma MajorKnown(h: Heap, c: Copy)
      requires ClosedOk(h) && h == View() && c == MajorCopy(h, c.base)
      ensures forall i :: 0 <= i < |roots| ==> roots[i] in slots && CanEvac(true, c, slots[roots[i]])
      ensures forall i :: 0 <= i < |boxed| ==> CanEvac(true, c, boxed[i])
      ensures FieldsKnown(true, c)
    {
      hide Reached, MayMove;
      forall i | 0 <= i < |roots| ensures CanEvac(true, c, slots[roots[i]]) { RootReached(h, c, slots[roots[i]]); }
      forall i | 0 <= i < |boxed| ensures CanEvac(true, c, boxed[i]) { RootReached(h, c, boxed[i]); }
      forall a, i | a in c.tiles && a in c.mem0 && 0 <= i < |c.mem0[a].fields| ensures Known(true, c, c.mem0[a].fields[i]) {
        assert Live(h, a);
        assert RefLive(h, c.mem0[a].fields[i]);
      }
    }

    method ClearRemembered()
      requires Valid()
      modifies `mem, `remembered
      ensures Cleared(old(View()), View())
    {
      hide Tiled, MeansOk, ClosedOk;
      ghost var h := View();
      for i := 0 to |remembered|
        invariant remembered == h.remembered && mem.Keys == h.mem.Keys
        invariant forall a :: a in h.mem ==> mem[a] == if a in remembered[..i] then h.mem[a].(remembered := false) else h.mem[a]
      {
        var a := remembered[i];
        assert a in h.remembered && a in h.old_;
        mem := mem[a := mem[a].(remembered := false)];
      }
      assert h.remembered[..|h.remembered|] == h.remembered;
      ClearedAll(h, mem);
      remembered := [];
    }

    /** Roots, handles, then the scan. */
    method EvacuateAll(base: nat, ghost size: nat, ghost h: Heap) returns (alloc: nat, ghost d: Copy)
      requires h == View() && RegionsOk(h) && ClosedOk(h) && MeansOk(h) && Unmarked(h)
      requires FreshRegion(h, base, size) && Used(h) <= size
      modifies `mem, `slots, `boxed
      ensures Collected(h, d, mem, slots, boxed) && CopyOk(d)
      ensures d.tiles == h.young + h.old_ && d.starts == RootAddresses(h) && d.base == base && alloc == End(d)
      ensures alloc - base <= Used(h)
    {
      hide Reached, CopyOk, Scanned, Sources, Kept, Tiled, MeansOk, ClosedOk, RefMoved, SlotsMoved, FieldsMoved, CanEvac, FieldsKnown, Copying;
      ghost var c := MajorCopy(h, base);
      GcCollected.MajorStarts(h, base, size);
      Occupancy(h);
      MajorKnown(h, c);
      RootsDistinct(h);
      alloc, d := EvacRoots(true, base, c);
      ghost var c1 := d;
      forall i | 0 <= i < |boxed| ensures CanEvac(true, d, boxed[i]) { CanEvacMore(true, c, d, boxed[i]); }
      alloc, d := BoxedArrayGcRoots(true, alloc, d);
      ghost var c2 := d;
      ContinuesTrans(c, c1, c2);
      FieldsKnownMore(true, c, d);
      alloc, d := Scan(true, base, alloc, d);
      FrontierFits(d, mem, alloc);
      MajorFinished(h, c1, c2, d, mem, slots, boxed);
    }

    /** Evacuate every live object into the region at `base`; the frontier never passes its end. */
    method MajorCollectInto(base: nat, size: nat) returns (alloc: nat, ghost h: Heap, ghost d: Copy)
      requires Valid() && FreshRegion(View(), base, size) && Used(View()) <= size
      modifies `mem, `slots, `boxed, `remembered
      ensures RegionsOk(h) && StoreOf(h) == old(StoreOf(View())) && Collected(h, d, mem, slots, boxed) && CopyOk(d)
      ensures Cleared(old(View()), h) && remembered == [] && View() == h.(mem := mem, slots := slots, boxed := boxed)
      ensures d.tiles == h.young + h.old_ && d.starts == RootAddresses(h) && d.base == base && alloc == End(d)
      ensures alloc - base <= Used(h)
    {
      hide CopyOk, MeansOk, ClosedOk, RegionsOk, HeapOk, StoreOf, Collected, End;
      ghost var h0 := View();
      ClearRemembered();
      h := View();
      ClearedOk(h0, h);
      alloc, d := EvacuateAll(base, size, h);
    }

    /** The host's allocator: a region that overlaps nothing in use, or nothing. */
    method Malloc(size: nat) returns (base: Option<nat>)
      modifies `refusals
      ensures base.Some? ==> FreshRegion(View(), base.value, size) && refusals == old(refusals)
      ensures base.None? ==> refusals == old(refusals) + 1
    {
      if * {
        assert Apart(nursery + nurserySize + oldFrom + oldSpace, size, nursery, nursery + nurserySize, oldFrom, oldFrom + oldSpace);
        var b: nat :| Apart(b, size, nursery, nursery + nurserySize, oldFrom, oldFrom + oldSpace);
        ApartRegion(View(), b, size);
        base := Some(b);
      } else {
        refusals := refusals + 1;
        base := None;
      }
    }

    function Clamp(size: nat): nat {
      if size < nurserySize then nurserySize else size
    }

    /** Relocate the live set into a region of the given size, at least a nursery, and adopt it. */
    method RelocateInto(newSize: nat) returns (ok: bool)
      requires Valid() && Used(View()) <= Clamp(newSize)
      modifies this
      ensures Valid()
      ensures ok ==> Relocated(old(View()), View(), Clamp(newSize)) && !missed && refusals == old(refusals)
      ensures ok ==> stored == {} && !filledOld
      ensures !ok ==> refusals > old(refusals) && View() == old(View()) && missed == old(missed)
      ensures !ok ==> stored == old(stored) && filledOld == old(filledOld)
    {
      hide Reached, CopyOk, HeapOk, RegionsOk, Collected, StoreOf, AllReached, Accounted;
      var size := if newSize < nurserySize then nurserySize else newSize;
      var region := Malloc(size);
      if region.None? {
        return false;
      }
      ghost var before := View();
      ghost var h, d;
      var alloc: nat;
      alloc, h, d := MajorCollectInto(region.value, size);
      RelocationDone(before, h, d, mem, slots, boxed, size, AfterMajor(h, d, mem, region.value + size, slots, boxed));
      Adopt(region.value, size, alloc, h, d);
      NothingYoung(View());
      ok := true;
    }

    /** Install the new region and free the nursery. */
    method Adopt(base: nat, size: nat, alloc: nat, ghost h: Heap, ghost d: Copy)
      requires CopyOk(d) && View() == h.(mem := mem, slots := slots, boxed := boxed) && remembered == []
      requires d.base == base && alloc == End(d)
      modifies `old_, `young, `ids, `oldFrom, `oldSpace, `oldBump, `nurseryBump, `missed, `stored, `filledOld
      ensures View() == AfterMajor(h, d, mem, base + size, slots, boxed) && !missed && stored == {} && !filledOld && Accounted()
    {
      hide CopyOk, Targets, MovedIds, End, HeapOk;
      ghost var targets, moved := Targets(d), MovedIds(d, h.ids);
      oldFrom, oldSpace, oldBump := base, size, alloc;
      nurseryBump, missed := nursery, false;
      old_, young, ids, stored, filledOld := targets, [], moved, {}, false;
    }

    function Margin(): nat {
      marginNurseries * nurserySize
    }

    /** The live set, the request, and half as much again, or the margin if that is more. */
    function CompactTarget(live: nat, request: nat): nat {
      live + request + (if live / 2 > Margin() then live / 2 else Margin())
    }

    /** Relocate into a region sized to the occupancy, then shrink it if that left too much room. */
    method CompactCollect(request: nat) returns (ok: bool)
      requires Valid()
      modifies this
      ensures Valid() && StoreOf(View()) == old(StoreOf(View())) && roots == old(roots)
      ensures ok ==> nurseryBump == nursery && young == [] && remembered == [] && !missed && AllReached(View())
      ensures ok ==> oldBump + request + marginNurseries * nurserySize <= oldFrom + oldSpace
      ensures ok && refusals == old(refusals) ==>
        var live, margin := oldBump - oldFrom, marginNurseries * nurserySize;
        oldSpace <= shrinkBand * (live + request + if live / 2 > margin then live / 2 else margin)
      ensures ok ==> stored == {} && !filledOld
      ensures !ok ==> refusals > old(refusals) && View() == old(View()) && missed == old(missed)
      ensures !ok ==> stored == old(stored) && filledOld == old(filledOld)
      ensures refusals >= old(refusals)
    {
      hide HeapOk, StoreOf, AllReached, Covered;
      UsedSize(View());
      var liveUpper := (oldBump - oldFrom) + (nurseryBump - nursery);
      var margin := marginNurseries * nurserySize;
      ok := RelocateInto(liveUpper + request + margin);
      if !ok {
        return;
      }
      ghost var first := View();
      UsedSize(first);
      var realLive := oldBump - oldFrom;
      var target := CompactTarget(realLive, request);
      Room(nurserySize, marginNurseries, shrinkBand, target);
      if oldSpace > target * shrinkBand {
        var shrunk := RelocateInto(target);
      }
      Spelled(oldSpace, shrinkBand, realLive, request, margin, target);
    }

    /** Does the old generation have a margin of room? */
    predicate RoomToPromote()
      reads `oldFrom, `oldSpace, `oldBump
    {
      oldFrom + oldSpace - oldBump >= Margin()
    }

    /** Minor when the old generation has a margin of room, a compacting major otherwise. Only a minor
        collection needs the remembered set to cover the heap. */
    method Collect() returns (ok: bool)
      requires Valid() && (missed ==> !RoomToPromote())
      modifies this
      ensures Valid() && StoreOf(View()) == old(StoreOf(View())) && roots == old(roots)
      ensures ok ==> nurseryBump == nursery && young == [] && remembered == [] && !missed
      ensures old(oldFrom + oldSpace - oldBump) >= marginNurseries * nurserySize ==>
        ok && oldFrom == old(oldFrom) && oldSpace == old(oldSpace)
      ensures ok && old(oldFrom + oldSpace - oldBump) < marginNurseries * nurserySize ==>
        AllReached(View()) && oldFrom + oldSpace - oldBump >= marginNurseries * nurserySize
      ensures if ok then stored == {} && !filledOld else stored == old(stored) && filledOld == old(filledOld)
      ensures refusals >= old(refusals) && (!ok ==> refusals > old(refusals))
    {
      hide HeapOk, StoreOf, AllReached, Covered;
      UsedSize(View());
      Room(nurserySize, marginNurseries, shrinkBand, 0);
      var margin := marginNurseries * nurserySize;
      var oldFree := (oldFrom + oldSpace) - oldBump;
      if oldFree < margin {
        ok := CompactCollect(0);
      } else {
        MinorCollect();
        ok := true;
      }
    }

    // ---- allocation ----

    /** Initialize the object just bumped, in the nursery. */
    method InitYoung(a: nat, tag: nat, nfields: nat, aux: int)
      requires Valid() && a == nurseryBump && a + Size(NewObj(tag, aux, nfields)) <= nursery + nurserySize && tag != FWD
      modifies `mem, `nurseryBump, `young, `ids, `objs
      ensures Valid() && GrowsYoung(old(View()), View(), a, tag, aux, nfields)
      ensures nurseryBump == a + 16 + 8 * nfields
    {
      hide HeapOk, Covered, Accounted;
      ghost var h := View();
      mem := mem[a := NewObj(tag, aux, nfields)];
      nurseryBump := a + HEADER + WORD * nfields;
      young, ids, objs := young + [a], ids[a := |objs|], objs + [LObj(tag, aux, Nulls(nfields))];
      GrowsOk(h, View(), a, tag, aux, nfields);
    }

    method InitOld(a: nat, tag: nat, nfields: nat, aux: int)
      requires Valid() && a == oldBump && a + Size(NewObj(tag, aux, nfields)) <= oldFrom + oldSpace && tag != FWD
      modifies `mem, `oldBump, `old_, `ids, `objs
      ensures Valid() && GrowsOld(old(View()), View(), a, tag, aux, nfields)
    {
      hide HeapOk, Covered, Accounted;
      ghost var h := View();
      mem := mem[a := NewObj(tag, aux, nfields)];
      oldBump := a + HEADER + WORD * nfields;
      old_, ids, objs := old_ + [a], ids[a := |objs|], objs + [LObj(tag, aux, Nulls(nfields))];
      GrowsOk(h, View(), a, tag, aux, nfields);
    }

    /** The nursery has no room: an oversized object goes to the old generation, any other waits for a
        collection. No path fails unless the host refuses memory. */
    method AllocSlow(tag: nat, nfields: nat, aux: int, bytes: nat) returns (r: Ref, ok: bool)
      requires Valid() && tag != FWD && bytes == HEADER + WORD * nfields
      requires missed ==> !(bytes <= nurserySize && RoomToPromote())
      modifies this
      ensures refusals >= old(refusals) && (!ok ==> refusals > old(refusals))
      ensures NothingStored()
      ensures ok ==> Valid() && NewlyAllocated(old(View()), View(), r, tag, aux, nfields, bytes <= nurserySize)
    {
      hide HeapOk, StoreOf, Covered, AllReached, GrowsYoung, GrowsOld, WithObject;
      ghost var h := View();
      r, ok := Null, true;
      if bytes > nurserySize {
        if oldBump + bytes > oldFrom + oldSpace {
          ok := CompactCollect(bytes);
          if !ok { return; }
          // The check after the collection never fails.
          assert oldBump + bytes <= oldFrom + oldSpace;
        }
        r := Ptr(oldBump);
        ghost var g := View();
        InitOld(oldBump, tag, nfields, aux);
        AllocatedBy(h, g, View(), r.a, tag, aux, nfields);
      } else {
        ok := Collect();
        if !ok { return; }
        // An empty nursery holds any object that is not oversized.
        assert nurseryBump + bytes <= nursery + nurserySize;
        r := Ptr(nurseryBump);
        ghost var g := View();
        InitYoung(nurseryBump, tag, nfields, aux);
        AllocatedBy(h, g, View(), r.a, tag, aux, nfields);
        GrowsIsYoung(g, View(), r.a, tag, aux, nfields);
      }
    }

    /** Would allocating run a minor collection? */
    predicate MinorNext(bytes: nat)
      reads `nurseryBump, `oldFrom, `oldSpace, `oldBump
    {
      nurseryBump + bytes > nursery + nurserySize && bytes <= nurserySize && RoomToPromote()
    }

    /** Allocate an object with null fields; fails only when the host refuses memory. */
    method Alloc(tag: nat, nfields: nat, aux: int) returns (r: Ref, ok: bool)
      requires Valid() && tag != FWD && (missed ==> !MinorNext(HEADER + WORD * nfields))
      modifies this
      ensures refusals >= old(refusals) && (!ok ==> refusals > old(refusals))
      ensures old(nurseryBump) + 16 + 8 * nfields <= nursery + nurserySize ==>
        ok && r == Ptr(old(nurseryBump)) && GrowsYoung(old(View()), View(), r.a, tag, aux, nfields)
        && nurseryBump == old(nurseryBump) + 16 + 8 * nfields
        && missed == old(missed) && refusals == old(refusals)
      ensures NothingStored()
      ensures ok ==> Valid() && NewlyAllocated(old(View()), View(), r, tag, aux, nfields, 16 + 8 * nfields <= nurserySize)
    {
      hide HeapOk, StoreOf, Covered, GrowsYoung, GrowsOld, WithObject;
      ghost var h := View();
      var bytes := HEADER + WORD * nfields;
      var next := nurseryBump + bytes;
      if next > nursery + nurserySize {
        r, ok := AllocSlow(tag, nfields, aux, bytes);
      } else {
        r, ok := Ptr(nurseryBump), true;
        InitYoung(nurseryBump, tag, nfields, aux);
        AllocatedBy(h, h, View(), r.a, tag, aux, nfields);
        GrowsIsYoung(h, View(), r.a, tag, aux, nfields);
      }
    }

    /** A safepoint: with less than a page left in the nursery, collect. */
    method Poll() returns (ok: bool)
      requires Valid() && (missed ==> !(nurseryBump + 4096 > nursery + nurserySize && RoomToPromote()))
      modifies this
      ensures refusals >= old(refusals) && (!ok ==> refusals > old(refusals))
      ensures ok && old(nurseryBump) + 4096 > nursery + nurserySize ==> nurseryBump == nursery && young == [] && !missed
      ensures old(nurseryBump) + 4096 <= nursery + nurserySize ==>
        ok && View() == old(View()) && missed == old(missed) && refusals == old(refusals)
      ensures NothingStored()
      ensures Valid() && StoreOf(View()) == old(StoreOf(View())) && roots == old(roots)
    {
      hide HeapOk, StoreOf;
      ok := true;
      if nurseryBump + 4096 > nursery + nurserySize {
        ok := Collect();
      }
    }

    // ---- the mutator's accesses ----

    /** Record an old object that now points into the nursery, if the set has room. */
    method WriteBarrier(obj: Ref, val: Ref)
      requires obj.Ptr? ==> obj.a in mem
      modifies `mem, `remembered, `missed, `stored
      ensures stored == (if obj.Ptr? then old(stored) + {obj.a} else old(stored)) && (old(Accounted()) ==> Accounted())
      ensures var due := obj.Ptr? && val.Ptr? && InNursery(val.a) && !InNursery(obj.a) && !old(mem)[obj.a].remembered;
        if due && |old(remembered)| < 65536
        then mem == old(mem)[obj.a := old(mem)[obj.a].(remembered := true)] && remembered == old(remembered) + [obj.a]
             && missed == old(missed)
        else mem == old(mem) && remembered == old(remembered) && missed == (old(missed) || due)
      ensures |old(remembered)| < 65536 ==> missed == old(missed)
    {
      stored := if obj.Ptr? then stored + {obj.a} else stored;
      if !obj.Ptr? || !val.Ptr? { return; }
      if !InNursery(val.a) { return; }
      if InNursery(obj.a) { return; }
      if mem[obj.a].remembered { return; }
      if |remembered| >= MAX_REMEMBERED {
        missed := true;
        return;
      }
      mem := mem[obj.a := mem[obj.a].(remembered := true)];
      remembered := remembered + [obj.a];
    }

    /** A store after initialization, with the barrier: recorded unless there is something to record and no
        room. */
    method StoreField(obj: Ref, f: nat, val: Ref)
      requires Valid() && obj.Ptr? && Live(View(), obj.a) && RefLive(View(), val) && obj.a in mem && f < |mem[obj.a].fields|
      modifies `mem, `remembered, `missed, `stored, `objs
      ensures Valid() && obj.a in old(mem) && stored == old(stored) + {obj.a}
      ensures if Records(old(View()), obj.a, val) && |old(remembered)| >= 65536
              then StoresSilently(old(View()), View(), obj.a, f, val) && missed
              else Stores(old(View()), View(), obj.a, f, val) && missed == old(missed)
      ensures |old(remembered)| < 65536 ==> missed == old(missed)
    {
      hide HeapOk, Covered, Accounted, Stores, StoresSilently, Live, RefLive;
      ghost var h := View();
      LiveIn(h, obj.a);
      BarrierRecords(h, obj.a, val);
      ghost var id := ids[obj.a];
      ghost var l := objs[id].(fields := objs[id].fields[f := Meaning(ids, val)]);
      mem := mem[obj.a := mem[obj.a].(fields := mem[obj.a].fields[f := val])];
      WriteBarrier(obj, val);
      objs := objs[id := l];
      StoreMade(h, View(), obj.a, f, val, Records(h, obj.a, val) && |h.remembered| < MAX_REMEMBERED);
    }

    /** An initializing store has no barrier; it misses something only when the new object was born old. */
    method InitField(obj: Ref, f: nat, val: Ref)
      requires Valid() && obj.Ptr? && Live(View(), obj.a) && RefLive(View(), val) && obj.a in mem && f < |mem[obj.a].fields|
      modifies `mem, `missed, `filledOld, `objs
      ensures Valid() && StoresSilently(old(View()), View(), obj.a, f, val)
      ensures obj.a in old(mem) && missed == (old(missed) || Records(old(View()), obj.a, val))
      ensures filledOld == (old(filledOld) || Records(old(View()), obj.a, val))
    {
      hide HeapOk, Covered;
      ghost var h := View();
      LiveIn(h, obj.a);
      BarrierRecords(h, obj.a, val);
      if val.Ptr? && InNursery(val.a) && !InNursery(obj.a) && !mem[obj.a].remembered {
        missed, filledOld := true, true;
      }
      mem := mem[obj.a := mem[obj.a].(fields := mem[obj.a].fields[f := val])];
      ghost var id := ids[obj.a];
      objs := objs[id := objs[id].(fields := objs[id].fields[f := Meaning(ids, val)])];
      SilentStoreOk(h, View(), obj.a, f, val);
    }

    method LoadField(obj: Ref, f: nat) returns (v: Ref)
      requires Valid() && obj.Ptr? && Live(View(), obj.a) && obj.a in mem && f < |mem[obj.a].fields|
      ensures RefLive(View(), v) && obj.a in ids && ids[obj.a] < |objs| && f < |objs[ids[obj.a]].fields|
      ensures Meaning(ids, v) == objs[ids[obj.a]].fields[f]
    {
      hide HeapOk;
      FieldRead(View(), obj.a, f);
      v := mem[obj.a].fields[f];
    }

    /** Pin a slot holding `v`. Slots on the shadow stack are pairwise distinct: `TwicePinned` says why. */
    method PushRoot(slot: nat, v: Ref)
      requires Valid() && slot !in roots && RefLive(View(), v)
      modifies `roots, `slots
      ensures Valid() && View() == old(View()).(roots := old(roots) + [slot], slots := old(slots)[slot := v])
    {
      hide RegionsOk, RememberedOk, MeansOk, RefsLive;
      ghost var h := View();
      slots := slots[slot := v];
      roots := roots + [slot];
      HeapParts(h);
      RootsOk(h, View());
    }

    method PopRoots(n: nat)
      requires Valid()
      modifies `roots
      ensures Valid() && View() == old(View()).(roots := old(roots)[..if n > |old(roots)| then 0 else |old(roots)| - n])
    {
      hide RegionsOk, RememberedOk, MeansOk, RefsLive;
      ghost var h := View();
      var k := if n > |roots| then |roots| else n;
      roots := roots[..|roots| - k];
      HeapParts(h);
      RootsOk(h, View());
    }

    /** Write a pinned slot. */
    method SetSlot(slot: nat, v: Ref)
      requires Valid() && slot in roots && RefLive(View(), v)
      modifies `slots
      ensures Valid() && View() == old(View()).(slots := old(slots)[slot := v])
    {
      hide RegionsOk, RememberedOk, MeansOk, RefsLive;
      ghost var h := View();
      slots := slots[slot := v];
      HeapParts(h);
      RootsOk(h, View());
    }

    // ---- boxed arrays ----

    /** Allocate a backing tuple with `init` pinned, so that it survives a collection. */
    method AllocPinned(len: nat, init: Ref) returns (obj: Ref, moved: Ref, ok: bool)
      requires Valid() && RefLive(View(), init) && (missed ==> !MinorNext(HEADER + WORD * len))
      modifies this
      ensures refusals >= old(refusals) && (!ok ==> refusals > old(refusals))
      ensures NothingStored()
      ensures ok ==> Valid() && NewlyAllocated(old(View()), View(), obj, TUPLE, 0, len, HEADER + WORD * len <= nurserySize)
      ensures ok ==> RefLive(View(), moved) && Meaning(ids, moved) == Meaning(old(ids), init)
    {
      hide HeapOk, StoreOf, Restricted;
      ghost var h0 := View();
      ghost var s0, v := StoreOf(h0), Meaning(ids, init);
      moved := Null;
      var tmp := FreshSlot(roots);
      PushRoot(tmp, init);
      PushStore(h0, View(), tmp, init);
      ghost var h1 := View();
      obj, ok := Alloc(TUPLE, len, 0);
      if !ok { return; }
      ghost var h2 := View();
      SlotRead(h2, tmp);
      moved := slots[tmp];
      PopRoots(1);
      assert roots == h0.roots;
      PopStore(h2, View(), |h0.roots|);
      AllocatedRestricted(s0, h0.roots, tmp, v, TUPLE, 0, len);
      SlotsRooted(h0);
      BoundRestricted(s0, h0.roots, tmp, v);
    }

    /** A new array of `len` copies of `init`; the handle is its position in the table. */
    method BoxedArrayNew(len: nat, init: Ref) returns (handle: nat, ok: bool)
      requires Valid() && RefLive(View(), init) && (missed ==> !MinorNext(HEADER + WORD * len))
      modifies this
      ensures refusals >= old(refusals) && (!ok ==> refusals > old(refusals))
      ensures stored == {} || stored == old(stored)
      ensures filledOld && !old(filledOld) ==> HEADER + WORD * len > nurserySize
      ensures ok ==> Valid() && roots == old(roots) && handle == |old(boxed)|
      ensures ok ==> StoreOf(View()) == WithArray(old(StoreOf(View())), len, Meaning(old(ids), init))
    {
      hide HeapOk, StoreOf, Filled, WithArray, Allocated, Stores;
      ghost var h0 := View();
      ghost var s0, v := StoreOf(h0), Meaning(ids, init);
      handle := 0;
      var obj, moved: Ref;
      obj, moved, ok := AllocPinned(len, init);
      if !ok { return; }
      AllocatedSlots(s0, TUPLE, 0, len);
      StoreObjs(h0);
      FillArray(obj, len, moved, Allocated(s0, TUPLE, 0, len));
      ghost var h4 := View();
      SameTable(h0);
      SameTable(h4);
      FilledTable(Allocated(s0, TUPLE, 0, len), |s0.objs|, len, v);
      handle := |boxed|;
      boxed := boxed + [obj];
      HeapParts(h4);
      RootsOk(h4, View());
      BoxStore(h4, View(), obj);
      FilledArray(s0, len, v);
    }

    /** Initializing stores into every field of a fresh object. */
    method FillArray(obj: Ref, len: nat, v: Ref, ghost s: Store)
      requires Valid() && obj.Ptr? && Live(View(), obj.a) && obj.a in ids && RefLive(View(), v)
      requires StoreOf(View()) == s && ids[obj.a] < |s.objs| && |s.objs[ids[obj.a]].fields| == len
      modifies `mem, `missed, `filledOld, `objs
      ensures Valid() && StoreOf(View()) == Filled(s, ids[obj.a], len, Meaning(ids, v))
      ensures View() == old(View()).(mem := mem, objs := objs)
      ensures obj.a in young ==> filledOld == old(filledOld)
    {
      hide HeapOk, StoreOf, Filled, Stored, StoresSilently, Covered;
      ghost var id, m := ids[obj.a], Meaning(ids, v);
      FilledNone(s, id, m);
      for i := 0 to len
        invariant Valid() && StoreOf(View()) == Filled(s, id, i, m) && View() == old(View()).(mem := mem, objs := objs)
        invariant obj.a in young ==> filledOld == old(filledOld)
      {
        ghost var h := View();
        LiveIn(h, obj.a);
        FilledSize(s, id, i, m);
        StoreObjs(h);
        BarrierRecords(h, obj.a, v);
        InitField(obj, i, v);
        SilentStoreOk(h, View(), obj.a, i, v);
        FilledMore(s, id, i, m);
      }
    }

    predicate BoxedArrayValid(h: int)
      reads this
    {
      0 <= h < |boxed| && boxed[h] != Null
    }

    method BoxedArrayLength(h: int) returns (n: nat)
      requires Valid()
      requires BoxedArrayValid(h) ==> boxed[h].Ptr?
      ensures BoxedArrayValid(h) ==> boxed[h].a in ids && ids[boxed[h].a] < |objs| && n == |objs[ids[boxed[h].a]].fields|
      ensures !BoxedArrayValid(h) ==> n == 0
    {
      hide HeapOk;
      if BoxedArrayValid(h) {
        BoxedRead(View(), h);
        LiveIn(View(), boxed[h].a);
        n := |mem[boxed[h].a].fields|;
      } else {
        n := 0;
      }
    }

    /** Read an element; out of range, a fresh constructor without fields. */
    method BoxedArrayGet(h: int, i: nat) returns (r: Ref, ok: bool)
      requires Valid() && (BoxedArrayValid(h) ==> boxed[h].Ptr?)
      requires missed ==> InBounds(View(), h, i) || !MinorNext(HEADER)
      modifies this
      ensures refusals >= old(refusals) && (!ok ==> refusals > old(refusals))
      ensures NothingStored()
      ensures ok ==> Valid() && RefLive(View(), r) && roots == old(roots)
      ensures ok && old(InBounds(View(), h, i)) ==> View() == old(View())
      ensures ok && old(InBounds(View(), h, i)) ==> Meaning(ids, r) == objs[ids[boxed[h].a]].fields[i]
      ensures ok && !old(InBounds(View(), h, i)) ==>
        StoreOf(View()) == Allocated(old(StoreOf(View())), 0, 0, 0) && Meaning(ids, r) == LPtr(|old(objs)|)
    {
      hide HeapOk, StoreOf;
      if BoxedArrayValid(h) {
        BoxedRead(View(), h);
        LiveIn(View(), boxed[h].a);
        if i < |mem[boxed[h].a].fields| {
          r := LoadField(boxed[h], i);
          return r, true;
        }
      }
      r, ok := Alloc(CON, 0, 0);
    }

    /** Write an element, with the barrier; out of range, nothing. */
    method BoxedArraySet(h: int, i: nat, v: Ref)
      requires Valid() && RefLive(View(), v) && (BoxedArrayValid(h) ==> boxed[h].Ptr?)
      modifies `mem, `remembered, `missed, `stored, `objs
      ensures Valid()
      ensures old(InBounds(View(), h, i)) ==> StoreOf(View()) == Stored(old(StoreOf(View())), ids[boxed[h].a], i, Meaning(ids, v))
      ensures !old(InBounds(View(), h, i)) ==> View() == old(View())
      ensures |old(remembered)| < 65536 ==> missed == old(missed)
      ensures stored == old(stored) || (0 <= h < |boxed| && boxed[h].Ptr? && stored == old(stored) + {boxed[h].a})
    {
      hide HeapOk, StoreOf, Stored, Stores, StoresSilently, Covered;
      if BoxedArrayValid(h) {
        ghost var g := View();
        BoxedRead(g, h);
        LiveIn(g, boxed[h].a);
        if i < |mem[boxed[h].a].fields| {
          StoreField(boxed[h], i, v);
          StoredBy(g, View(), boxed[h].a, i, v);
        }
      }
    }
  }

  /** `g` stands for the store of `h` with a new object, which `r` names. */
  ghost predicate NewlyAllocated(h: Heap, g: Heap, r: Ref, tag: nat, aux: int, nfields: nat, young: bool) {
    && StoreOf(g) == Allocated(StoreOf(h), tag, aux, nfields) && g.roots == h.roots
    && r.Ptr? && Live(g, r.a) && r.a in g.ids && g.ids[r.a] == |h.objs| && (young ==> r.a in g.young)
  }

  lemma AllocatedBy(h: Heap, g: Heap, k: Heap, a: nat, tag: nat, aux: int, nfields: nat)
    requires HeapOk(g) && StoreOf(g) == StoreOf(h) && g.roots == h.roots && Grows(g, k, a, tag, aux, nfields) && tag != FWD
    ensures NewlyAllocated(h, k, Ptr(a), tag, aux, nfields, false)
  {
    hide HeapOk;
    GrowsOk(g, k, a, tag, aux, nfields);
  }

  lemma GrowsIsYoung(g: Heap, k: Heap, a: nat, tag: nat, aux: int, nfields: nat)
    requires GrowsYoung(g, k, a, tag, aux, nfields)
    ensures a in k.young
  {}

  /** The barrier's address tests tell young from old. */
  lemma BarrierRecords(h: Heap, a: nat, v: Ref)
    requires HeapOk(h) && Live(h, a) && a in h.mem && RefLive(h, v)
    ensures Records(h, a, v) <==> v.Ptr? && h.nursery <= v.a < h.nurseryLimit && !(h.nursery <= a < h.nurseryLimit)
                                  && !h.mem[a].remembered
    ensures a in h.young ==> !Records(h, a, v)
  {
    hide Tiled, ClosedOk, RememberedOk, MeansOk;
    YoungOldDisjoint(h);
  }

  /** A store of `v`, recorded or not, keeps the heap well-formed. */
  lemma StoreMade(h: Heap, g: Heap, a: nat, f: nat, v: Ref, recorded: bool)
    requires HeapOk(h) && Live(h, a) && RefLive(h, v) && a in h.mem && f < |h.mem[a].fields| && (recorded ==> Records(h, a, v))
    requires a in h.ids && h.ids[a] < |h.objs| && f < |h.objs[h.ids[a]].fields|
    requires var l := h.objs[h.ids[a]];
      g == h.(mem := h.mem[a := h.mem[a].(fields := h.mem[a].fields[f := v], remembered := recorded || h.mem[a].remembered)],
              remembered := if recorded then h.remembered + [a] else h.remembered,
              objs := h.objs[h.ids[a] := l.(fields := l.fields[f := Meaning(h.ids, v)])])
    ensures HeapOk(g) && if Records(h, a, v) && !recorded then StoresSilently(h, g, a, f, v)
                         else Stores(h, g, a, f, v) && (Covered(h) ==> Covered(g))
  {
    hide HeapOk, Covered, Live, RefLive, StoreOf;
    if Records(h, a, v) && !recorded {
      SilentStoreOk(h, g, a, f, v);
    } else {
      StoresOk(h, g, a, f, v);
    }
  }

  /** Is element `i` of array `h` in range? */
  predicate InBounds(g: Heap, h: int, i: nat) {
    0 <= h < |g.boxed| && g.boxed[h].Ptr? && g.boxed[h].a in g.ids && g.ids[g.boxed[h].a] < |g.objs|
    && i < |g.objs[g.ids[g.boxed[h].a]].fields|
  }

  lemma FilledTable(s: Store, id: nat, k: nat, v: LRef)
    requires id < |s.objs|
    ensures Filled(s, id, k, v).boxed == s.boxed
  {}

  lemma SameTable(h: Heap)
    ensures |StoreOf(h).boxed| == |h.boxed|
  {}

  lemma StoreObjs(h: Heap)
    ensures StoreOf(h).objs == h.objs
  {}

  lemma FilledSize(s: Store, id: nat, k: nat, v: LRef)
    requires id < |s.objs|
    ensures |Filled(s, id, k, v).objs| == |s.objs| && |Filled(s, id, k, v).objs[id].fields| == |s.objs[id].fields|
  {}

  /** A store, recorded or not, is the store of the heap that never collects. */
  lemma StoredBy(h: Heap, g: Heap, a: nat, f: nat, v: Ref)
    requires HeapOk(h) && Live(h, a) && RefLive(h, v) && (Stores(h, g, a, f, v) || StoresSilently(h, g, a, f, v))
    ensures a in h.ids && h.ids[a] < |h.objs| && f < |h.objs[h.ids[a]].fields| && g.ids == h.ids && g.boxed == h.boxed
    ensures StoreOf(g) == Stored(StoreOf(h), h.ids[a], f, Meaning(h.ids, v)) && g.roots == h.roots
  {
    hide HeapOk, StoreOf;
    if Stores(h, g, a, f, v) { StoresOk(h, g, a, f, v); } else { SilentStoreOk(h, g, a, f, v); }
  }

  lemma AllocatedSlots(s: Store, tag: nat, aux: int, n: nat)
    ensures Allocated(s, tag, aux, n).slots == s.slots && Allocated(s, tag, aux, n).boxed == s.boxed
    ensures |Allocated(s, tag, aux, n).objs| == |s.objs| + 1 && |Allocated(s, tag, aux, n).objs[|s.objs|].fields| == n
  {}

  lemma AllocatedRestricted(s: Store, roots: seq<nat>, slot: nat, v: LRef, tag: nat, aux: int, n: nat)
    ensures Restricted(Allocated(Bound(s, slot, v), tag, aux, n), roots) == Allocated(Restricted(Bound(s, slot, v), roots), tag, aux, n)
  {}

  lemma HeapParts(h: Heap)
    requires HeapOk(h)
    ensures Distinct(h.roots) && RefsLive(h, h.boxed)
    ensures forall i :: 0 <= i < |h.roots| ==> h.roots[i] in h.slots && RefLive(h, h.slots[h.roots[i]])
  {}

  function AtLeast(n: nat, floor: nat): nat {
    if n < floor then floor else n
  }

  predicate Apart(base: nat, size: nat, lo1: nat, hi1: nat, lo2: nat, hi2: nat) {
    (base + size <= lo1 || hi1 <= base) && (base + size <= lo2 || hi2 <= base)
  }

  lemma ApartRegion(h: Heap, base: nat, size: nat)
    requires Apart(base, size, h.nursery, h.nurseryLimit, h.oldFrom, h.oldLimit)
    ensures FreshRegion(h, base, size)
  {}

  lemma Room(nurserySize: nat, marginNurseries: nat, shrinkBand: nat, target: nat)
    requires marginNurseries >= 1 && shrinkBand >= 2
    ensures nurserySize <= marginNurseries * nurserySize && target <= target * shrinkBand
  {}

  lemma Spelled(space: nat, band: nat, live: nat, request: nat, margin: nat, target: nat)
    requires target == live + request + if live / 2 > margin then live / 2 else margin
    ensures space <= target * band ==> space <= band * (live + request + if live / 2 > margin then live / 2 else margin)
  {}

  lemma KeptSame(c: Copy, mem: Mem)
    ensures Advanced(c, c, mem, mem)
  {}

  lemma OldUntouched(h: Heap, c: Copy, d: Copy, before: Mem, mem: Mem)
    requires Advanced(c, d, before, mem) && forall a :: a in h.old_ ==> a !in c.tiles && a < c.base && a in before
    ensures forall a :: a in h.old_ ==> a in mem && mem[a] == before[a]
  {}

  /** Every old object that is not remembered is as it was. */
  ghost predicate Skipped(h: Heap, mem: Mem) {
    forall a :: a in h.old_ && a !in h.remembered && a in h.mem ==> a in mem && mem[a] == h.mem[a]
  }

  /** Survivors are promoted to addresses outside the nursery. */
  lemma TargetsOutside(h: Heap, d: Copy)
    requires RegionsOk(h) && CopyOk(d) && d.base == h.oldBump && End(d) <= h.oldLimit
    ensures forall b :: b in Targets(d) ==> !(h.nursery <= b < h.nurseryLimit)
  {
    hide CopyOk, Tiled;
    forall b | b in Targets(d) ensures h.oldBump <= b < h.oldLimit {
      TargetsAre(d, b);
      RhoInside(d, SourceOf(d, b));
    }
  }

  lemma NothingYoung(h: Heap)
    requires h.young == []
    ensures Covered(h)
  {}

  lemma FrontierFits(d: Copy, mem: Mem, alloc: nat)
    requires Copying(d, mem, alloc, |d.order|, 0)
    ensures alloc == End(d) && CopyOk(d) && End(d) <= d.base + Bytes(d.mem0, d.tiles)
  {
    hide CopyOk;
    OrderIn(d);
  }

  lemma NurseryBytes(h: Heap)
    requires RegionsOk(h)
    ensures Bytes(h.mem, h.young) == h.nurseryBump - h.nursery
  {
    hide Tiled;
    TiledFacts(h.mem, h.young, h.nursery, h.nurseryBump);
  }

  lemma RootsDistinct(h: Heap)
    requires ClosedOk(h)
    ensures Distinct(h.roots)
  {}

  lemma ScanCopying(c: Copy, mem: Mem, alloc: nat, k: nat, n: nat)
    requires Copying(c, mem, alloc, k, n)
    ensures CopyOk(c) && alloc == End(c)
  {}

  lemma PrefixSame(c: Copy, d: Copy, k: nat)
    requires Continues(c, d) && k < |c.order|
    ensures d.base + Bytes(d.mem0, d.order[..k]) == c.base + Bytes(c.mem0, c.order[..k])
    ensures k < |d.order| && d.order[k] == c.order[k]
  {
    assert d.order[..k] == c.order[..k];
  }

  lemma NullMoved(c: Copy)
    ensures RefMoved(c, Null, Null)
  {}

  lemma SlotsMovedMore(c: Copy, d: Copy, roots: seq<nat>, slots: map<nat, Ref>, now: map<nat, Ref>, i: nat, r: Ref)
    requires Distinct(roots) && i < |roots| && SlotsMoved(c, roots, slots, now, i) && Continues(c, d)
    requires RefMoved(d, now[roots[i]], r)
    ensures SlotsMoved(d, roots, slots, now[roots[i] := r], i + 1)
  {
    forall j | 0 <= j < i ensures RefMoved(d, slots[roots[j]], now[roots[j]]) {
      RefMovedMore(c, d, slots[roots[j]], now[roots[j]]);
    }
  }

  lemma FieldsMovedMore(c: Copy, d: Copy, fields: seq<Ref>, now: seq<Ref>, i: nat, r: Ref)
    requires i < |fields| && FieldsMoved(c, fields, now, i) && Continues(c, d) && RefMoved(d, now[i], r)
    ensures FieldsMoved(d, fields, now[i := r], i + 1)
  {
    forall j | 0 <= j < i ensures RefMoved(d, fields[j], now[j]) { RefMovedMore(c, d, fields[j], now[j]); }
  }

  /** Writing into the filled room keeps everything outside it. */
  lemma TargetWritten(c: Copy, d: Copy, before: Mem, mem: Mem, a: nat, o: Obj)
    requires Advanced(c, d, before, mem) && d.base <= a < End(d)
    ensures Advanced(c, d, before, mem[a := o])
  {}

  /** The object is done, and the next one starts where it ends. */
  lemma ScanNext(c: Copy, d: Copy, mem: Mem, alloc: nat, k: nat)
    requires k < |d.order| && d.order[k] in d.mem0 && Copying(d, mem, alloc, k, |d.mem0[d.order[k]].fields|)
    requires Continues(c, d) && k < |c.order|
    ensures Copying(d, mem, alloc, k + 1, 0)
    ensures var scan := c.base + Bytes(c.mem0, c.order[..k]);
      scan in mem && scan + Size(mem[scan]) == d.base + Bytes(d.mem0, d.order[..k + 1])
  {
    hide Reached, CopyOk, Sources, Scanned;
    ScanObject(d, mem, alloc, k, |d.mem0[d.order[k]].fields|);
    ObjectScanned(d, mem, alloc, k);
    assert c.order[..k] == d.order[..k];
  }
}
