/** Every run of the mutator against the collected heap is a run against a heap that never collects. */
module GcRun {
  import opened Basics
  import opened GcMemory
  import opened GcHeap
  import opened GcCollected
  import opened GcMutator
  import opened Gc

  /** The mutator's view: its shadow stack and the store. */
  datatype Machine = Machine(roots: seq<nat>, store: Store)

  datatype Op =
    | Push(slot: nat)
    | Pop(n: nat)
    | New(dst: nat, tag: nat, nfields: nat, aux: int)
    | SetImm(dst: nat, word: nat)
    | Move(dst: nat, src: nat)
    | Load(dst: nat, obj: nat, f: nat)
    | Write(obj: nat, f: nat, val: nat)
    | NewArray(len: nat, init: nat)
    | Get(dst: nat, handle: int, i: nat)
    | Set(handle: int, i: nat, val: nat)
    | Poll
    | ForceCollect

  predicate Holds(m: Machine, slot: nat) {
    slot in m.roots && slot in m.store.slots
  }

  /** The object a word names, if it has a field `f`. */
  predicate HasField(s: Store, v: LRef, f: nat) {
    v.LPtr? && v.id < |s.objs| && f < |s.objs[v.id].fields|
  }

  /** The element a handle and an index name, if they are in range. */
  predicate HasElement(s: Store, handle: int, i: nat) {
    0 <= handle < |s.boxed| && HasField(s, s.boxed[handle], i)
  }

  /** One step without any collector; none when the mutator breaks the rules: an unpinned slot, or a field
      of something else. */
  function Exec(m: Machine, op: Op): Option<Machine> {
    var s := m.store;
    match op
    case Push(slot) =>
      if slot in m.roots then None else Some(Machine(m.roots + [slot], Bound(s, slot, LNull)))
    case Pop(n) =>
      var rs := m.roots[..if n > |m.roots| then 0 else |m.roots| - n];
      Some(Machine(rs, Restricted(s, rs)))
    case New(dst, tag, nfields, aux) =>
      if dst !in m.roots || tag == FWD then None
      else Some(m.(store := Bound(Allocated(s, tag, aux, nfields), dst, LPtr(|s.objs|))))
    case SetImm(dst, w) => if dst !in m.roots then None else Some(m.(store := Bound(s, dst, LImm(w))))
    case Move(dst, src) =>
      if dst !in m.roots || !Holds(m, src) then None else Some(m.(store := Bound(s, dst, s.slots[src])))
    case Load(dst, obj, f) =>
      if dst !in m.roots || !Holds(m, obj) || !HasField(s, s.slots[obj], f) then None
      else Some(m.(store := Bound(s, dst, s.objs[s.slots[obj].id].fields[f])))
    case Write(obj, f, val) =>
      if !Holds(m, obj) || !Holds(m, val) || !HasField(s, s.slots[obj], f) then None
      else Some(m.(store := Stored(s, s.slots[obj].id, f, s.slots[val])))
    case NewArray(len, init) =>
      if !Holds(m, init) then None
      else Some(m.(store := WithArray(s, len, s.slots[init])))
    case Get(dst, handle, i) =>
      if dst !in m.roots || !Handles(s, handle) then None
      else if HasElement(s, handle, i) then Some(m.(store := Bound(s, dst, s.objs[s.boxed[handle].id].fields[i])))
      else Some(m.(store := Bound(Allocated(s, CON, 0, 0), dst, LPtr(|s.objs|))))
    case Set(handle, i, val) =>
      if !Holds(m, val) || !Handles(s, handle) then None
      else if HasElement(s, handle, i) then Some(m.(store := Stored(s, s.boxed[handle].id, i, s.slots[val])))
      else Some(m)
    case Poll => Some(m)
    case ForceCollect => Some(m)
  }

  /** A handle in the table names an object. */
  predicate Handles(s: Store, handle: int) {
    0 <= handle < |s.boxed| ==> s.boxed[handle].LPtr?
  }

  function ExecAll(m: Machine, ops: seq<Op>): Option<Machine> {
    if ops == [] then Some(m)
    else
      match ExecAll(m, ops[..|ops| - 1])
      case None => None
      case Some(n) => Exec(n, ops[|ops| - 1])
  }

  ghost function MachineOf(c: Collector): Machine
    reads c
  {
    Machine(c.roots, StoreOf(c.View()))
  }

  // ---- one step ----

  /** Would the step run a minor collection? */
  predicate RunsMinor(c: Collector, op: Op)
    reads c
  {
    match op
    case New(_, _, nfields, _) => c.MinorNext(HEADER + WORD * nfields)
    case NewArray(len, _) => c.MinorNext(HEADER + WORD * len)
    case Get(_, handle, i) => !InRange(c, handle, i) && c.MinorNext(HEADER)
    case Poll => c.nurseryBump + 4096 > c.nursery + c.nurserySize && c.RoomToPromote()
    case _ => false
  }

  predicate InRange(c: Collector, handle: int, i: nat)
    reads c
  {
    0 <= handle < |c.boxed| && c.boxed[handle].Ptr? && c.boxed[handle].a in c.mem && i < |c.mem[c.boxed[handle].a].fields|
  }

  /** Nothing was missed since the last collection, or the step does not run a minor one. */
  predicate Safe(c: Collector, op: Op)
    reads c
  {
    c.missed ==> !RunsMinor(c, op)
  }

  /** At most one more object was stored to, and only by a store; only an array longer than the nursery is
      filled in the old generation. */
  twostate predicate Counts(c: Collector, op: Op)
    reads c
  {
    |c.stored| <= |old(c.stored)| + (if IsStore(op) then 1 else 0)
    && (c.filledOld && !old(c.filledOld) ==> LongArray(c.nurserySize, op))
  }

  predicate IsStore(op: Op) {
    op.Write? || op.Set?
  }

  predicate LongArray(nurserySize: nat, op: Op) {
    op.NewArray? && HEADER + WORD * op.len > nurserySize
  }

  /** A step did what the collector-free machine does, or the host refused memory. */
  twostate predicate Stepped(c: Collector, op: Op, ok: bool)
    reads c
  {
    c.refusals >= old(c.refusals) && (!ok ==> c.refusals > old(c.refusals)) && Counts(c, op)
    && (ok ==> c.Valid() && Exec(old(MachineOf(c)), op) == Some(MachineOf(c)))
  }

  method DoNew(c: Collector, dst: nat, tag: nat, nfields: nat, aux: int) returns (ok: bool)
    requires c.Valid() && dst in c.roots && tag != FWD && Safe(c, New(dst, tag, nfields, aux))
    modifies c
    ensures Stepped(c, New(dst, tag, nfields, aux), ok)
  {
    hide HeapOk, StoreOf, Allocated, Bound;
    var r: Ref;
    StoreObjs(c.View());
    r, ok := c.Alloc(tag, nfields, aux);
    if !ok { return; }
    ghost var h := c.View();
    c.SetSlot(dst, r);
    SetStore(h, c.View(), dst, r);
  }

  method DoLoad(c: Collector, dst: nat, obj: nat, f: nat) returns (ok: bool)
    requires c.Valid() && Exec(MachineOf(c), Load(dst, obj, f)).Some?
    modifies c
    ensures Stepped(c, Load(dst, obj, f), ok)
  {
    hide HeapOk, StoreOf, Bound;
    ghost var h := c.View();
    SlotRead(h, obj);
    StoreObjs(h);
    LiveIn(h, c.slots[obj].a);
    var v := c.LoadField(c.slots[obj], f);
    c.SetSlot(dst, v);
    SetStore(h, c.View(), dst, v);
    ok := true;
  }

  method DoWrite(c: Collector, obj: nat, f: nat, val: nat) returns (ok: bool)
    requires c.Valid() && Exec(MachineOf(c), Write(obj, f, val)).Some?
    modifies c
    ensures Stepped(c, Write(obj, f, val), ok)
  {
    hide HeapOk, StoreOf, Stored, Stores, StoresSilently, Covered;
    ghost var h := c.View();
    SlotRead(h, obj);
    SlotRead(h, val);
    StoreObjs(h);
    LiveIn(h, c.slots[obj].a);
    c.StoreField(c.slots[obj], f, c.slots[val]);
    StoredBy(h, c.View(), c.slots[obj].a, f, c.slots[val]);
    ok := true;
  }

  method DoNewArray(c: Collector, len: nat, init: nat) returns (ok: bool)
    requires c.Valid() && Exec(MachineOf(c), NewArray(len, init)).Some? && Safe(c, NewArray(len, init))
    modifies c
    ensures Stepped(c, NewArray(len, init), ok)
  {
    hide HeapOk, StoreOf, WithArray;
    SlotRead(c.View(), init);
    var handle: nat;
    handle, ok := c.BoxedArrayNew(len, c.slots[init]);
  }

  /** The table's entries, seen from the store. */
  lemma HandleRead(h: Heap, k: int, i: nat)
    requires HeapOk(h) && Handles(StoreOf(h), k)
    ensures 0 <= k < |h.boxed| ==> h.boxed[k].Ptr?
    ensures HasElement(StoreOf(h), k, i) <==> InBounds(h, k, i)
    ensures InBounds(h, k, i) ==> StoreOf(h).boxed[k] == LPtr(h.ids[h.boxed[k].a])
  {
    hide HeapOk;
    StoreObjs(h);
    SameTable(h);
    if 0 <= k < |h.boxed| { BoxedRead(h, k); }
  }

  method DoGet(c: Collector, dst: nat, handle: int, i: nat) returns (ok: bool)
    requires c.Valid() && dst in c.roots && Handles(StoreOf(c.View()), handle) && Safe(c, Get(dst, handle, i))
    modifies c
    ensures Stepped(c, Get(dst, handle, i), ok)
  {
    hide HeapOk, StoreOf, Bound, Allocated, Handles, HasElement, InBounds;
    ghost var h := c.View();
    HandleRead(h, handle, i);
    StoreObjs(h);
    RangeRead(h, handle, i);
    var r: Ref;
    r, ok := c.BoxedArrayGet(handle, i);
    if !ok { return; }
    ghost var g := c.View();
    GetRead(h, handle, i);
    c.SetSlot(dst, r);
    SetStore(g, c.View(), dst, r);
  }

  /** An index is in range in memory exactly when it is in the store. */
  lemma RangeRead(h: Heap, k: int, i: nat)
    requires HeapOk(h)
    ensures InBounds(h, k, i) <==>
      0 <= k < |h.boxed| && h.boxed[k].Ptr? && h.boxed[k].a in h.mem && i < |h.mem[h.boxed[k].a].fields|
  {
    hide HeapOk;
    if 0 <= k < |h.boxed| && h.boxed[k].Ptr? {
      BoxedRead(h, k);
      LiveIn(h, h.boxed[k].a);
    }
  }

  /** What an element read from the store is. */
  lemma GetRead(h: Heap, k: int, i: nat)
    requires HeapOk(h) && Handles(StoreOf(h), k)
    ensures HasElement(StoreOf(h), k, i) <==> InBounds(h, k, i)
    ensures InBounds(h, k, i) ==>
      StoreOf(h).objs[StoreOf(h).boxed[k].id].fields[i] == h.objs[h.ids[h.boxed[k].a]].fields[i]
  {
    hide HeapOk;
    HandleRead(h, k, i);
    StoreObjs(h);
  }

  method DoSet(c: Collector, handle: int, i: nat, val: nat) returns (ok: bool)
    requires c.Valid() && val in c.roots && Handles(StoreOf(c.View()), handle)
    modifies c
    ensures Stepped(c, Set(handle, i, val), ok)
  {
    hide HeapOk, StoreOf, Stored, Handles, Covered;
    ghost var h := c.View();
    HandleRead(h, handle, i);
    StoreObjs(h);
    SlotRead(h, val);
    c.BoxedArraySet(handle, i, c.slots[val]);
    if InBounds(h, handle, i) { BoxedRead(h, handle); }
    ok := true;
  }

  method Step(c: Collector, op: Op) returns (ok: bool)
    requires c.Valid() && Exec(MachineOf(c), op).Some?
    requires Safe(c, op)
    modifies c
    ensures Stepped(c, op, ok)
  {
    hide HeapOk, StoreOf, Stored, Bound, Allocated, WithArray, Handles, HasElement, HasField, Restricted;
    ghost var h := c.View();
    ok := true;
    match op {
      case Push(slot) =>
        c.PushRoot(slot, Null);
        PushStore(h, c.View(), slot, Null);
      case Pop(n) =>
        c.PopRoots(n);
        PopStore(h, c.View(), if n > |h.roots| then 0 else |h.roots| - n);
      case New(dst, tag, nfields, aux) => ok := DoNew(c, dst, tag, nfields, aux);
      case SetImm(dst, w) =>
        c.SetSlot(dst, Ref.Imm(w));
        SetStore(h, c.View(), dst, Ref.Imm(w));
      case Move(dst, src) =>
        SlotRead(h, src);
        var v := c.slots[src];
        c.SetSlot(dst, v);
        SetStore(h, c.View(), dst, v);
      case Load(dst, obj, f) => ok := DoLoad(c, dst, obj, f);
      case Write(obj, f, val) => ok := DoWrite(c, obj, f, val);
      case NewArray(len, init) => ok := DoNewArray(c, len, init);
      case Get(dst, handle, i) => ok := DoGet(c, dst, handle, i);
      case Set(handle, i, val) => ok := DoSet(c, handle, i, val);
      case Poll => ok := c.Poll();
      case ForceCollect => ok := c.CompactCollect(0);
    }
  }

  // ---- whole runs ----

  lemma {:induction false} PrefixRuns(m: Machine, ops: seq<Op>, k: nat)
    requires k <= |ops| && ExecAll(m, ops).Some?
    ensures ExecAll(m, ops[..k]).Some?
    ensures k < |ops| ==> ExecAll(m, ops[..k + 1]) == Exec(ExecAll(m, ops[..k]).value, ops[k])
    decreases |ops| - k
  {
    hide Exec;
    if k == |ops| {
      assert ops[..k] == ops;
    } else {
      PrefixRuns(m, ops, k + 1);
      assert ops[..k + 1][..k] == ops[..k];
    }
  }

  /** The stores in a run. */
  function StoresIn(ops: seq<Op>): nat {
    if ops == [] then 0 else StoresIn(ops[..|ops| - 1]) + if IsStore(ops[|ops| - 1]) then 1 else 0
  }

  predicate LongArrayIn(nurserySize: nat, ops: seq<Op>) {
    exists k :: 0 <= k < |ops| && LongArray(nurserySize, ops[k])
  }

  ghost function Elements(s: seq<nat>): set<nat> {
    set a | a in s
  }

  lemma {:induction false} SetOf(s: seq<nat>)
    requires Distinct(s)
    ensures |Elements(s)| == |s|
  {
    if s == [] {
      assert Elements(s) == {};
    } else {
      var front, last := s[..|s| - 1], s[|s| - 1];
      SetOf(front);
      assert s == front + [last];
      assert Elements(s) == Elements(front) + {last};
      assert forall k :: 0 <= k < |front| ==> s[k] != s[|s| - 1];
    }
  }

  lemma SubsetSize(a: set<nat>, b: set<nat>)
    requires a <= b
    ensures |a| <= |b|
  {
    assert b == a + (b - a);
  }

  /** The old objects stored to with the barrier since the last collection. */
  ghost function OldStored(c: Collector): set<nat>
    reads c
  {
    set a | a in c.stored && a in c.old_
  }

  lemma LongArrayMore(nurserySize: nat, ops: seq<Op>, k: nat)
    requires k < |ops|
    ensures LongArrayIn(nurserySize, ops[..k + 1]) <==> LongArrayIn(nurserySize, ops[..k]) || LongArray(nurserySize, ops[k])
  {
    hide LongArray;
    assert forall j :: 0 <= j < k ==> ops[..k + 1][j] == ops[..k][j];
    assert ops[..k + 1][k] == ops[k];
  }

  /** When something was missed: 65536 different old objects were stored to, or an array born old was filled
      with a nursery pointer, since the last collection. */
  lemma MissedIs(c: Collector)
    requires c.Valid() && c.missed
    ensures |OldStored(c)| >= 65536 || c.filledOld
  {
    if !c.filledOld {
      var marked := Elements(c.remembered);
      SetOf(c.remembered);
      forall a | a in marked ensures a in OldStored(c) { var i :| 0 <= i < |c.remembered| && c.remembered[i] == a; }
      SubsetSize(marked, OldStored(c));
    }
  }

  /** Over every run of allocations, barriered stores, reads, boxed-array operations and minor or major
      collections, the mutator sees exactly what it would see if nothing were ever collected. A run stops
      early only when the host refuses memory, or, after `done` steps like those of the machine, before a
      minor collection that follows a store nothing recorded: then 65536 different old objects were stored to
      since the last collection, or an array longer than the nursery was filled. */
  method Run(c: Collector, ops: seq<Op>) returns (ok: bool, done: nat)
    requires c.Valid() && ExecAll(MachineOf(c), ops).Some?
    modifies c
    ensures ok ==> c.Valid() && ExecAll(old(MachineOf(c)), ops) == Some(MachineOf(c))
    ensures !ok && c.refusals == old(c.refusals) ==>
      c.Valid() && done < |ops| && ExecAll(old(MachineOf(c)), ops[..done]) == Some(MachineOf(c)) && !Safe(c, ops[done])
      && (|OldStored(c)| >= 65536 || c.filledOld)
    ensures !ok && c.refusals == old(c.refusals) && old(c.stored) == {} && !old(c.filledOld) ==>
      done < |ops| && (StoresIn(ops[..done]) >= 65536 || LongArrayIn(c.nurserySize, ops[..done]))
  {
    hide HeapOk, StoreOf, Exec, Covered, RunsMinor, Collector.Accounted, LongArray;
    ghost var m := MachineOf(c);
    ok, done := true, 0;
    while done < |ops|
      invariant done <= |ops| && c.Valid() && ExecAll(m, ops[..done]) == Some(MachineOf(c)) && c.refusals >= old(c.refusals)
      invariant |c.stored| <= |old(c.stored)| + StoresIn(ops[..done])
      invariant c.filledOld ==> old(c.filledOld) || LongArrayIn(c.nurserySize, ops[..done])
    {
      PrefixRuns(m, ops, done);
      PrefixRuns(m, ops, done + 1);
      if c.missed && RunsMinor(c, ops[done]) {
        ok := false;
        MissedIs(c);
        SubsetSize(OldStored(c), c.stored);
        return;
      }
      assert ops[..done + 1][..done] == ops[..done] && ops[..done + 1][done] == ops[done];
      LongArrayMore(c.nurserySize, ops, done);
      ok := Step(c, ops[done]);
      if !ok { return; }
      done := done + 1;
    }
    assert ops[..|ops|] == ops;
  }
}
