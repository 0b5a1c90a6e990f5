/** A Cheney copy in progress: which objects have been evacuated where, what a scanned field holds, and
    what a finished copy preserves. */
module GcCopy {
  import opened Basics
  import opened GcMemory

  /** `mem0` is memory when the copy began; `tiles` are the objects that may move; `starts` the
      addresses the roots name; `order` the objects moved so far and `rho` where to. */
  datatype Copy = Copy(mem0: Mem, tiles: seq<nat>, starts: set<nat>, base: nat, order: seq<nat>, rho: map<nat, nat>)

  function End(c: Copy): nat {
    c.base + Bytes(c.mem0, c.order)
  }

  /** A chain of fields leads from a start to `a`. */
  ghost predicate Path(c: Copy, path: seq<nat>, a: nat) {
    && |path| > 0 && path[0] in c.starts && path[|path| - 1] == a
    && forall k :: 0 <= k < |path| - 1 ==> PointsTo(c.mem0, path[k], path[k + 1])
  }

  predicate PointsTo(mem: Mem, a: nat, b: nat) {
    a in mem && Ptr(b) in mem[a].fields
  }

  ghost predicate Reached(c: Copy, a: nat) {
    exists path :: Path(c, path, a)
  }

  /** The copy is consistent: distinct objects, placed one after the other, all of them reached, and a
      destination that overlaps nothing that moves. */
  ghost predicate CopyOk(c: Copy) {
    && Distinct(c.order) && (forall k :: 0 <= k < |c.order| ==> Placed(c, k))
    && (forall a :: a in c.rho <==> a in c.order)
    && (forall a :: a in c.tiles ==> a in c.mem0 && c.mem0[a].tag != FWD && Outside(c, a))
  }

  ghost predicate Placed(c: Copy, k: nat)
    requires k < |c.order|
  {
    var a := c.order[k];
    a in c.tiles && a in c.rho && c.rho[a] == c.base + Bytes(c.mem0, c.order[..k]) && Reached(c, a)
  }

  predicate Outside(c: Copy, a: nat) {
    a < c.base || a >= c.base + Bytes(c.mem0, c.tiles)
  }

  function Forwarded(o: Obj, dst: nat): Obj {
    o.(tag := FWD, aux := dst)
  }

  datatype Moved = Moved(r: Ref, mem: Mem, frontier: nat)

  /** A major collection follows one word: a forward leads on, anything else is copied to the frontier. */
  function MajorMove(mem: Mem, alloc: nat, o: Ref): Moved {
    if !o.Ptr? || o.a !in mem then Moved(o, mem, alloc)
    else if mem[o.a].tag == FWD then Moved(Ptr(if mem[o.a].aux >= 0 then mem[o.a].aux else 0), mem, alloc)
    else Moved(Ptr(alloc), mem[alloc := mem[o.a]][o.a := Forwarded(mem[o.a], alloc)], alloc + Size(mem[o.a]))
  }

  /** Why no slot may be pinned twice: a major collection does not see, on its second visit, that the slot
      has been moved already, and copies the copy. Every other reference to the object then leads to the
      first copy, which is a forward by now. */
  lemma TwicePinned(mem: Mem, alloc: nat, a: nat)
    requires a in mem && mem[a].tag != FWD && (a < alloc || alloc + 2 * Size(mem[a]) <= a)
    ensures var once := MajorMove(mem, alloc, Ptr(a));
      var twice := MajorMove(once.mem, once.frontier, once.r);
      twice.r != once.r && twice.frontier == alloc + 2 * Size(mem[a])
      && MajorMove(twice.mem, twice.frontier, Ptr(a)).r == Ptr(alloc)
      && alloc in twice.mem && twice.mem[alloc].tag == FWD
  {
    var once := MajorMove(mem, alloc, Ptr(a));
    assert once.mem[alloc] == mem[a] && Size(mem[a]) > 0;
  }

  /** What memory holds at the objects that may move. */
  ghost predicate Sources(c: Copy, mem: Mem) {
    forall a :: a in c.tiles && a in c.mem0 ==>
      a in mem && mem[a] == if a in c.rho then Forwarded(c.mem0[a], c.rho[a]) else c.mem0[a]
  }

  /** What a word becomes: a pointer to an object that moves follows it. */
  predicate RefMoved(c: Copy, r: Ref, r': Ref) {
    if r.Ptr? && r.a in c.tiles then r.a in c.rho && r' == Ptr(c.rho[r.a]) else r' == r
  }

  ghost predicate FieldsMoved(c: Copy, fields: seq<Ref>, fields': seq<Ref>, n: nat) {
    |fields'| == |fields| && n <= |fields|
    && (forall i :: 0 <= i < n ==> RefMoved(c, fields[i], fields'[i]))
    && forall i :: n <= i < |fields| ==> fields'[i] == fields[i]
  }

  /** The copy of object `k`, with its first `n` fields scanned. */
  ghost predicate CopyAt(c: Copy, mem: Mem, k: nat, n: nat)
    requires k < |c.order|
  {
    var a := c.order[k];
    a in c.mem0 && a in c.rho && c.rho[a] in mem
    && var o, o' := c.mem0[a], mem[c.rho[a]];
    o'.tag == o.tag && o'.remembered == o.remembered && o'.aux == o.aux && FieldsMoved(c, o.fields, o'.fields, n)
  }

  /** How far object `i` is scanned when `k` objects are, and `n` fields of the next. */
  function Progress(c: Copy, i: nat, k: nat, n: nat): nat
    requires i < |c.order|
  {
    if i < k && c.order[i] in c.mem0 then |c.mem0[c.order[i]].fields| else if i == k then n else 0
  }

  /** Objects before `k` are scanned, object `k` up to field `n`, the others not at all. */
  ghost predicate Scanned(c: Copy, mem: Mem, k: nat, n: nat) {
    forall i :: 0 <= i < |c.order| ==> CopyAt(c, mem, i, Progress(c, i, k, n))
  }

  // ---- extending ----

  /** `d` continues `c`. */
  ghost predicate Continues(c: Copy, d: Copy) {
    && d.mem0 == c.mem0 && d.tiles == c.tiles && d.starts == c.starts && d.base == c.base
    && c.order <= d.order && forall a :: a in c.rho ==> a in d.rho && d.rho[a] == c.rho[a]
  }

  lemma ContinuesTrans(c: Copy, d: Copy, e: Copy)
    requires Continues(c, d) && Continues(d, e)
    ensures Continues(c, e)
  {}

  lemma RefMovedMore(c: Copy, d: Copy, r: Ref, r': Ref)
    requires Continues(c, d) && RefMoved(c, r, r')
    ensures RefMoved(d, r, r')
  {}

  function Next(c: Copy, a: nat): Copy {
    c.(order := c.order + [a], rho := c.rho[a := End(c)])
  }

  lemma PathMore(c: Copy, d: Copy, a: nat)
    requires d.mem0 == c.mem0 && d.starts == c.starts && Reached(c, a)
    ensures Reached(d, a)
  {
    var path :| Path(c, path, a);
    assert Path(d, path, a);
  }

  lemma PathStep(c: Copy, a: nat, b: nat)
    requires Reached(c, a) && PointsTo(c.mem0, a, b)
    ensures Reached(c, b)
  {
    var path :| Path(c, path, a);
    assert Path(c, path + [b], b);
  }

  lemma StartReached(c: Copy, a: nat)
    requires a in c.starts
    ensures Reached(c, a)
  {
    assert Path(c, [a], a);
  }

  lemma OrderIn(c: Copy)
    requires CopyOk(c)
    ensures forall k :: 0 <= k < |c.order| ==> c.order[k] in c.tiles && c.order[k] in c.mem0 && c.order[k] in c.rho
    ensures Bytes(c.mem0, c.order) <= Bytes(c.mem0, c.tiles)
  {
    hide Reached, Outside;
    forall k | 0 <= k < |c.order| ensures c.order[k] in c.tiles && c.order[k] in c.mem0 && c.order[k] in c.rho {
      assert Placed(c, k);
    }
    SelectionFits(c.mem0, c.order, c.tiles);
  }

  lemma TileIn(c: Copy, a: nat)
    requires CopyOk(c) && a in c.tiles
    ensures a in c.mem0 && c.mem0[a].tag != FWD && Outside(c, a)
  {}

  lemma OrderDistinct(c: Copy)
    requires CopyOk(c)
    ensures Distinct(c.order) && forall a :: a in c.rho <==> a in c.order
  {
    hide Placed, Outside;
  }

  /** There is room for the next object, and nothing that moves is where it goes. */
  lemma NextFits(c: Copy, a: nat)
    requires CopyOk(c) && a in c.tiles && a !in c.rho
    ensures a in c.mem0 && End(c) + Size(c.mem0[a]) <= c.base + Bytes(c.mem0, c.tiles)
    ensures End(c) !in c.tiles
  {
    hide CopyOk;
    var more := c.order + [a];
    OrderIn(c);
    OrderDistinct(c);
    TileIn(c, a);
    assert more[..|more| - 1] == c.order;
    SelectionFits(c.mem0, more, c.tiles);
    if End(c) in c.tiles { TileIn(c, End(c)); }
  }

  lemma PlacedNext(c: Copy, a: nat, k: nat)
    requires CopyOk(c) && a in c.tiles && a !in c.rho && Reached(c, a) && k <= |c.order|
    ensures Placed(Next(c, a), k)
  {
    hide Reached, CopyOk, Distinct;
    var d := Next(c, a);
    OrderDistinct(c);
    if k < |c.order| {
      PlacedAt(c, k);
      PathMore(c, d, c.order[k]);
      assert d.order[..k] == c.order[..k];
    } else {
      PathMore(c, d, a);
      assert d.order[..k] == c.order;
    }
  }

  lemma PlacedAt(c: Copy, k: nat)
    requires CopyOk(c) && k < |c.order|
    ensures Placed(c, k)
  {
    hide Placed;
  }

  /** Copying one more object keeps the copy consistent. */
  lemma NextOk(c: Copy, a: nat)
    requires CopyOk(c) && a in c.tiles && a !in c.rho && Reached(c, a)
    ensures CopyOk(Next(c, a)) && Continues(c, Next(c, a)) && End(Next(c, a)) == End(c) + Size(c.mem0[a])
  {
    hide Reached;
    var d := Next(c, a);
    forall k | 0 <= k < |d.order| ensures Placed(d, k) { PlacedNext(c, a, k); }
    assert d.order[..|d.order| - 1] == c.order;
  }

  /** Memory after copying `a`: the object at its new address, a forwarding pointer at the old one. */
  function AfterCopy(c: Copy, mem: Mem, a: nat): Mem
    requires a in c.mem0
  {
    mem[End(c) := c.mem0[a]][a := Forwarded(c.mem0[a], End(c))]
  }

  lemma DstInside(c: Copy, k: nat)
    requires CopyOk(c) && k < |c.order|
    ensures c.order[k] in c.mem0 && c.order[k] in c.tiles && c.order[k] in c.rho
    ensures c.base <= c.rho[c.order[k]] && c.rho[c.order[k]] + Size(c.mem0[c.order[k]]) <= End(c)
    ensures c.rho[c.order[k]] !in c.tiles
  {
    hide Reached;
    assert Placed(c, k);
    OrderIn(c);
    assert c.order[..|c.order|] == c.order;
    BytesPrefix(c.mem0, c.order, k, |c.order|);
  }

  lemma DstDistinct(c: Copy, i: nat, j: nat)
    requires CopyOk(c) && i < j < |c.order|
    ensures c.order[i] in c.rho && c.order[j] in c.rho && c.rho[c.order[i]] < c.rho[c.order[j]]
  {
    hide Reached;
    assert Placed(c, i) && Placed(c, j);
    OrderIn(c);
    BytesPrefix(c.mem0, c.order, i, j);
  }

  lemma CopyAtNext(c: Copy, mem: Mem, a: nat, i: nat, n: nat)
    requires CopyOk(c) && a in c.tiles && a !in c.rho && Reached(c, a)
    requires i < |c.order| && CopyAt(c, mem, i, n)
    ensures a in c.mem0 && CopyAt(Next(c, a), AfterCopy(c, mem, a), i, n)
  {
    hide Reached, CopyOk;
    NextOk(c, a);
    NextFits(c, a);
    DstInside(c, i);
    TileIn(c, a);
  }

  lemma NewCopy(c: Copy, mem: Mem, a: nat)
    requires CopyOk(c) && a in c.tiles && a !in c.rho && Reached(c, a)
    ensures a in c.mem0 && CopyAt(Next(c, a), AfterCopy(c, mem, a), |c.order|, 0)
  {
    hide Reached, CopyOk;
    NextFits(c, a);
    TileIn(c, a);
  }

  /** The new copy is unscanned, and the earlier ones are as scanned as before. */
  lemma ScannedNext(c: Copy, mem: Mem, a: nat, k: nat, n: nat)
    requires CopyOk(c) && Scanned(c, mem, k, n) && k <= |c.order|
    requires k == |c.order| ==> n == 0
    requires a in c.tiles && a !in c.rho && Reached(c, a)
    ensures a in c.mem0 && Scanned(Next(c, a), AfterCopy(c, mem, a), k, n)
  {
    hide Reached, CopyOk, CopyAt, AfterCopy;
    TileIn(c, a);
    var d, mem' := Next(c, a), AfterCopy(c, mem, a);
    forall i | 0 <= i < |d.order| ensures CopyAt(d, mem', i, Progress(d, i, k, n)) {
      if i < |c.order| {
        assert CopyAt(c, mem, i, Progress(c, i, k, n));
        CopyAtNext(c, mem, a, i, Progress(c, i, k, n));
      } else {
        NewCopy(c, mem, a);
      }
    }
  }

  lemma SourcesNext(c: Copy, mem: Mem, a: nat)
    requires CopyOk(c) && Sources(c, mem) && a in c.tiles && a !in c.rho
    ensures a in c.mem0 && Sources(Next(c, a), AfterCopy(c, mem, a))
  {
    hide Reached;
    NextFits(c, a);
  }

  // ---- the collector's steps ----

  /** The copy stands at `alloc`, with `k` objects scanned and `n` fields of the next. */
  ghost predicate Copying(c: Copy, mem: Mem, alloc: nat, k: nat, n: nat) {
    && CopyOk(c) && Sources(c, mem) && Scanned(c, mem, k, n) && alloc == End(c)
    && k <= |c.order| && (k == |c.order| ==> n == 0)
  }

  /** Memory outside the moving objects and the filled room is as it was. */
  ghost predicate Kept(d: Copy, mem: Mem, mem': Mem) {
    forall a :: a in mem && a !in d.tiles && (a < d.base || a >= End(d)) ==> a in mem' && mem'[a] == mem[a]
  }

  /** The copy went on from `c` to `d`. */
  ghost predicate Advanced(c: Copy, d: Copy, mem: Mem, mem': Mem) {
    Continues(c, d) && End(c) <= End(d) && Kept(d, mem, mem')
  }

  lemma AdvancedTrans(c: Copy, d: Copy, e: Copy, m0: Mem, m1: Mem, m2: Mem)
    requires Advanced(c, d, m0, m1) && Advanced(d, e, m1, m2)
    ensures Advanced(c, e, m0, m2)
  {}

  /** A word that may be evacuated: a pointer to a moving object is reached. */
  ghost predicate MayMove(c: Copy, r: Ref) {
    r.Ptr? && r.a in c.tiles ==> Reached(c, r.a)
  }

  lemma CopyOne(c: Copy, mem: Mem, alloc: nat, k: nat, n: nat, a: nat)
    requires Copying(c, mem, alloc, k, n) && a in c.tiles && a !in c.rho && Reached(c, a)
    ensures a in c.mem0 && a in mem && mem[a] == c.mem0[a]
    ensures Copying(Next(c, a), AfterCopy(c, mem, a), alloc + Size(c.mem0[a]), k, n)
    ensures Advanced(c, Next(c, a), mem, AfterCopy(c, mem, a))
    ensures alloc + Size(c.mem0[a]) <= c.base + Bytes(c.mem0, c.tiles)
  {
    hide Reached, CopyOk, Scanned;
    TileIn(c, a);
    NextOk(c, a);
    NextFits(c, a);
    SourcesNext(c, mem, a);
    ScannedNext(c, mem, a, k, n);
  }

  lemma SourceAt(c: Copy, mem: Mem, a: nat)
    requires CopyOk(c) && Sources(c, mem) && a in c.tiles
    ensures a in c.mem0 && a in mem
    ensures mem[a].tag == FWD <==> a in c.rho
    ensures if a in c.rho then mem[a].aux == c.rho[a] else mem[a] == c.mem0[a]
  {
    hide Reached;
    TileIn(c, a);
  }

  /** The object at the scan pointer. */
  lemma ScanObject(c: Copy, mem: Mem, alloc: nat, k: nat, n: nat)
    requires Copying(c, mem, alloc, k, n) && k < |c.order|
    ensures c.order[k] in c.tiles && c.order[k] in c.mem0 && c.order[k] in c.rho && CopyAt(c, mem, k, n)
    ensures c.rho[c.order[k]] == c.base + Bytes(c.mem0, c.order[..k])
    ensures c.rho[c.order[k]] < alloc && c.rho[c.order[k]] !in c.tiles && Reached(c, c.order[k])
    ensures c.rho[c.order[k]] + Size(c.mem0[c.order[k]]) == c.base + Bytes(c.mem0, c.order[..k + 1])
  {
    hide Reached, CopyAt;
    PlacedAt(c, k);
    DstInside(c, k);
    assert CopyAt(c, mem, k, Progress(c, k, k, n));
    assert c.order[..k + 1][..k] == c.order[..k];
  }

  /** The scan pointer is at the frontier exactly when every object is scanned. */
  lemma ScanDone(c: Copy, k: nat)
    requires CopyOk(c) && k <= |c.order|
    ensures c.base + Bytes(c.mem0, c.order[..k]) == End(c) <==> k == |c.order|
    ensures c.base + Bytes(c.mem0, c.order[..k]) <= End(c)
  {
    hide CopyOk;
    OrderIn(c);
    BytesPrefix(c.mem0, c.order, k, |c.order|);
    assert c.order[..|c.order|] == c.order;
  }

  /** Writing the evacuated field back. */
  lemma FieldScanned(c: Copy, mem: Mem, alloc: nat, k: nat, n: nat, r': Ref)
    requires Copying(c, mem, alloc, k, n) && k < |c.order| && c.order[k] in c.mem0 && c.order[k] in c.rho
    requires n < |c.mem0[c.order[k]].fields| && RefMoved(c, c.mem0[c.order[k]].fields[n], r')
    ensures var dst := c.rho[c.order[k]];
      dst in mem && |mem[dst].fields| == |c.mem0[c.order[k]].fields|
      && Copying(c, mem[dst := mem[dst].(fields := mem[dst].fields[n := r'])], alloc, k, n + 1)
  {
    hide Reached, CopyOk, Outside;
    var dst := c.rho[c.order[k]];
    ScanObject(c, mem, alloc, k, n);
    var mem' := mem[dst := mem[dst].(fields := mem[dst].fields[n := r'])];
    var n' := n + 1;
    forall i | 0 <= i < |c.order| ensures CopyAt(c, mem', i, Progress(c, i, k, n')) {
      assert CopyAt(c, mem, i, Progress(c, i, k, n));
      if i < k { DstDistinct(c, i, k); } else if k < i { DstDistinct(c, k, i); }
    }
  }

  lemma ObjectScanned(c: Copy, mem: Mem, alloc: nat, k: nat)
    requires k < |c.order| && c.order[k] in c.mem0 && Copying(c, mem, alloc, k, |c.mem0[c.order[k]].fields|)
    ensures Copying(c, mem, alloc, k + 1, 0)
  {
    hide CopyAt, CopyOk;
    var k' := k + 1;
    forall i | 0 <= i < |c.order| ensures CopyAt(c, mem, i, Progress(c, i, k', 0)) {
      assert CopyAt(c, mem, i, Progress(c, i, k, |c.mem0[c.order[k]].fields|));
    }
  }

  /** A copy finds everything the starts reach, when nothing reached lies outside what moves. */
  lemma {:induction false} ReachedMoved(c: Copy, mem: Mem, alloc: nat, path: seq<nat>, a: nat)
    requires Copying(c, mem, alloc, |c.order|, 0) && Path(c, path, a)
    requires forall s :: s in c.starts ==> s in c.rho
    requires forall b, d :: b in c.tiles && PointsTo(c.mem0, b, d) ==> d in c.tiles
    ensures a in c.rho
    decreases |path|
  {
    hide CopyOk, Sources, Scanned, PointsTo;
    if |path| > 1 {
      var b := path[|path| - 2];
      assert Path(c, path[..|path| - 1], b);
      ReachedMoved(c, mem, alloc, path[..|path| - 1], b);
      assert PointsTo(c.mem0, path[|path| - 2], path[|path| - 2 + 1]);
      FieldMovedTo(c, mem, alloc, b, a);
    }
  }

  lemma FieldMovedTo(c: Copy, mem: Mem, alloc: nat, b: nat, a: nat)
    requires Copying(c, mem, alloc, |c.order|, 0) && b in c.rho && PointsTo(c.mem0, b, a)
    requires forall b, d :: b in c.tiles && PointsTo(c.mem0, b, d) ==> d in c.tiles
    ensures a in c.rho
  {
    hide Reached, CopyOk;
    OrderDistinct(c);
    OrderIn(c);
    var k :| 0 <= k < |c.order| && c.order[k] == b;
    assert CopyAt(c, mem, k, Progress(c, k, |c.order|, 0));
    var i :| 0 <= i < |c.mem0[b].fields| && c.mem0[b].fields[i] == Ptr(a);
    assert RefMoved(c, c.mem0[b].fields[i], mem[c.rho[b]].fields[i]);
  }

  /** Rewriting an object that does not move leaves the copy alone. */
  lemma CopyingElsewhere(c: Copy, mem: Mem, alloc: nat, k: nat, n: nat, a: nat, o: Obj)
    requires Copying(c, mem, alloc, k, n) && a !in c.tiles && (a < c.base || a >= End(c))
    ensures Copying(c, mem[a := o], alloc, k, n)
  {
    hide Reached, CopyOk;
    forall i | 0 <= i < |c.order| ensures CopyAt(c, mem[a := o], i, Progress(c, i, k, n)) {
      assert CopyAt(c, mem, i, Progress(c, i, k, n));
      DstInside(c, i);
    }
  }

  lemma {:induction false} FewerThanTiles(order: seq<nat>, tiles: seq<nat>)
    requires Distinct(order) && forall k :: 0 <= k < |order| ==> order[k] in tiles
    ensures |order| <= |tiles|
    decreases |order|
  {
    if order != [] {
      var m := |order| - 1;
      var k :| 0 <= k < |tiles| && tiles[k] == order[m];
      var rest := tiles[..k] + tiles[k + 1..];
      forall j | 0 <= j < m ensures order[j] in rest {
        var i :| 0 <= i < |tiles| && tiles[i] == order[j];
        assert i != k;
        if i < k { assert rest[i] == tiles[i]; } else { assert rest[i - 1] == tiles[i]; }
      }
      FewerThanTiles(order[..m], rest);
    }
  }

  lemma OrderShort(c: Copy)
    requires CopyOk(c)
    ensures |c.order| <= |c.tiles|
  {
    hide CopyOk;
    OrderDistinct(c);
    OrderIn(c);
    FewerThanTiles(c.order, c.tiles);
  }

  /** A copy that has not begun. */
  lemma CopyStarts(c: Copy, mem: Mem)
    requires c.mem0 == mem && c.order == [] && c.rho == map[]
    requires forall a :: a in c.tiles ==> a in mem && mem[a].tag != FWD && Outside(c, a)
    ensures Copying(c, mem, c.base, 0, 0) && Advanced(c, c, mem, mem)
  {}
}
