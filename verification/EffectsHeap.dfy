/** The bubbling operations as they run: nodes, closures and rebuilt objects are allocated and filled in a
    heap, and nothing already there is written. */
module EffectsHeap {
  import opened Effects

  datatype Obj = Obj(tag: nat, aux: nat, fields: seq<nat>)

  /** The runtime's own code pointers; compiled code has others. */
  const PERFORM_APPLY: nat := 1
  const COMPOSE_APPLY: nat := 2
  const REBUILD_APPLY: nat := 3

  predicate Compiled(code: nat) {
    code > REBUILD_APPLY
  }

  predicate Holds(store: seq<Obj>, a: nat, tag: nat, aux: nat, n: nat) {
    0 < a < |store| && store[a].tag == tag && store[a].aux == aux && |store[a].fields| == n
  }

  /** The object at `a`, and all below it, is the value `v`; address 0 is nothing. */
  predicate Denotes(store: seq<Obj>, a: nat, v: Value)
    decreases v
  {
    match v
    case Null => a == 0
    case Data(t, x, vs) =>
      t != CLOSURE && t != OPNODE && Holds(store, a, t, x, |vs|)
      && forall i :: 0 <= i < |vs| ==> Denotes(store, store[a].fields[i], vs[i])
    case Closure(c, vs) =>
      Compiled(c) && Holds(store, a, CLOSURE, c, |vs|)
      && forall i :: 0 <= i < |vs| ==> Denotes(store, store[a].fields[i], vs[i])
    case OpNode(op, arg, k) =>
      Holds(store, a, OPNODE, op, 2) && Denotes(store, store[a].fields[0], arg) && DenotesK(store, store[a].fields[1], k)
  }

  predicate DenotesK(store: seq<Obj>, a: nat, k: Cont)
    decreases k
  {
    match k
    case Identity => a == 0
    case PerformK(prior, op) =>
      Holds(store, a, CLOSURE, PERFORM_APPLY, 2) && DenotesK(store, store[a].fields[0], prior)
      && Holds(store, store[a].fields[1], INT, op, 0)
    case ArgK(prior, f) =>
      Holds(store, a, CLOSURE, COMPOSE_APPLY, 3) && DenotesK(store, store[a].fields[0], prior)
      && Holds(store, store[a].fields[1], INT, 0, 0) && Denotes(store, store[a].fields[2], f)
    case FunK(prior, x) =>
      Holds(store, a, CLOSURE, COMPOSE_APPLY, 3) && DenotesK(store, store[a].fields[0], prior)
      && Holds(store, store[a].fields[1], INT, 1, 0) && Denotes(store, store[a].fields[2], x)
    case RebuildK(prior, obj, i) =>
      Holds(store, a, CLOSURE, REBUILD_APPLY, 3) && DenotesK(store, store[a].fields[0], prior)
      && Denotes(store, store[a].fields[1], obj) && Holds(store, store[a].fields[2], INT, i, 0)
      && obj.Data? && i < |obj.fields|
  }

  /** Objects that stay as they are keep their meaning. */
  lemma {:induction false} StillDenotes(store: seq<Obj>, later: seq<Obj>, a: nat, v: Value)
    requires Denotes(store, a, v) && store <= later
    ensures Denotes(later, a, v)
    decreases v
  {
    match v
    case Null =>
    case Data(_, _, vs) =>
      forall i | 0 <= i < |vs| ensures Denotes(later, later[a].fields[i], vs[i]) {
        StillDenotes(store, later, store[a].fields[i], vs[i]);
      }
    case Closure(_, vs) =>
      forall i | 0 <= i < |vs| ensures Denotes(later, later[a].fields[i], vs[i]) {
        StillDenotes(store, later, store[a].fields[i], vs[i]);
      }
    case OpNode(_, arg, k) =>
      StillDenotes(store, later, store[a].fields[0], arg);
      StillDenotesK(store, later, store[a].fields[1], k);
  }

  lemma {:induction false} StillDenotesK(store: seq<Obj>, later: seq<Obj>, a: nat, k: Cont)
    requires DenotesK(store, a, k) && store <= later
    ensures DenotesK(later, a, k)
    decreases k
  {
    match k
    case Identity =>
    case PerformK(prior, _) => StillDenotesK(store, later, store[a].fields[0], prior);
    case ArgK(prior, f) =>
      StillDenotesK(store, later, store[a].fields[0], prior);
      StillDenotes(store, later, store[a].fields[2], f);
    case FunK(prior, x) =>
      StillDenotesK(store, later, store[a].fields[0], prior);
      StillDenotes(store, later, store[a].fields[2], x);
    case RebuildK(prior, obj, _) =>
      StillDenotesK(store, later, store[a].fields[0], prior);
      StillDenotes(store, later, store[a].fields[1], obj);
  }

  // ---- objects just allocated ----

  lemma NodeDenotes(store: seq<Obj>, later: seq<Obj>, r: nat, op: nat, arg: nat, v: Value, k: Cont)
    requires store <= later && Holds(later, r, OPNODE, op, 2) && later[r].fields[0] == arg
    requires Denotes(store, arg, v) && DenotesK(later, later[r].fields[1], k)
    ensures Denotes(later, r, OpNode(op, v, k))
  {
    StillDenotes(store, later, arg, v);
  }

  lemma PerformKDenotes(store: seq<Obj>, later: seq<Obj>, c: nat, prior: nat, k: Cont, op: nat)
    requires store <= later && DenotesK(store, prior, k)
    requires Holds(later, c, CLOSURE, PERFORM_APPLY, 2) && later[c].fields[0] == prior
    requires Holds(later, later[c].fields[1], INT, op, 0)
    ensures DenotesK(later, c, PerformK(k, op))
  {
    StillDenotesK(store, later, prior, k);
  }

  lemma ComposeDenotes(store: seq<Obj>, later: seq<Obj>, c: nat, prior: nat, k: Cont, mode: nat, x: nat, v: Value)
    requires store <= later && DenotesK(store, prior, k) && Denotes(store, x, v) && mode < 2
    requires Holds(later, c, CLOSURE, COMPOSE_APPLY, 3) && later[c].fields[0] == prior && later[c].fields[2] == x
    requires Holds(later, later[c].fields[1], INT, mode, 0)
    ensures DenotesK(later, c, if mode == 0 then ArgK(k, v) else FunK(k, v))
  {
    StillDenotesK(store, later, prior, k);
    StillDenotes(store, later, x, v);
  }

  lemma RebuildDenotes(store: seq<Obj>, later: seq<Obj>, c: nat, prior: nat, k: Cont, obj: nat, v: Value, i: nat)
    requires store <= later && DenotesK(store, prior, k) && Denotes(store, obj, v) && v.Data? && i < |v.fields|
    requires Holds(later, c, CLOSURE, REBUILD_APPLY, 3) && later[c].fields[0] == prior && later[c].fields[1] == obj
    requires Holds(later, later[c].fields[2], INT, i, 0)
    ensures DenotesK(later, c, RebuildK(k, v, i))
  {
    StillDenotesK(store, later, prior, k);
    StillDenotes(store, later, obj, v);
  }

  // ---- the runtime ----

  /** Compiled code as the runtime sees it: it may allocate, and returns an address. */
  type Compile = (seq<Obj>, nat, nat) -> (seq<Obj>, nat)

  /** It gives the value `code` says, and writes to nothing that is already there. */
  ghost predicate Implements(run: Compile, code: Code) {
    forall store, f, a, fv, av :: Denotes(store, f, fv) && Denotes(store, a, av) ==>
      var (grown, r) := run(store, f, a);
      store <= grown && Denotes(grown, r, code(fv, av))
  }

  class Runtime {
    var store: seq<Obj>
    const run: Compile
    ghost const code: Code

    ghost predicate Valid()
    {
      Implements(run, code)
    }

    constructor (run: Compile, ghost code: Code)
      requires Implements(run, code)
      ensures Valid() && this.code == code && this.run == run
    {
      this.run, this.code := run, code;
      store := [Obj(0, 0, [])];
    }

    /** A new object whose fields are nothing. */
    method Alloc(tag: nat, n: nat, aux: nat) returns (a: nat)
      requires store != []
      modifies this
      ensures a == |old(store)| && store == old(store) + [Obj(tag, aux, seq(n, _ => 0))]
    {
      a := |store|;
      store := store + [Obj(tag, aux, seq(n, _ => 0))];
    }

    method SetField(a: nat, i: nat, x: nat)
      requires a < |store| && i < |store[a].fields|
      modifies this
      ensures store == old(store)[a := old(store)[a].(fields := old(store)[a].fields[i := x])]
    {
      store := store[a := store[a].(fields := store[a].fields[i := x])];
    }

    method IsNode(a: nat) returns (b: bool)
      requires a == 0 || a < |store|
      ensures b == (a != 0 && store[a].tag == OPNODE)
    {
      b := a != 0 && store[a].tag == OPNODE;
    }

    method MakePerformCont(prior: nat, op: nat) returns (c: nat)
      requires store != []
      modifies this
      ensures c == |old(store)|
      ensures store == old(store) + [Obj(CLOSURE, PERFORM_APPLY, [prior, c + 1]), Obj(INT, op, [])]
    {
      c := Alloc(CLOSURE, 2, PERFORM_APPLY);
      SetField(c, 0, prior);
      var box := Alloc(INT, 0, op);
      SetField(c, 1, box);
      assert store[c].fields == [prior, box] && store[box].fields == [];
    }

    method MakeCompose(prior: nat, mode: nat, fixed: nat) returns (c: nat)
      requires store != []
      modifies this
      ensures c == |old(store)|
      ensures store == old(store) + [Obj(CLOSURE, COMPOSE_APPLY, [prior, c + 1, fixed]), Obj(INT, mode, [])]
    {
      c := Alloc(CLOSURE, 3, COMPOSE_APPLY);
      SetField(c, 0, prior);
      SetField(c, 2, fixed);
      var box := Alloc(INT, 0, mode);
      SetField(c, 1, box);
      assert store[c].fields == [prior, box, fixed] && store[box].fields == [];
    }

    method MakeRebuild(prior: nat, obj: nat, i: nat) returns (c: nat)
      requires store != []
      modifies this
      ensures c == |old(store)|
      ensures store == old(store) + [Obj(CLOSURE, REBUILD_APPLY, [prior, obj, c + 1]), Obj(INT, i, [])]
    {
      c := Alloc(CLOSURE, 3, REBUILD_APPLY);
      SetField(c, 0, prior);
      SetField(c, 1, obj);
      var box := Alloc(INT, 0, i);
      SetField(c, 2, box);
      assert store[c].fields == [prior, obj, box] && store[box].fields == [];
    }

    /** Perform `op` on `a`; when `a` is a node, it bubbles and the perform waits for it. */
    method PerformIdx(op: nat, a: nat, ghost v: Value) returns (r: nat)
      requires store != [] && Denotes(store, a, v)
      modifies this
      ensures old(store) <= store && Denotes(store, r, Perform(op, v))
    {
      ghost var before := store;
      var stuck := IsNode(a);
      if stuck {
        r := Alloc(OPNODE, 2, store[a].aux);
        SetField(r, 0, store[a].fields[0]);
        var c := MakePerformCont(store[a].fields[1], op);
        SetField(r, 1, c);
        PerformKDenotes(before, store, c, before[a].fields[1], v.k, op);
        NodeDenotes(before, store, r, v.op, before[a].fields[0], v.arg, PerformK(v.k, op));
      } else {
        r := Alloc(OPNODE, 2, op);
        SetField(r, 0, a);
        NodeDenotes(before, store, r, op, a, v, Identity);
      }
    }

    /** A node like `node`, whose continuation goes on to apply what it gives (mode 1) or to apply
        `fixed` to it (mode 0). */
    method Suspend(node: nat, mode: nat, fixed: nat, ghost v: Value, ghost x: Value) returns (r: nat)
      requires store != [] && Denotes(store, node, v) && v.OpNode? && Denotes(store, fixed, x) && mode < 2
      modifies this
      ensures old(store) <= store
      ensures Denotes(store, r, OpNode(v.op, v.arg, if mode == 0 then ArgK(v.k, x) else FunK(v.k, x)))
    {
      ghost var before := store;
      r := Alloc(OPNODE, 2, store[node].aux);
      SetField(r, 0, store[node].fields[0]);
      var c := MakeCompose(store[node].fields[1], mode, fixed);
      SetField(r, 1, c);
      ComposeDenotes(before, store, c, before[node].fields[1], v.k, mode, fixed, x);
      NodeDenotes(before, store, r, v.op, before[node].fields[0], v.arg, if mode == 0 then ArgK(v.k, x) else FunK(v.k, x));
    }

    /** Apply `f` to `a`; a node in either place bubbles and the application waits for it. */
    method App(f: nat, a: nat, ghost fv: Value, ghost av: Value) returns (r: nat)
      requires Valid() && store != [] && Denotes(store, f, fv) && Denotes(store, a, av)
      modifies this
      ensures old(store) <= store && Denotes(store, r, Effects.App(code, fv, av))
    {
      var stuck := IsNode(f);
      if stuck {
        r := Suspend(f, 1, a, fv, av);
        return;
      }
      stuck := IsNode(a);
      if stuck {
        r := Suspend(a, 0, f, av, fv);
        return;
      }
      var (grown, result) := run(store, f, a);
      ImplementsHere(run, code, store, f, a, fv, av);
      store, r := grown, result;
    }

    /** A node like `node`, whose continuation goes on to fill field `i` of `obj`. */
    method SuspendField(node: nat, obj: nat, i: nat, ghost v: Value, ghost x: Value) returns (r: nat)
      requires store != [] && Denotes(store, node, v) && v.OpNode?
      requires Denotes(store, obj, x) && x.Data? && i < |x.fields|
      modifies this
      ensures old(store) <= store && Denotes(store, r, OpNode(v.op, v.arg, RebuildK(v.k, x, i)))
    {
      ghost var before := store;
      r := Alloc(OPNODE, 2, store[node].aux);
      SetField(r, 0, store[node].fields[0]);
      var c := MakeRebuild(store[node].fields[1], obj, i);
      SetField(r, 1, c);
      RebuildDenotes(before, store, c, before[node].fields[1], v.k, obj, x, i);
      NodeDenotes(before, store, r, v.op, before[node].fields[0], v.arg, RebuildK(v.k, x, i));
    }

    /** A constructor or tuple just built: the first field that is a node bubbles. */
    method ConBubble(obj: nat, ghost v: Value) returns (r: nat)
      requires store != [] && Denotes(store, obj, v)
      modifies this
      ensures old(store) <= store && Denotes(store, r, Bubble(v))
    {
      if obj == 0 || (store[obj].tag != CON && store[obj].tag != TUPLE) {
        return obj;
      }
      ghost var before := store;
      var n := |store[obj].fields|;
      var i := 0;
      while i < n
        invariant i <= n && store == before
        invariant forall j :: 0 <= j < i ==> !v.fields[j].OpNode?
      {
        var field := store[obj].fields[i];
        assert Denotes(store, field, v.fields[i]);
        var stuck := IsNode(field);
        if stuck {
          FirstNodeIs(v.fields, i);
          r := SuspendField(field, obj, i, v.fields[i], v);
          return;
        }
        i := i + 1;
      }
      r := obj;
    }

    /** A copy of `obj` whose field `i` is `x`; `obj` itself is left alone. */
    method Rebuild(obj: nat, i: nat, x: nat, ghost v: Value, ghost xv: Value) returns (r: nat)
      requires store != [] && Denotes(store, obj, v) && v.Data? && i < |v.fields| && Denotes(store, x, xv)
      modifies this
      ensures old(store) <= store && Denotes(store, r, Filled(v, i, xv))
    {
      ghost var before := store;
      var n := |store[obj].fields|;
      r := Alloc(store[obj].tag, n, store[obj].aux);
      var j := 0;
      while j < n
        invariant j <= n && r == |before| && |store| == r + 1 && before <= store
        invariant Holds(store, r, v.tag, v.aux, n)
        invariant forall k :: 0 <= k < j ==> store[r].fields[k] == before[obj].fields[k]
      {
        SetField(r, j, store[obj].fields[j]);
        j := j + 1;
      }
      SetField(r, i, x);
      FilledDenotes(before, store, obj, r, i, x, v, xv);
    }

    /** Run a continuation on `x`. */
    method Resume(c: nat, x: nat, ghost k: Cont, ghost v: Value) returns (r: nat)
      requires Valid() && store != [] && DenotesK(store, c, k) && Denotes(store, x, v)
      modifies this
      ensures old(store) <= store && Denotes(store, r, Effects.Resume(code, k, v))
      decreases k
    {
      if c == 0 {
        return x;
      }
      ghost var before := store;
      ghost var prior := k.prior;
      var resumed := Resume(store[c].fields[0], x, prior, v);
      ghost var rv := Effects.Resume(code, prior, v);
      StillDenotesK(before, store, c, k);
      if store[c].aux == PERFORM_APPLY {
        r := PerformIdx(store[store[c].fields[1]].aux, resumed, rv);
      } else if store[c].aux == COMPOSE_APPLY {
        var fixed := store[c].fields[2];
        if store[store[c].fields[1]].aux == 0 {
          r := App(fixed, resumed, k.f, rv);
        } else {
          r := App(resumed, fixed, rv, k.a);
        }
      } else {
        var rebuilt := Rebuild(store[c].fields[1], store[store[c].fields[2]].aux, resumed, k.obj, rv);
        r := ConBubble(rebuilt, Filled(k.obj, k.field, rv));
      }
    }

    /** Resuming the same continuation again leaves the first result as it was. */
    method ResumeTwice(c: nat, x: nat, y: nat, ghost k: Cont, ghost v: Value, ghost w: Value) returns (r: nat, s: nat)
      requires Valid() && store != [] && DenotesK(store, c, k) && Denotes(store, x, v) && Denotes(store, y, w)
      modifies this
      ensures old(store) <= store && DenotesK(store, c, k)
      ensures Denotes(store, r, Effects.Resume(code, k, v)) && Denotes(store, s, Effects.Resume(code, k, w))
    {
      ghost var before := store;
      r := Resume(c, x, k, v);
      ghost var between := store;
      StillDenotesK(before, between, c, k);
      StillDenotes(before, between, y, w);
      s := Resume(c, y, k, w);
      StillDenotesK(between, store, c, k);
      StillDenotes(between, store, r, Effects.Resume(code, k, v));
    }

    /** Answer a node's operations from a script until a value is left or an operation goes unanswered:
        the operations asked, with the addresses of their arguments, and where it ended. */
    method Drive(a: nat, script: seq<nat>, ghost v: Value, ghost answers: seq<Value>)
        returns (trace: seq<(nat, nat)>, end: nat, used: nat)
      requires Valid() && store != [] && Denotes(store, a, v) && AllDenote(store, script, answers)
      modifies this
      ensures old(store) <= store && used <= |script|
      ensures Shows(store, trace, end, used, answers, Effects.Drive(code, v, answers))
    {
      hide Driving, Effects.Drive, Effects.Resume, Shows;
      ghost var now, asked: seq<Request> := v, [];
      trace, end, used := [], a, 0;
      DrivingStarts(code, store, v, answers);
      while used < |script|
        invariant used <= |script| && old(store) <= store && AllDenote(store, script, answers)
        invariant Denotes(store, end, now) && Driving(code, store, v, answers, trace, asked, used, now)
      {
        var stuck := IsNode(end);
        if !stuck {
          break;
        }
        ghost var earlier, node := store, now;
        var op, arg := store[end].aux, store[end].fields[0];
        end := Resume(store[end].fields[1], script[used], node.k, answers[used]);
        StillAllDenote(earlier, store, script, answers);
        now := Effects.Resume(code, node.k, answers[used]);
        DrivingGoesOn(code, earlier, store, v, answers, trace, asked, used, node, arg);
        trace := trace + [(op, arg)];
        asked := asked + [Request(node.op, node.arg)];
        used := used + 1;
      }
      DrivingEnds(code, store, v, answers, trace, asked, used, now, end);
    }
  }

  /** Part of a run: the operations in `asked` were answered, and `now` is what is left to drive. */
  ghost predicate Driving(code: Code, store: seq<Obj>, v: Value, answers: seq<Value>, trace: seq<(nat, nat)>,
                          asked: seq<Request>, used: nat, now: Value) {
    used == |trace| <= |answers| && AllAsked(store, trace, asked)
    && var later := Drive(code, now, answers[used..]);
       Drive(code, v, answers) == Run(asked + later.trace, later.end)
  }

  lemma DrivingStarts(code: Code, store: seq<Obj>, v: Value, answers: seq<Value>)
    ensures Driving(code, store, v, answers, [], [], 0, v)
  {
    hide Drive;
    assert answers[0..] == answers;
    assert [] + Drive(code, v, answers).trace == Drive(code, v, answers).trace;
  }

  lemma DrivingGoesOn(code: Code, store: seq<Obj>, later: seq<Obj>, v: Value, answers: seq<Value>,
                      trace: seq<(nat, nat)>, asked: seq<Request>, used: nat, node: Value, arg: nat)
    requires Driving(code, store, v, answers, trace, asked, used, node) && node.OpNode? && used < |answers|
    requires store <= later && Denotes(store, arg, node.arg)
    ensures Driving(code, later, v, answers, trace + [(node.op, arg)], asked + [Request(node.op, node.arg)], used + 1,
                    Resume(code, node.k, answers[used]))
  {
    hide Resume, Denotes;
    var left := answers[used..];
    assert left[1..] == answers[used + 1..] && left[0] == answers[used];
    var run := Drive(code, Resume(code, node.k, left[0]), left[1..]);
    assert Drive(code, node, left) == Run([Request(node.op, node.arg)] + run.trace, run.end);
    hide Drive;
    assert asked + ([Request(node.op, node.arg)] + run.trace) == (asked + [Request(node.op, node.arg)]) + run.trace;
    StillAsked(store, later, trace, asked);
    StillDenotes(store, later, arg, node.arg);
  }

  lemma DrivingEnds(code: Code, store: seq<Obj>, v: Value, answers: seq<Value>, trace: seq<(nat, nat)>,
                    asked: seq<Request>, used: nat, now: Value, end: nat)
    requires Driving(code, store, v, answers, trace, asked, used, now) && Denotes(store, end, now)
    requires now.OpNode? ==> used == |answers|
    ensures Shows(store, trace, end, used, answers, Drive(code, v, answers))
  {
    assert asked + [] == asked;
    if now.OpNode? {
      assert Denotes(store, end, OpNode(now.op, now.arg, now.k));
    }
  }

  /** Addresses of the values of a script. */
  ghost predicate AllDenote(store: seq<Obj>, script: seq<nat>, answers: seq<Value>) {
    |script| == |answers| && forall i :: 0 <= i < |script| ==> Denotes(store, script[i], answers[i])
  }

  ghost predicate AllAsked(store: seq<Obj>, trace: seq<(nat, nat)>, asked: seq<Request>) {
    |trace| == |asked|
    && forall i :: 0 <= i < |trace| ==> trace[i].0 == asked[i].op && Denotes(store, trace[i].1, asked[i].arg)
  }

  /** A trace and an end address show a run: the same operations, and the same value or pending one. */
  ghost predicate Shows(store: seq<Obj>, trace: seq<(nat, nat)>, end: nat, used: nat, answers: seq<Value>, run: Run) {
    AllAsked(store, trace, run.trace) && used == |trace| <= |answers|
    && match run.end
       case Final(v, rest) => Denotes(store, end, v) && rest == answers[used..]
       case Pending(request) =>
         exists k :: Denotes(store, end, OpNode(request.op, request.arg, k))
  }

  lemma StillAllDenote(store: seq<Obj>, later: seq<Obj>, script: seq<nat>, answers: seq<Value>)
    requires AllDenote(store, script, answers) && store <= later
    ensures AllDenote(later, script, answers)
  {
    forall i | 0 <= i < |script| ensures Denotes(later, script[i], answers[i]) {
      StillDenotes(store, later, script[i], answers[i]);
    }
  }

  lemma StillAsked(store: seq<Obj>, later: seq<Obj>, trace: seq<(nat, nat)>, asked: seq<Request>)
    requires AllAsked(store, trace, asked) && store <= later
    ensures AllAsked(later, trace, asked)
  {
    forall i | 0 <= i < |trace| ensures Denotes(later, trace[i].1, asked[i].arg) {
      StillDenotes(store, later, trace[i].1, asked[i].arg);
    }
  }

  lemma ImplementsHere(run: Compile, code: Code, store: seq<Obj>, f: nat, a: nat, fv: Value, av: Value)
    requires Implements(run, code) && Denotes(store, f, fv) && Denotes(store, a, av)
    ensures store <= run(store, f, a).0 && Denotes(run(store, f, a).0, run(store, f, a).1, code(fv, av))
  {}

  lemma FirstNodeIs(fs: seq<Value>, i: nat)
    requires i < |fs| && fs[i].OpNode? && forall j :: 0 <= j < i ==> !fs[j].OpNode?
    ensures FirstNode(fs) == i
  {
    var first := FirstNode(fs);
    assert !(first < i) && !(i < first);
  }

  lemma FilledDenotes(store: seq<Obj>, later: seq<Obj>, obj: nat, r: nat, i: nat, x: nat, v: Value, xv: Value)
    requires store <= later && Denotes(store, obj, v) && v.Data? && i < |v.fields| && Denotes(store, x, xv)
    requires Holds(later, r, v.tag, v.aux, |v.fields|) && later[r].fields == store[obj].fields[i := x]
    ensures Denotes(later, r, Filled(v, i, xv))
  {
    var filled := v.fields[i := xv];
    forall j | 0 <= j < |filled| ensures Denotes(later, later[r].fields[j], filled[j]) {
      if j == i {
        StillDenotes(store, later, x, xv);
      } else {
        StillDenotes(store, later, store[obj].fields[j], v.fields[j]);
      }
    }
  }
}
