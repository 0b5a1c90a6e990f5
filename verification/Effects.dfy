/** Bubbling effects. A computation is either a value or an operation node carrying its argument and a
    continuation; applying, performing and constructing on a node push the pending work onto its
    continuation. Driving the node with answers is left-to-right evaluation. */
module Effects {
  const CON: nat := 0
  const TUPLE: nat := 1
  const CLOSURE: nat := 2
  const INT: nat := 5
  const OPNODE: nat := 6

  datatype Value =
    | Null
    | Data(tag: nat, aux: nat, fields: seq<Value>)
    | Closure(code: nat, captured: seq<Value>)
    | OpNode(op: nat, arg: Value, k: Cont)

  /** A continuation: nothing, or a pending perform, application or construction after an earlier one. */
  datatype Cont =
    | Identity
    | PerformK(prior: Cont, op: nat)
    | ArgK(prior: Cont, f: Value)
    | FunK(prior: Cont, a: Value)
    | RebuildK(prior: Cont, obj: Value, field: nat)

  /** What calling compiled code with a function value and an argument gives; possibly a node. */
  type Code = (Value, Value) -> Value

  // ---- the runtime's operations ----

  function Perform(op: nat, arg: Value): Value {
    if arg.OpNode? then OpNode(arg.op, arg.arg, PerformK(arg.k, op)) else OpNode(op, arg, Identity)
  }

  function App(code: Code, f: Value, a: Value): Value {
    if f.OpNode? then OpNode(f.op, f.arg, FunK(f.k, a))
    else if a.OpNode? then OpNode(a.op, a.arg, ArgK(a.k, f))
    else code(f, a)
  }

  /** The first field holding a node, or the number of fields. */
  function FirstNode(fs: seq<Value>): (i: nat)
    ensures i <= |fs| && (forall j :: 0 <= j < i ==> !fs[j].OpNode?) && (i < |fs| ==> fs[i].OpNode?)
  {
    if fs == [] || fs[0].OpNode? then 0 else 1 + FirstNode(fs[1..])
  }

  /** Only constructors and tuples wait for their fields; a closure may capture a suspended computation. */
  function Bubble(obj: Value): (r: Value) {
    if !obj.Data? || (obj.tag != CON && obj.tag != TUPLE) then obj
    else
      var i := FirstNode(obj.fields);
      if i == |obj.fields| then obj
      else
        var node := obj.fields[i];
        OpNode(node.op, node.arg, RebuildK(node.k, obj, i))
  }

  function Filled(obj: Value, i: nat, v: Value): Value {
    if obj.Data? && i < |obj.fields| then obj.(fields := obj.fields[i := v]) else obj
  }

  /** Resume a continuation with a value. */
  function Resume(code: Code, k: Cont, v: Value): Value {
    match k
    case Identity => v
    case PerformK(earlier, op) => Perform(op, Resume(code, earlier, v))
    case ArgK(earlier, f) => App(code, f, Resume(code, earlier, v))
    case FunK(earlier, a) => App(code, Resume(code, earlier, v), a)
    case RebuildK(earlier, obj, i) => Bubble(Filled(obj, i, Resume(code, earlier, v)))
  }

  // ---- driving ----

  datatype Request = Request(op: nat, arg: Value)

  /** The operations asked for and answered, then a value and the answers left over, or an operation
      no answer was left for. */
  datatype Run = Run(trace: seq<Request>, end: End)

  datatype End = Final(value: Value, rest: seq<Value>) | Pending(request: Request)

  /** Answer a node's operation, resume it, and go on. */
  function Drive(code: Code, v: Value, script: seq<Value>): (r: Run)
    ensures r.end.Final? ==> !r.end.value.OpNode? && |r.trace| + |r.end.rest| == |script|
    ensures r.end.Pending? ==> |r.trace| == |script|
    decreases |script|
  {
    if !v.OpNode? then Run([], Final(v, script))
    else if script == [] then Run([], Pending(Request(v.op, v.arg)))
    else
      var later := Drive(code, Resume(code, v.k, script[0]), script[1..]);
      Run([Request(v.op, v.arg)] + later.trace, later.end)
  }

  /** Sequencing: the second run starts with the answers the first left over. */
  function After(first: Run, second: Run): Run {
    Run(first.trace + second.trace, second.end)
  }

  // ---- direct evaluation ----

  /** A nest of calls, operations and constructions over values and compiled code. */
  datatype Exp =
    | Val(value: Value)
    | Call(f: Exp, a: Exp)
    | Do(op: nat, a: Exp)
    | Make(tuple: bool, aux: nat, fields: seq<Exp>)

  function Tag(tuple: bool): nat {
    if tuple then TUPLE else CON
  }

  /** What the runtime computes for an expression: every operand first, nodes included, then the
      operation on them. */
  function Compute(code: Code, e: Exp): Value
    decreases e, 1
  {
    match e
    case Val(v) => v
    case Call(f, a) => App(code, Compute(code, f), Compute(code, a))
    case Do(op, a) => Perform(op, Compute(code, a))
    case Make(tuple, aux, es) => Bubble(Data(Tag(tuple), aux, ComputeAll(code, es)))
  }

  function ComputeAll(code: Code, es: seq<Exp>): (vs: seq<Value>)
    ensures |vs| == |es|
    decreases es, 0
  {
    if es == [] then [] else [Compute(code, es[0])] + ComputeAll(code, es[1..])
  }

  /** Left-to-right evaluation in which an operation is a call answered from the script: no node, no
      continuation. */
  function Direct(code: Code, e: Exp, script: seq<Value>): Run
    decreases e, 1
  {
    match e
    case Val(v) => Drive(code, v, script)
    case Call(f, a) =>
      var rf := Direct(code, f, script);
      if rf.end.Pending? then rf
      else
        var ra := Direct(code, a, rf.end.rest);
        After(rf, Called(code, rf.end.value, ra))
    case Do(op, a) => Asked(code, op, Direct(code, a, script))
    case Make(tuple, aux, es) => Made(Tag(tuple), aux, DirectAll(code, es, script))
  }

  /** The call of a function value, once its argument has run. */
  function Called(code: Code, f: Value, ra: Run): Run {
    if ra.end.Pending? then ra else After(ra, Drive(code, code(f, ra.end.value), ra.end.rest))
  }

  /** An operation, once its argument has run: its result is its answer. */
  function Asked(code: Code, op: nat, ra: Run): Run {
    if ra.end.Pending? then ra else After(ra, Ask(code, Request(op, ra.end.value), ra.end.rest))
  }

  function Made(tag: nat, aux: nat, rs: RunAll): Run {
    Run(rs.trace, if rs.end.Stuck? then Pending(rs.end.request) else Final(Data(tag, aux, rs.end.values), rs.end.rest))
  }

  datatype RunAll = RunAll(trace: seq<Request>, end: EndAll)

  datatype EndAll = Done(values: seq<Value>, rest: seq<Value>) | Stuck(request: Request)

  function DirectAll(code: Code, es: seq<Exp>, script: seq<Value>): RunAll
    decreases es, 0
  {
    if es == [] then RunAll([], Done([], script))
    else
      var first := Direct(code, es[0], script);
      if first.end.Pending? then Stopped(first) else AndThen(first, DirectAll(code, es[1..], first.end.rest))
  }

  function Stopped(first: Run): RunAll
    requires first.end.Pending?
  {
    RunAll(first.trace, Stuck(first.end.request))
  }

  function AndThen(first: Run, others: RunAll): RunAll
    requires first.end.Final?
  {
    RunAll(first.trace + others.trace,
           if others.end.Stuck? then others.end else Done([first.end.value] + others.end.values, others.end.rest))
  }

  function Ask(code: Code, request: Request, script: seq<Value>): Run {
    if script == [] then Run([], Pending(request))
    else After(Run([request], Pending(request)), Drive(code, script[0], script[1..]))
  }

  // ---- each operation is a bind ----

  function DriveCall(code: Code, f: Value, a: Value, script: seq<Value>): Run {
    var rf := Drive(code, f, script);
    if rf.end.Pending? then rf else After(rf, Called(code, rf.end.value, Drive(code, a, rf.end.rest)))
  }

  lemma AskFirst(code: Code, v: Value, script: seq<Value>)
    requires v.OpNode? && script != []
    ensures Drive(code, v, script) == After(Run([Request(v.op, v.arg)], Pending(Request(v.op, v.arg))),
                                            Drive(code, Resume(code, v.k, script[0]), script[1..]))
  {}

  lemma {:induction false} ArgBinds(code: Code, f: Value, a: Value, script: seq<Value>)
    requires !f.OpNode?
    ensures Drive(code, App(code, f, a), script) == Called(code, f, Drive(code, a, script))
    decreases |script|
  {
    if a.OpNode? && script != [] {
      ArgBinds(code, f, Resume(code, a.k, script[0]), script[1..]);
      var later := Drive(code, Resume(code, a.k, script[0]), script[1..]);
      var ask := Run([Request(a.op, a.arg)], Pending(Request(a.op, a.arg)));
      hide Resume, Drive;
      AskFirst(code, a, script);
      AskFirst(code, App(code, f, a), script);
      CalledLater(code, f, ask, later);
    }
  }

  lemma CalledLater(code: Code, f: Value, first: Run, later: Run)
    ensures Called(code, f, After(first, later)) == After(first, Called(code, f, later))
  {
    hide Drive;
    if later.end.Final? {
      AfterAssoc(first, later, Drive(code, code(f, later.end.value), later.end.rest));
    }
  }

  lemma AfterAssoc(a: Run, b: Run, c: Run)
    ensures After(After(a, b), c) == After(a, After(b, c))
  {
    assert (a.trace + b.trace) + c.trace == a.trace + (b.trace + c.trace);
  }

  /** Applying runs the function to a value, then the argument, then the call. */
  lemma {:induction false} AppBinds(code: Code, f: Value, a: Value, script: seq<Value>)
    ensures Drive(code, App(code, f, a), script) == DriveCall(code, f, a, script)
    decreases |script|
  {
    if !f.OpNode? {
      hide Drive, Called;
      ArgBinds(code, f, a, script);
      DriveValue(code, f, script);
      assert [] + Called(code, f, Drive(code, a, script)).trace == Called(code, f, Drive(code, a, script)).trace;
    } else if script != [] {
      var resumed := Resume(code, f.k, script[0]);
      AppBinds(code, resumed, a, script[1..]);
      var later := Drive(code, resumed, script[1..]);
      var ask := Run([Request(f.op, f.arg)], Pending(Request(f.op, f.arg)));
      hide Drive, Called;
      AskFirst(code, f, script);
      AskFirst(code, App(code, f, a), script);
      if later.end.Final? {
        AfterAssoc(ask, later, Called(code, later.end.value, Drive(code, a, later.end.rest)));
      }
    }
  }

  lemma DriveValue(code: Code, v: Value, script: seq<Value>)
    requires !v.OpNode?
    ensures Drive(code, v, script) == Run([], Final(v, script))
  {}

  /** Performing runs the argument to a value, then asks. */
  lemma {:induction false} PerformBinds(code: Code, op: nat, a: Value, script: seq<Value>)
    ensures Drive(code, Perform(op, a), script) == Asked(code, op, Drive(code, a, script))
    decreases |script|
  {
    if a.OpNode? && script != [] {
      var resumed := Resume(code, a.k, script[0]);
      PerformBinds(code, op, resumed, script[1..]);
      var later := Drive(code, resumed, script[1..]);
      var ask := Run([Request(a.op, a.arg)], Pending(Request(a.op, a.arg)));
      hide Drive, Ask;
      AskFirst(code, a, script);
      AskFirst(code, Perform(op, a), script);
      if later.end.Final? {
        AfterAssoc(ask, later, Ask(code, Request(op, later.end.value), later.end.rest));
      }
    }
  }

  // ---- construction ----

  function DriveAll(code: Code, vs: seq<Value>, script: seq<Value>): RunAll {
    if vs == [] then RunAll([], Done([], script))
    else
      var first := Drive(code, vs[0], script);
      if first.end.Pending? then Stopped(first) else AndThen(first, DriveAll(code, vs[1..], first.end.rest))
  }

  /** Fields without a node run to themselves. */
  lemma {:induction false} AllValues(code: Code, vs: seq<Value>, script: seq<Value>)
    requires FirstNode(vs) == |vs|
    ensures DriveAll(code, vs, script) == RunAll([], Done(vs, script))
  {
    hide Drive;
    if vs != [] {
      DriveValue(code, vs[0], script);
      AllValues(code, vs[1..], script);
      assert [vs[0]] + vs[1..] == vs;
    }
  }

  /** The first node among the fields is the first to ask, and its resumption takes its place. */
  lemma {:induction false} AllAsk(code: Code, vs: seq<Value>, script: seq<Value>)
    requires FirstNode(vs) < |vs|
    ensures var i := FirstNode(vs); var request := Request(vs[i].op, vs[i].arg);
      DriveAll(code, vs, script)
      == if script == [] then RunAll([], Stuck(request))
         else
           var later := DriveAll(code, vs[i := Resume(code, vs[i].k, script[0])], script[1..]);
           RunAll([request] + later.trace, later.end)
    decreases |vs|
  {
    hide Resume;
    var i := FirstNode(vs);
    if i == 0 {
      if script != [] {
        var later := Drive(code, Resume(code, vs[0].k, script[0]), script[1..]);
        AskFirst(code, vs[0], script);
        hide Drive;
        var resumed := vs[0 := Resume(code, vs[0].k, script[0])];
        assert resumed[1..] == vs[1..];
        var request := Request(vs[0].op, vs[0].arg);
        if later.end.Final? {
          var others := DriveAll(code, vs[1..], later.end.rest);
          assert ([request] + later.trace) + others.trace == [request] + (later.trace + others.trace);
        }
      }
    } else {
      hide Drive;
      DriveValue(code, vs[0], script);
      AllAsk(code, vs[1..], script);
      if script != [] {
        var resumed := Resume(code, vs[i].k, script[0]);
        DriveValue(code, vs[0], script[1..]);
        assert vs[i := resumed][1..] == vs[1..][i - 1 := resumed];
      }
    }
  }

  /** Constructing runs the fields from left to right. */
  lemma {:induction false} BubbleBinds(code: Code, tuple: bool, aux: nat, vs: seq<Value>, script: seq<Value>)
    ensures Drive(code, Bubble(Data(Tag(tuple), aux, vs)), script) == Made(Tag(tuple), aux, DriveAll(code, vs, script))
    decreases |script|
  {
    hide DriveAll;
    var i := FirstNode(vs);
    if i == |vs| {
      AllValues(code, vs, script);
    } else {
      AllAsk(code, vs, script);
      if script != [] {
        var resumed := vs[i := Resume(code, vs[i].k, script[0])];
        BubbleBinds(code, tuple, aux, resumed, script[1..]);
        AskFirst(code, Bubble(Data(Tag(tuple), aux, vs)), script);
        hide Drive;
      }
    }
  }

  // ---- main result ----

  /** Driving what the runtime computes for an expression asks the same operations, in the same order,
      and ends in the same value, as left-to-right evaluation in which operations are calls. */
  lemma {:induction false} BubblingIsDirect(code: Code, e: Exp, script: seq<Value>)
    ensures Drive(code, Compute(code, e), script) == Direct(code, e, script)
    decreases e, 1
  {
    hide Drive, Bubble, App, Perform, DriveAll, ComputeAll, DirectAll;
    match e
    case Val(_) =>
    case Call(f, a) =>
      AppBinds(code, Compute(code, f), Compute(code, a), script);
      BubblingIsDirect(code, f, script);
      var rf := Direct(code, f, script);
      if rf.end.Final? { BubblingIsDirect(code, a, rf.end.rest); }
    case Do(op, a) =>
      PerformBinds(code, op, Compute(code, a), script);
      BubblingIsDirect(code, a, script);
    case Make(tuple, aux, es) =>
      BubbleBinds(code, tuple, aux, ComputeAll(code, es), script);
      AllDirect(code, es, script);
  }

  lemma {:induction false} AllDirect(code: Code, es: seq<Exp>, script: seq<Value>)
    ensures DriveAll(code, ComputeAll(code, es), script) == DirectAll(code, es, script)
    decreases es, 0
  {
    hide Drive, Compute, Direct;
    if es != [] {
      BubblingIsDirect(code, es[0], script);
      var first := Direct(code, es[0], script);
      if first.end.Final? { AllDirect(code, es[1..], first.end.rest); }
    }
  }

  /** A node bound once and used in two places is a suspended operation, not an answer: it is asked
      twice, and each use gets its own answer. */
  lemma SharedNodeAsksTwice(code: Code, op: nat, arg: Value, x: Value, y: Value)
    requires !arg.OpNode? && !x.OpNode? && !y.OpNode?
    ensures var node := Perform(op, arg);
      Drive(code, Bubble(Data(TUPLE, 0, [node, node])), [x, y])
      == Run([Request(op, arg), Request(op, arg)], Final(Data(TUPLE, 0, [x, y]), []))
  {
    var node, request := Perform(op, arg), Request(op, arg);
    BubbleBinds(code, true, 0, [node, node], [x, y]);
    AnswersOnce(code, op, arg, x, [y]);
    AnswersOnce(code, op, arg, y, []);
    assert [x] + [y] == [x, y] && [node, node][1..] == [node] && [node][1..] == [];
    hide Drive, Bubble, Perform;
    assert DriveAll(code, [node], [y]) == AndThen(Run([request], Final(y, [])), RunAll([], Done([], [])));
    assert DriveAll(code, [node, node], [x, y])
        == AndThen(Run([request], Final(x, [y])), DriveAll(code, [node], [y]));
    assert [request] + ([request] + []) == [request, request] && [x] + ([y] + []) == [x, y];
    assert DriveAll(code, [node, node], [x, y]) == RunAll([request, request], Done([x, y], []));
  }

  lemma AnswersOnce(code: Code, op: nat, arg: Value, x: Value, rest: seq<Value>)
    requires !arg.OpNode? && !x.OpNode?
    ensures Drive(code, Perform(op, arg), [x] + rest) == Run([Request(op, arg)], Final(x, rest))
  {
    AskFirst(code, Perform(op, arg), [x] + rest);
    assert ([x] + rest)[1..] == rest;
    DriveValue(code, x, rest);
  }
}
