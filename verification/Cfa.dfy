/** The whole-program closure-flow graph: its nodes, the constraints each construct contributes, and
    what it means for a solution to satisfy them. */
module Cfa {
  import opened Basics
  import opened Values
  import opened CirLang
  import opened AnfLang

  type Node = nat

  /** A flat lattice: nothing yet, exactly one literal computation, or anything. */
  datatype ConstLit = Bottom | Just(lit: Comp) | Top {
    function Join(other: ConstLit): (r: ConstLit)
      ensures Leq(r) && other.Leq(r)
      ensures forall u: ConstLit :: Leq(u) && other.Leq(u) ==> r.Leq(u)
    {
      if other.Bottom? || this == other then this
      else if Bottom? then other
      else Top
    }

    predicate Leq(other: ConstLit) {
      Bottom? || this == other || other.Top?
    }
  }

  /** What a node may hold: closures of which functions, tuples built where, closures built where,
      something unanalyzable, a single literal. */
  datatype Av = Av(fns: set<FName>, sites: set<Node>, open: bool, cloSites: set<Node>, lit: ConstLit) {
    function Join(other: Av): (r: Av)
      ensures Leq(r) && other.Leq(r)
      ensures forall u: Av :: Leq(u) && other.Leq(u) ==> r.Leq(u)
    {
      Av(fns + other.fns, sites + other.sites, open || other.open, cloSites + other.cloSites, lit.Join(other.lit))
    }

    predicate Leq(other: Av) {
      && fns <= other.fns && sites <= other.sites && (open ==> other.open)
      && cloSites <= other.cloSites && lit.Leq(other.lit)
    }
  }

  const EMPTY := Av({}, {}, false, {}, Bottom)

  datatype Cstr =
    | Copy(to: Node, from: Node)
    | Closure(node: Node, name: FName)
    | Site(node: Node)
    | ClosureSite(node: Node)
    | Open(node: Node)
    | Literal(node: Node, lit: Comp)
    | NotLit(node: Node)
    | Proj(to: Node, tup: Node, idx: nat)
    | Call(res: Node, head: Node, arg: Node)
    | GlobalCall(res: Node, callee: nat, arg: Node)
    | Escape(node: Node)

  datatype CloSite = CloSite(name: FName, caps: seq<Node>)

  /** The analyzer's state: it grows while the program is traversed. */
  datatype Flow = Flow(
    n: nat, param: seq<Node>, ret: seq<Node>, entryRet: Node, openNode: Node, index: map<FName, nat>,
    envSlot: map<(nat, nat), Node>, fields: map<Node, seq<Node>>, cloFields: map<Node, CloSite>,
    cstrs: seq<Cstr>, heads: seq<Node>)
  {
    function Emit(c: Cstr): Flow {
      this.(cstrs := cstrs + [c])
    }

    function Fresh(): Flow {
      this.(n := n + 1)
    }

    /** The function whose parameter and return nodes are at `i`. */
    function RetNode(cur: Option<nat>): Node {
      if cur.Some? && cur.value < |ret| then ret[cur.value] else entryRet
    }
  }

  // ---- constraint generation ----

  /** The node of environment slot `slot` of function `func`, created on demand. */
  function EnvSlot(f: Flow, func: nat, slot: nat): (r: (Flow, Node))
    ensures (func, slot) in r.0.envSlot && r.0.envSlot[(func, slot)] == r.1
  {
    if (func, slot) in f.envSlot then (f, f.envSlot[(func, slot)])
    else (f.Fresh().(envSlot := f.envSlot[(func, slot) := f.n]), f.n)
  }

  /** The node an atom reads in function `cur`; `scope` lists the variables' nodes, innermost first. */
  function AtomNode(f: Flow, a: Atom, scope: seq<Node>, cur: Option<nat>): (Flow, Node) {
    match a
    case Var(i) => (f, if i < |scope| then scope[i] else f.openNode)
    case EnvRef(k) => if cur.Some? then EnvSlot(f, cur.value, k) else (f, f.openNode)
    case Global(_) => (f, f.openNode)
    case Erased => (f, f.openNode)
  }

  function AtomNodes(f: Flow, atoms: seq<Atom>, scope: seq<Node>, cur: Option<nat>): (r: (Flow, seq<Node>))
    ensures |r.1| == |atoms|
  {
    if atoms == [] then (f, [])
    else
      var front := AtomNodes(f, atoms[..|atoms| - 1], scope, cur);
      var last := AtomNode(front.0, atoms[|atoms| - 1], scope, cur);
      (last.0, front.1 + [last.1])
  }

  /** Captures of a known function: each flows into the function's environment slot. */
  function Captures(f: Flow, func: nat, caps: seq<Atom>, scope: seq<Node>, cur: Option<nat>): (r: (Flow, seq<Node>))
    ensures |r.1| == |caps|
  {
    if caps == [] then (f, [])
    else
      var k := |caps| - 1;
      var front := Captures(f, func, caps[..k], scope, cur);
      var from := AtomNode(front.0, caps[k], scope, cur);
      var to := EnvSlot(from.0, func, k);
      (to.0.Emit(Copy(to.1, from.1)), front.1 + [from.1])
  }

  /** Every atom's value escapes. */
  function Escapes(f: Flow, atoms: seq<Atom>, scope: seq<Node>, cur: Option<nat>): Flow {
    if atoms == [] then f
    else
      var a := AtomNode(Escapes(f, atoms[..|atoms| - 1], scope, cur), atoms[|atoms| - 1], scope, cur);
      a.0.Emit(Escape(a.1))
  }

  /** A tracked literal: a machine literal or a constructor without arguments. */
  predicate IsLiteral(c: Comp) {
    c.Prim? && c.args == [] && (c.op.LitOp? || c.op.ConOp?)
  }

  function GenComp(f: Flow, c: Comp, node: Node, scope: seq<Node>, cur: Option<nat>): Flow {
    match c
    case Use(a) =>
      var from := AtomNode(f, a, scope, cur);
      from.0.Emit(Copy(node, from.1))
    case MkClosure(name, caps) =>
      var g := f.Emit(Closure(node, name)).Emit(NotLit(node));
      if name in g.index then
        var r := Captures(g, g.index[name], caps, scope, cur);
        r.0.(cloFields := r.0.cloFields[node := CloSite(name, r.1)]).Emit(ClosureSite(node))
      else Escapes(g, caps, scope, cur)
    case Call(h, a) =>
      var head := AtomNode(f, h, scope, cur);
      var arg := AtomNode(head.0, a, scope, cur);
      arg.0.Emit(Cstr.Call(node, head.1, arg.1)).(heads := arg.0.heads + [head.1])
    case CallGlobal(name, a) => GenGlobal(f, name, a, node, scope, cur)
    case CallKnown(_, _, _) => f
    case Prim(op, args) => GenPrim(f, op, args, node, scope, cur)
  }

  function GenGlobal(f: Flow, name: FName, a: Atom, res: Node, scope: seq<Node>, cur: Option<nat>): Flow {
    var arg := AtomNode(f, a, scope, cur);
    if name in f.index then arg.0.Emit(GlobalCall(res, f.index[name], arg.1))
    else arg.0.Emit(Open(res)).Emit(Escape(arg.1))
  }

  function GenPrim(f: Flow, op: PrimOp, args: seq<Atom>, node: Node, scope: seq<Node>, cur: Option<nat>): Flow {
    match op
    case TupleOp =>
      var r := AtomNodes(f.Emit(Site(node)).Emit(NotLit(node)), args, scope, cur);
      r.0.(fields := r.0.fields[node := r.1])
    case ProjOp(i) =>
      if |args| != 1 then f.Emit(NotLit(node))
      else
        var tup := AtomNode(f, args[0], scope, cur);
        tup.0.Emit(Cstr.Proj(node, tup.1, i))
    case ConOp(_) =>
      if args == [] then f.Emit(Literal(node, Comp.Prim(op, args)))
      else Escapes(f.Emit(NotLit(node)), args, scope, cur)
    case LitOp(_) => f.Emit(Literal(node, Comp.Prim(op, [])))
    case IntOp(_) => f.Emit(NotLit(node))
  }

  /** Fresh open nodes for an arm's field binders, innermost first. */
  function Binders(f: Flow, m: nat): (r: (Flow, seq<Node>))
    ensures |r.1| == m
  {
    if m == 0 then (f, [])
    else
      var front := Binders(f, m - 1);
      (front.0.Fresh().Emit(Open(front.0.n)), [front.0.n] + front.1)
  }

  function GenTail(f: Flow, t: Tail, scope: seq<Node>, cur: Option<nat>): Flow
    decreases t, 1
  {
    match t
    case Ret(a) =>
      var from := AtomNode(f, a, scope, cur);
      from.0.Emit(Copy(f.RetNode(cur), from.1))
    case Let(c, rest) => GenTail(GenComp(f.Fresh(), c, f.n, scope, cur), rest, [f.n] + scope, cur)
    case TailCall(h, a) =>
      var head := AtomNode(f, h, scope, cur);
      var arg := AtomNode(head.0, a, scope, cur);
      arg.0.Emit(Cstr.Call(f.RetNode(cur), head.1, arg.1)).(heads := arg.0.heads + [head.1])
    case TailCallGlobal(name, a) => GenGlobal(f, name, a, f.RetNode(cur), scope, cur)
    case TailCallKnown(_, _, _) => f
    case Jump(a) =>
      var from := AtomNode(f, a, scope, cur);
      if cur.Some? && cur.value < |f.param| then from.0.Emit(Copy(f.param[cur.value], from.1)) else from.0
    case Case(_, arms) => GenArms(f, arms, scope, cur)
    case IfZero(_, a, b) => GenTail(GenTail(f, a, scope, cur), b, scope, cur)
  }

  function GenArms(f: Flow, arms: seq<TailArm>, scope: seq<Node>, cur: Option<nat>): Flow
    decreases arms, 0
  {
    if arms == [] then f
    else
      var last := arms[|arms| - 1];
      var b := Binders(GenArms(f, arms[..|arms| - 1], scope, cur), last.binders);
      GenTail(b.0, last.body, b.1 + scope, cur)
  }

  /** The bodies of the first `i` functions, each in the scope of its parameter. */
  function GenFuncs(f: Flow, funcs: seq<AnfFunc>, i: nat): Flow
    requires i <= |funcs|
  {
    if i == 0 then f
    else
      var g := GenFuncs(f, funcs, i - 1);
      GenTail(g, funcs[i - 1].body, if i - 1 < |g.param| then [g.param[i - 1]] else [], Some(i - 1))
  }

  /** Parameters and returns first, then the entry's return and the shared open node. */
  function Start(funcs: seq<AnfFunc>): Flow {
    var k := |funcs|;
    Flow(2 * k + 2, seq(k, i requires 0 <= i < k => i), seq(k, i requires 0 <= i < k => k + i), 2 * k, 2 * k + 1,
         IndexOf(funcs), map[], map[], map[], [Open(2 * k + 1)], [])
  }

  /** Each function's position, the last one where a name repeats. */
  function IndexOf(funcs: seq<AnfFunc>): (r: map<FName, nat>)
    ensures forall g :: g in r ==> r[g] < |funcs| && funcs[r[g]].name == g
    ensures forall f :: f in funcs ==> f.name in r
  {
    if funcs == [] then map[]
    else IndexOf(funcs[..|funcs| - 1])[funcs[|funcs| - 1].name := |funcs| - 1]
  }

  function Build(p: AnfProgram): Flow {
    GenTail(GenFuncs(Start(p.funcs), p.funcs, |p.funcs|), p.entry, [], None)
  }

  // ---- solutions ----

  type Solution = seq<Av>

  function At(sol: Solution, n: Node): Av {
    if n < |sol| then sol[n] else EMPTY
  }

  ghost predicate LeqSol(a: Solution, b: Solution) {
    |a| == |b| && forall n :: 0 <= n < |a| ==> a[n].Leq(b[n])
  }

  predicate IsOpen(v: Av) {
    v.open && v.lit.Top?
  }

  /** The nodes an escaping value reaches: its own, and the fields of its tuple sites. */
  ghost predicate Reaches(f: Flow, sol: Solution, path: seq<Node>, node: Node) {
    && |path| > 0 && path[0] == node
    && forall k :: 0 <= k < |path| - 1 ==> StepsTo(f, sol, path[k], path[k + 1])
  }

  ghost predicate StepsTo(f: Flow, sol: Solution, a: Node, b: Node) {
    exists s :: s in At(sol, a).sites && s in f.fields && b in f.fields[s]
  }

  predicate ParamsOpen(f: Flow, sol: Solution, v: Av) {
    forall l :: l in v.fns && l in f.index && f.index[l] < |f.param| ==> At(sol, f.param[f.index[l]]).open
  }

  /** The parameter of every function an escaping value reaches is open. */
  ghost predicate Escaped(f: Flow, sol: Solution, node: Node) {
    forall path :: Reaches(f, sol, path, node) ==> ParamsOpen(f, sol, At(sol, path[|path| - 1]))
  }

  predicate ProjFlows(f: Flow, sol: Solution, to: Av, s: Node, idx: nat) {
    s in f.fields ==> if idx < |f.fields[s]| then At(sol, f.fields[s][idx]).Leq(to) else to.open
  }

  predicate CallFlows(f: Flow, sol: Solution, callee: nat, res: Node, arg: Node) {
    callee < |f.param| && callee < |f.ret| ==>
      At(sol, arg).Leq(At(sol, f.param[callee])) && At(sol, f.ret[callee]).Leq(At(sol, res))
  }

  ghost predicate Sat(f: Flow, sol: Solution, c: Cstr) {
    match c
    case Copy(to, from) => At(sol, from).Leq(At(sol, to))
    case Closure(node, name) => name in At(sol, node).fns
    case Site(node) => node in At(sol, node).sites
    case ClosureSite(node) => node in At(sol, node).cloSites
    case Open(node) => IsOpen(At(sol, node))
    case Literal(node, lit) => Just(lit).Leq(At(sol, node).lit)
    case NotLit(node) => At(sol, node).lit.Top?
    case Proj(to, tup, idx) =>
      && (At(sol, tup).open ==> IsOpen(At(sol, to)))
      && forall s :: s in At(sol, tup).sites ==> ProjFlows(f, sol, At(sol, to), s, idx)
    case Call(res, head, arg) =>
      && (forall l :: l in At(sol, head).fns && l in f.index ==> CallFlows(f, sol, f.index[l], res, arg))
      && (At(sol, head).open ==> IsOpen(At(sol, res)) && Escaped(f, sol, arg))
    case GlobalCall(res, callee, arg) => CallFlows(f, sol, callee, res, arg)
    case Escape(node) => Escaped(f, sol, node)
  }

  ghost predicate Solves(f: Flow, sol: Solution) {
    |sol| == f.n && forall c :: c in f.cstrs ==> Sat(f, sol, c)
  }

  ghost predicate Least(f: Flow, sol: Solution) {
    Solves(f, sol) && forall other :: Solves(f, other) ==> LeqSol(sol, other)
  }

  /** There is only one least solution. */
  lemma LeastIsOne(f: Flow, a: Solution, b: Solution)
    requires Least(f, a) && Least(f, b)
    ensures a == b
  {
    hide Solves;
    assert LeqSol(a, b) && LeqSol(b, a);
    forall n | 0 <= n < |a| ensures a[n] == b[n] { assert a[n].Leq(b[n]) && b[n].Leq(a[n]); }
  }
}
