/** How precise the analysis is: in a program that reads nothing unknown and boxes nothing, no value is taken
    for unknown but by a projection out of range. */
module CfaPrecise {
  import opened Basics
  import opened Values
  import opened CirLang
  import opened AnfLang
  import opened Shapes
  import opened Cfa
  import opened CfaSound

  // ---- programs that read nothing unknown ----

  /** A variable in scope, or a capture inside a function. */
  predicate SealedAtom(a: Atom, depth: nat, inFunc: bool) {
    (a.Var? && a.i < depth) || (a.EnvRef? && inFunc)
  }

  predicate SealedAtoms(atoms: seq<Atom>, depth: nat, inFunc: bool) {
    forall k :: 0 <= k < |atoms| ==> SealedAtom(atoms[k], depth, inFunc)
  }

  predicate SealedComp(c: Comp, depth: nat, inFunc: bool) {
    match c
    case Use(a) => SealedAtom(a, depth, inFunc)
    case MkClosure(_, caps) => SealedAtoms(caps, depth, inFunc)
    case Call(f, a) => SealedAtom(f, depth, inFunc) && SealedAtom(a, depth, inFunc)
    case CallGlobal(_, a) => SealedAtom(a, depth, inFunc)
    case CallKnown(_, _, _) => false
    case Prim(op, args) => SealedAtoms(args, depth, inFunc) && Allowed(op, |args|, false)
  }

  /** No case arm binds a field. */
  predicate Sealed(t: Tail, depth: nat, inFunc: bool) {
    match t
    case Ret(a) => SealedAtom(a, depth, inFunc)
    case Let(c, rest) => SealedComp(c, depth, inFunc) && Sealed(rest, depth + 1, inFunc)
    case TailCall(f, a) => SealedAtom(f, depth, inFunc) && SealedAtom(a, depth, inFunc)
    case Jump(a) => SealedAtom(a, depth, inFunc)
    case TailCallGlobal(_, a) => SealedAtom(a, depth, inFunc)
    case TailCallKnown(_, _, _) => false
    case Case(_, arms) => forall k :: 0 <= k < |arms| ==> arms[k].binders == 0 && Sealed(arms[k].body, depth, inFunc)
    case IfZero(_, a, b) => Sealed(a, depth, inFunc) && Sealed(b, depth, inFunc)
  }

  ghost predicate SealedProgram(p: AnfProgram) {
    (forall f :: f in p.funcs ==> Sealed(f.body, 1, true)) && Sealed(p.entry, 0, false)
  }

  // ---- their graphs ----

  predicate Off(o: Node, ns: seq<Node>) {
    forall k :: 0 <= k < |ns| ==> ns[k] != o
  }

  /** The constraint does not touch the open node, and nothing escapes by it. */
  predicate CstrSealed(o: Node, c: Cstr) {
    match c
    case Copy(to, from) => to != o && from != o
    case Closure(node, _) => node != o
    case Site(node) => node != o
    case ClosureSite(node) => node != o
    case Open(node) => node == o
    case Literal(node, _) => node != o
    case NotLit(node) => node != o
    case Proj(to, tup, _) => to != o && tup != o
    case Call(res, head, arg) => res != o && head != o && arg != o
    case GlobalCall(res, _, arg) => res != o && arg != o
    case Escape(_) => false
  }

  ghost predicate SealedFlow(f: Flow) {
    && f.openNode < f.n && f.entryRet != f.openNode && Off(f.openNode, f.param) && Off(f.openNode, f.ret)
    && Off(f.openNode, f.heads) && (forall k :: k in f.envSlot ==> f.envSlot[k] != f.openNode)
    && (forall s :: s in f.fields ==> Off(f.openNode, f.fields[s]))
    && forall c :: c in f.cstrs ==> CstrSealed(f.openNode, c)
  }

  /** A sealed graph has grown to a sealed graph. */
  ghost predicate Stays(f: Flow, g: Flow) {
    SealedFlow(g) && g.openNode == f.openNode && g.n >= f.n && g.param == f.param && g.ret == f.ret && g.index == f.index
  }

  lemma EmitStays(f: Flow, g: Flow, c: Cstr)
    requires Stays(f, g) && CstrSealed(g.openNode, c)
    ensures Stays(f, g.Emit(c))
  {
    hide CstrSealed;
  }

  lemma FreshStays(f: Flow)
    requires SealedFlow(f)
    ensures Stays(f, f.Fresh()) && f.n != f.openNode
  {}

  lemma AtomStays(f: Flow, a: Atom, ns: seq<Node>, cur: Option<nat>)
    requires SealedFlow(f) && SealedAtom(a, |ns|, cur.Some?) && Off(f.openNode, ns)
    ensures Stays(f, AtomNode(f, a, ns, cur).0) && AtomNode(f, a, ns, cur).1 != f.openNode
  {
    hide CstrSealed;
  }

  lemma {:induction false} AtomsStay(f: Flow, atoms: seq<Atom>, ns: seq<Node>, cur: Option<nat>)
    requires SealedFlow(f) && SealedAtoms(atoms, |ns|, cur.Some?) && Off(f.openNode, ns)
    ensures Stays(f, AtomNodes(f, atoms, ns, cur).0) && Off(f.openNode, AtomNodes(f, atoms, ns, cur).1)
  {
    hide AtomNode, SealedFlow, SealedAtom;
    if atoms != [] {
      AtomsStay(f, atoms[..|atoms| - 1], ns, cur);
      AtomStays(AtomNodes(f, atoms[..|atoms| - 1], ns, cur).0, atoms[|atoms| - 1], ns, cur);
    }
  }

  lemma SlotStays(f: Flow, func: nat, slot: nat)
    requires SealedFlow(f)
    ensures Stays(f, EnvSlot(f, func, slot).0) && EnvSlot(f, func, slot).1 != f.openNode
  {
    hide CstrSealed;
  }

  lemma {:induction false} CapturesStay(f: Flow, func: nat, caps: seq<Atom>, ns: seq<Node>, cur: Option<nat>)
    requires SealedFlow(f) && SealedAtoms(caps, |ns|, cur.Some?) && Off(f.openNode, ns)
    ensures Stays(f, Cfa.Captures(f, func, caps, ns, cur).0)
  {
    hide AtomNode, EnvSlot, SealedFlow, SealedAtom;
    if caps != [] {
      var k := |caps| - 1;
      var front := Cfa.Captures(f, func, caps[..k], ns, cur);
      CapturesStay(f, func, caps[..k], ns, cur);
      AtomStays(front.0, caps[k], ns, cur);
      var from := AtomNode(front.0, caps[k], ns, cur);
      SlotStays(from.0, func, k);
      var to := EnvSlot(from.0, func, k);
      EmitStays(f, to.0, Copy(to.1, from.1));
    }
  }

  lemma ClosureStays(f: Flow, name: FName, caps: seq<Atom>, node: Node, ns: seq<Node>, cur: Option<nat>)
    requires SealedFlow(f) && SealedAtoms(caps, |ns|, cur.Some?) && Off(f.openNode, ns) && node != f.openNode && name in f.index
    ensures Stays(f, GenComp(f, Comp.MkClosure(name, caps), node, ns, cur))
  {
    hide AtomNode, Captures, SealedFlow;
    var g := f.Emit(Closure(node, name)).Emit(NotLit(node));
    EmitStays(f, f, Closure(node, name));
    EmitStays(f, f.Emit(Closure(node, name)), NotLit(node));
    CapturesStay(g, g.index[name], caps, ns, cur);
    var r := Captures(g, g.index[name], caps, ns, cur);
    SitesStay(f, r.0, node, CloSite(name, r.1));
    EmitStays(f, r.0.(cloFields := r.0.cloFields[node := CloSite(name, r.1)]), ClosureSite(node));
  }

  lemma SitesStay(f: Flow, g: Flow, node: Node, s: CloSite)
    requires Stays(f, g)
    ensures Stays(f, g.(cloFields := g.cloFields[node := s]))
  {
    hide CstrSealed;
  }

  lemma HeadStays(f: Flow, g: Flow, head: Node)
    requires Stays(f, g) && head != f.openNode
    ensures Stays(f, g.(heads := g.heads + [head]))
  {
    hide CstrSealed;
  }

  /** An indirect call, of a computation or in tail position. */
  lemma CallStays(f: Flow, h: Atom, a: Atom, res: Node, ns: seq<Node>, cur: Option<nat>)
    requires SealedFlow(f) && SealedAtom(h, |ns|, cur.Some?) && SealedAtom(a, |ns|, cur.Some?) && Off(f.openNode, ns) && res != f.openNode
    ensures var head := AtomNode(f, h, ns, cur); var arg := AtomNode(head.0, a, ns, cur);
      Stays(f, arg.0.Emit(Cstr.Call(res, head.1, arg.1)).(heads := arg.0.heads + [head.1]))
  {
    hide AtomNode, SealedFlow, SealedAtom;
    AtomStays(f, h, ns, cur);
    var head := AtomNode(f, h, ns, cur);
    AtomStays(head.0, a, ns, cur);
    var arg := AtomNode(head.0, a, ns, cur);
    EmitStays(f, arg.0, Cstr.Call(res, head.1, arg.1));
    HeadStays(f, arg.0.Emit(Cstr.Call(res, head.1, arg.1)), head.1);
  }

  lemma GlobalStays(f: Flow, name: FName, a: Atom, res: Node, ns: seq<Node>, cur: Option<nat>)
    requires SealedFlow(f) && SealedAtom(a, |ns|, cur.Some?) && Off(f.openNode, ns) && res != f.openNode && name in f.index
    ensures Stays(f, GenGlobal(f, name, a, res, ns, cur))
  {
    hide AtomNode, SealedFlow, SealedAtom;
    AtomStays(f, a, ns, cur);
    EmitStays(f, AtomNode(f, a, ns, cur).0, GlobalCall(res, f.index[name], AtomNode(f, a, ns, cur).1));
  }

  lemma CopyStays(f: Flow, a: Atom, to: Node, ns: seq<Node>, cur: Option<nat>)
    requires SealedFlow(f) && SealedAtom(a, |ns|, cur.Some?) && Off(f.openNode, ns) && to != f.openNode
    ensures var from := AtomNode(f, a, ns, cur); Stays(f, from.0) && Stays(f, from.0.Emit(Copy(to, from.1)))
  {
    hide AtomNode, SealedFlow, SealedAtom;
    AtomStays(f, a, ns, cur);
    EmitStays(f, AtomNode(f, a, ns, cur).0, Copy(to, AtomNode(f, a, ns, cur).1));
  }

  lemma TupleStays(f: Flow, args: seq<Atom>, node: Node, ns: seq<Node>, cur: Option<nat>)
    requires SealedFlow(f) && SealedAtoms(args, |ns|, cur.Some?) && Off(f.openNode, ns) && node != f.openNode
    ensures Stays(f, GenPrim(f, TupleOp, args, node, ns, cur))
  {
    hide AtomNodes, CstrSealed, SealedAtoms;
    assert CstrSealed(f.openNode, Site(node)) && CstrSealed(f.openNode, NotLit(node)) by { NodeSealed(f.openNode, node); }
    EmitStays(f, f, Site(node));
    EmitStays(f, f.Emit(Site(node)), NotLit(node));
    var g := f.Emit(Site(node)).Emit(NotLit(node));
    AtomsStay(g, args, ns, cur);
  }

  lemma NodeSealed(o: Node, node: Node)
    requires node != o
    ensures CstrSealed(o, Site(node)) && CstrSealed(o, NotLit(node))
  {}

  lemma PrimStays(f: Flow, op: PrimOp, args: seq<Atom>, node: Node, ns: seq<Node>, cur: Option<nat>)
    requires SealedFlow(f) && SealedAtoms(args, |ns|, cur.Some?) && Allowed(op, |args|, false) && Off(f.openNode, ns) && node != f.openNode
    ensures Stays(f, GenPrim(f, op, args, node, ns, cur))
  {
    hide AtomNode, AtomNodes, SealedFlow, SealedAtom;
    EmitStays(f, f, NotLit(node));
    match op
    case TupleOp => TupleStays(f, args, node, ns, cur);
    case ProjOp(i) =>
      if |args| == 1 {
        AtomStays(f, args[0], ns, cur);
        EmitStays(f, AtomNode(f, args[0], ns, cur).0, Cstr.Proj(node, AtomNode(f, args[0], ns, cur).1, i));
      }
    case ConOp(_) => EmitStays(f, f, Literal(node, Comp.Prim(op, args)));
    case LitOp(_) => EmitStays(f, f, Literal(node, Comp.Prim(op, [])));
    case IntOp(_) =>
  }

  lemma CompStays(f: Flow, c: Comp, node: Node, ns: seq<Node>, cur: Option<nat>)
    requires SealedFlow(f) && SealedComp(c, |ns|, cur.Some?) && PlainComp(c, f.index.Keys) && Off(f.openNode, ns) && node != f.openNode
    ensures Stays(f, GenComp(f, c, node, ns, cur))
  {
    hide AtomNode, SealedFlow, SealedAtom, SealedAtoms, GenPrim, GenGlobal, Captures;
    match c
    case Use(a) => CopyStays(f, a, node, ns, cur);
    case MkClosure(name, caps) => ClosureStays(f, name, caps, node, ns, cur);
    case Call(h, a) => CallStays(f, h, a, node, ns, cur);
    case CallGlobal(name, a) => GlobalStays(f, name, a, node, ns, cur);
    case Prim(op, args) => PrimStays(f, op, args, node, ns, cur);
  }

  lemma StaysTrans(f: Flow, g: Flow, h: Flow)
    requires Stays(f, g) && Stays(g, h)
    ensures Stays(f, h)
  {
    hide SealedFlow;
  }

  lemma RetOff(f: Flow, cur: Option<nat>)
    requires SealedFlow(f)
    ensures f.RetNode(cur) != f.openNode
    ensures cur.Some? && cur.value < |f.param| ==> f.param[cur.value] != f.openNode
  {
    hide CstrSealed;
  }

  lemma {:induction false} TailStays(f: Flow, t: Tail, ns: seq<Node>, cur: Option<nat>)
    requires SealedFlow(f) && Sealed(t, |ns|, cur.Some?) && Plain(t, f.index.Keys) && Off(f.openNode, ns)
    ensures Stays(f, GenTail(f, t, ns, cur))
    decreases t, 1
  {
    hide AtomNode, SealedFlow, SealedAtom, SealedComp, GenComp, GenGlobal, PlainComp;
    RetOff(f, cur);
    match t
    case Ret(a) => CopyStays(f, a, f.RetNode(cur), ns, cur);
    case Let(c, rest) =>
      FreshStays(f);
      CompStays(f.Fresh(), c, f.n, ns, cur);
      var g := GenComp(f.Fresh(), c, f.n, ns, cur);
      StaysTrans(f, f.Fresh(), g);
      TailStays(g, rest, [f.n] + ns, cur);
      StaysTrans(f, g, GenTail(g, rest, [f.n] + ns, cur));
    case TailCall(h, a) => CallStays(f, h, a, f.RetNode(cur), ns, cur);
    case TailCallGlobal(name, a) => GlobalStays(f, name, a, f.RetNode(cur), ns, cur);
    case Jump(a) =>
      AtomStays(f, a, ns, cur);
      if cur.Some? && cur.value < |f.param| { CopyStays(f, a, f.param[cur.value], ns, cur); }
    case Case(_, arms) => ArmsStay(f, arms, ns, cur);
    case IfZero(_, a, b) =>
      TailStays(f, a, ns, cur);
      TailStays(GenTail(f, a, ns, cur), b, ns, cur);
      StaysTrans(f, GenTail(f, a, ns, cur), GenTail(GenTail(f, a, ns, cur), b, ns, cur));
  }

  lemma {:induction false} ArmsStay(f: Flow, arms: seq<TailArm>, ns: seq<Node>, cur: Option<nat>)
    requires SealedFlow(f) && Off(f.openNode, ns)
    requires forall k :: 0 <= k < |arms| ==>
      arms[k].binders == 0 && Sealed(arms[k].body, |ns|, cur.Some?) == true && Plain(arms[k].body, f.index.Keys) == true
    ensures Stays(f, GenArms(f, arms, ns, cur))
    decreases arms, 0
  {
    hide GenTail, Sealed, Plain, SealedFlow;
    if arms != [] {
      var last := arms[|arms| - 1];
      ArmsStay(f, arms[..|arms| - 1], ns, cur);
      var g := GenArms(f, arms[..|arms| - 1], ns, cur);
      assert Binders(g, 0) == (g, []) && [] + ns == ns;
      TailStays(g, last.body, ns, cur);
      StaysTrans(f, g, GenTail(g, last.body, ns, cur));
    }
  }

  lemma StartSealed(funcs: seq<AnfFunc>)
    ensures SealedFlow(Start(funcs)) && |Start(funcs).param| == |funcs| && Start(funcs).index == IndexOf(funcs)
  {
    hide IndexOf;
  }

  lemma {:induction false} FuncsStay(funcs: seq<AnfFunc>, i: nat)
    requires i <= |funcs| && forall f :: f in funcs ==> Sealed(f.body, 1, true) && Plain(f.body, IndexOf(funcs).Keys)
    ensures Stays(Start(funcs), GenFuncs(Start(funcs), funcs, i))
  {
    hide GenTail, Sealed, Plain, SealedFlow, Start, IndexOf;
    StartSealed(funcs);
    if i > 0 {
      FuncsStay(funcs, i - 1);
      var g := GenFuncs(Start(funcs), funcs, i - 1);
      RetOff(g, Some(i - 1));
      TailStays(g, funcs[i - 1].body, [g.param[i - 1]], Some(i - 1));
      StaysTrans(Start(funcs), g, GenTail(g, funcs[i - 1].body, [g.param[i - 1]], Some(i - 1)));
    }
  }

  lemma BuildSealed(p: AnfProgram)
    requires SealedProgram(p) && PlainProgram(p)
    ensures SealedFlow(Build(p))
  {
    hide GenTail, GenFuncs, Sealed, Plain, SealedFlow;
    FuncsStay(p.funcs, |p.funcs|);
    TailStays(GenFuncs(Start(p.funcs), p.funcs, |p.funcs|), p.entry, [], None);
  }

  // ---- nothing else is open ----

  /** No projection reads past the end of a tuple that may reach it. */
  ghost predicate InRange(f: Flow, sol: Solution) {
    forall c :: c in f.cstrs && c.Proj? ==> forall s :: s in At(sol, c.tup).sites && s in f.fields ==> c.idx < |f.fields[s]|
  }

  function Shut(sol: Solution, o: Node): Solution {
    seq(|sol|, n requires 0 <= n < |sol| => if n == o then sol[n] else sol[n].(open := false))
  }

  lemma ShutSat(f: Flow, sol: Solution, c: Cstr)
    requires SealedFlow(f) && Solves(f, sol) && InRange(f, sol) && c in f.cstrs
    ensures Sat(f, Shut(sol, f.openNode), c)
  {
    hide CstrSealed, Escaped;
    var r, o := Shut(sol, f.openNode), f.openNode;
    assert Sat(f, sol, c) && CstrSealed(o, c);
    TouchesNothing(o, c);
    forall n: Node | n != o ensures At(r, n) == At(sol, n).(open := false) {}
    match c
    case Proj(to, tup, idx) => forall s | s in At(r, tup).sites ensures ProjFlows(f, r, At(r, to), s, idx) { ShutProj(f, sol, to, tup, idx, s); }
    case Call(res, head, arg) =>
      forall l | l in At(r, head).fns && l in f.index ensures CallFlows(f, r, f.index[l], res, arg) { ShutCall(f, sol, f.index[l], res, arg); }
    case GlobalCall(res, callee, arg) => ShutCall(f, sol, callee, res, arg);
    case _ =>
  }

  lemma TouchesNothing(o: Node, c: Cstr)
    requires CstrSealed(o, c)
    ensures !c.Escape? && (c.Open? ==> c.node == o) && (c.Copy? ==> c.to != o && c.from != o)
    ensures c.Closure? || c.Site? || c.ClosureSite? || c.Literal? || c.NotLit? ==> c.node != o
    ensures (c.Proj? ==> c.to != o && c.tup != o) && (c.Call? ==> c.res != o && c.head != o && c.arg != o)
    ensures c.GlobalCall? ==> c.res != o && c.arg != o
  {}

  lemma ShutProj(f: Flow, sol: Solution, to: Node, tup: Node, idx: nat, s: Node)
    requires SealedFlow(f) && InRange(f, sol) && Cstr.Proj(to, tup, idx) in f.cstrs && to != f.openNode
    requires s in At(sol, tup).sites && ProjFlows(f, sol, At(sol, to), s, idx)
    ensures ProjFlows(f, Shut(sol, f.openNode), At(Shut(sol, f.openNode), to), s, idx)
  {
    hide CstrSealed;
    if s in f.fields { assert Off(f.openNode, f.fields[s]); }
  }

  lemma ShutCall(f: Flow, sol: Solution, callee: nat, res: Node, arg: Node)
    requires SealedFlow(f) && CallFlows(f, sol, callee, res, arg) && res != f.openNode && arg != f.openNode
    ensures CallFlows(f, Shut(sol, f.openNode), callee, res, arg)
  {
    hide CstrSealed;
  }

  /** In a sealed program, with every projection in range, the least solution takes no node for unknown but
      the one that stands for it. */
  lemma NothingUnknown(p: AnfProgram, sol: Solution, n: Node)
    requires SealedProgram(p) && PlainProgram(p) && Solves(Build(p), sol) && InRange(Build(p), sol)
    requires forall other :: Solves(Build(p), other) ==> LeqSol(sol, other)
    ensures n != Build(p).openNode ==> !At(sol, n).open
  {
    hide Build, Sat, SealedFlow, InRange;
    BuildSealed(p);
    var f := Build(p);
    var r := Shut(sol, f.openNode);
    forall c | c in f.cstrs ensures Sat(f, r, c) { ShutSat(f, sol, c); }
    assert LeqSol(sol, r);
    if n < |sol| { assert sol[n].Leq(r[n]); }
  }

  /** Nor any head of an indirect call. */
  lemma HeadsKnown(p: AnfProgram, sol: Solution, k: nat)
    requires SealedProgram(p) && PlainProgram(p) && Solves(Build(p), sol) && InRange(Build(p), sol)
    requires (forall other :: Solves(Build(p), other) ==> LeqSol(sol, other)) && k < |Build(p).heads|
    ensures !At(sol, Build(p).heads[k]).open
  {
    hide Build, Solves, LeqSol, InRange, SealedProgram, PlainProgram, CstrSealed;
    BuildSealed(p);
    NothingUnknown(p, sol, Build(p).heads[k]);
  }
}
