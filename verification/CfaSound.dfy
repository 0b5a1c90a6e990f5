/** Soundness of the closure-flow analysis: what a run computes is described by any solution. */
module CfaSound {
  import opened Basics
  import opened Values
  import opened CirLang
  import opened AnfLang
  import opened Cfa
  import opened CfaGrows

  // ---- what a solution says about a value ----

  ghost predicate ClosureFree(v: TVal) {
    match v
    case Null => true
    case Scalar(_) => true
    case Con(_, xs) => forall k :: 0 <= k < |xs| ==> ClosureFree(xs[k])
    case Tuple(xs) => forall k :: 0 <= k < |xs| ==> ClosureFree(xs[k])
    case Clo(_, _) => false
  }

  /** The value of a tracked literal. */
  function LitValue(c: Comp): Option<TVal> {
    if !IsLiteral(c) then None
    else if c.op.LitOp? then Some(Scalar(c.op.lit))
    else Some(Con(c.op.con, []))
  }

  predicate LitOk(l: ConstLit, v: TVal) {
    match l
    case Bottom => false
    case Just(c) => LitValue(c) == Some(v)
    case Top => true
  }

  /** A closure's function is among `fns` and it was built at one of `cloSites` from described
      captures; a tuple was built at one of `sites` from described fields, unless the node is open and
      the tuple holds no closure; data hold no closure; a literal node holds that literal only. */
  ghost predicate Describes(f: Flow, sol: Solution, av: Av, v: TVal)
    decreases v, 1
  {
    LitOk(av.lit, v) &&
    match v
    case Null => true
    case Scalar(_) => true
    case Con(_, _) => ClosureFree(v)
    case Tuple(xs) => (av.open && ClosureFree(v)) || exists s :: s in av.sites && BuiltAt(f, sol, s, xs)
    case Clo(name, xs) => name in av.fns && exists s :: s in av.cloSites && ClosedAt(f, sol, s, name, xs)
  }

  ghost predicate BuiltAt(f: Flow, sol: Solution, s: Node, xs: seq<TVal>)
    decreases xs, 1
  {
    s in f.fields && DescribesAll(f, sol, f.fields[s], xs)
  }

  ghost predicate ClosedAt(f: Flow, sol: Solution, s: Node, name: FName, xs: seq<TVal>)
    decreases xs, 1
  {
    s in f.cloFields && f.cloFields[s].name == name && DescribesAll(f, sol, f.cloFields[s].caps, xs)
  }

  ghost predicate DescribesAll(f: Flow, sol: Solution, ns: seq<Node>, xs: seq<TVal>)
    decreases xs, 0
  {
    |ns| == |xs| && forall k :: 0 <= k < |xs| ==> Describes(f, sol, At(sol, ns[k]), xs[k])
  }

  ghost predicate NodeDescribes(f: Flow, sol: Solution, n: Node, v: TVal) {
    Describes(f, sol, At(sol, n), v) == true
  }

  lemma DescribesMore(f: Flow, sol: Solution, a: Av, b: Av, v: TVal)
    requires a.Leq(b) && Describes(f, sol, a, v)
    ensures Describes(f, sol, b, v)
  {
    hide DescribesAll, ClosureFree;
  }

  lemma OpenDescribes(f: Flow, sol: Solution, av: Av, v: TVal)
    requires IsOpen(av) && ClosureFree(v)
    ensures Describes(f, sol, av, v)
  {}

  // ---- the fragment ----

  /** Nodes that hold no closure, not even inside their tuples. */
  ghost predicate Clean(f: Flow, sol: Solution, clean: set<Node>) {
    forall n :: n in clean ==> At(sol, n).fns == {} && forall s :: s in At(sol, n).sites ==> FieldsClean(f, clean, s)
  }

  ghost predicate FieldsClean(f: Flow, clean: set<Node>, s: Node) {
    s in f.fields ==> forall k :: 0 <= k < |f.fields[s]| ==> f.fields[s][k] in clean
  }

  /** Only nodes without closures escape: into a constructor, or to an unknown function. */
  ghost predicate NothingEscapes(f: Flow, clean: set<Node>) {
    forall c :: c in f.cstrs && c.Escape? ==> c.node in clean
  }

  lemma AllAt(f: Flow, sol: Solution, ns: seq<Node>, xs: seq<TVal>, k: nat)
    requires DescribesAll(f, sol, ns, xs) && k < |xs|
    ensures |ns| == |xs| && NodeDescribes(f, sol, ns[k], xs[k])
  {
    hide Describes;
  }

  lemma {:induction false} CleanFree(f: Flow, sol: Solution, clean: set<Node>, n: Node, v: TVal)
    requires Clean(f, sol, clean) && n in clean && Describes(f, sol, At(sol, n), v)
    ensures ClosureFree(v) == true
    decreases v
  {
    if v.Tuple? && !ClosureFree(v) {
      var s :| s in At(sol, n).sites && BuiltAt(f, sol, s, v.fields);
      assert FieldsClean(f, clean, s);
      forall k | 0 <= k < |v.fields| ensures ClosureFree(v.fields[k]) == true {
        AllAt(f, sol, f.fields[s], v.fields, k);
        CleanFree(f, sol, clean, f.fields[s][k], v.fields[k]);
      }
    }
  }

  predicate PlainAtoms(atoms: seq<Atom>) {
    forall k :: 0 <= k < |atoms| ==> !atoms[k].Global?
  }

  predicate PlainComp(c: Comp, known: set<FName>) {
    match c
    case Use(a) => !a.Global?
    case MkClosure(name, caps) => name in known && PlainAtoms(caps)
    case Call(f, a) => !f.Global? && !a.Global?
    case CallGlobal(name, a) => name in known && !a.Global?
    case CallKnown(_, _, _) => false
    case Prim(_, args) => PlainAtoms(args)
  }

  /** No bare global is used as a value, every closure and direct call names a known function, and
      there is no call the later pass introduces. */
  predicate Plain(t: Tail, known: set<FName>) {
    match t
    case Ret(a) => !a.Global?
    case Let(c, rest) => PlainComp(c, known) && Plain(rest, known)
    case TailCall(f, a) => !f.Global? && !a.Global?
    case Jump(a) => !a.Global?
    case TailCallGlobal(name, a) => name in known && !a.Global?
    case TailCallKnown(_, _, _) => false
    case Case(s, arms) => !s.Global? && forall k :: 0 <= k < |arms| ==> Plain(arms[k].body, known)
    case IfZero(s, a, b) => !s.Global? && Plain(a, known) && Plain(b, known)
  }

  ghost predicate UniqueFuncs(funcs: seq<AnfFunc>) {
    forall i, j :: 0 <= i < j < |funcs| ==> funcs[i].name != funcs[j].name
  }

  ghost predicate PlainProgram(p: AnfProgram) {
    && UniqueFuncs(p.funcs)
    && (forall f :: f in p.funcs ==> Plain(f.body, IndexOf(p.funcs).Keys))
    && Plain(p.entry, IndexOf(p.funcs).Keys)
  }

  /** A solved program in the fragment; `clean` shows that no closure escapes. */
  datatype Analysis = Analysis(p: AnfProgram, sol: Solution, clean: set<Node>)

  ghost predicate Good(x: Analysis) {
    var f := Build(x.p);
    PlainProgram(x.p) && Solves(f, x.sol) && Clean(f, x.sol, x.clean) && NothingEscapes(f, x.clean)
  }

  // ---- places ----

  /** The captures of function `cur` are described by its environment slots. */
  ghost predicate CapsOk(f: Flow, sol: Solution, cur: Option<nat>, caps: seq<TVal>) {
    if cur.None? then caps == []
    else forall k :: 0 <= k < |caps| ==> SlotOk(f, sol, cur.value, k, caps[k])
  }

  ghost predicate SlotOk(f: Flow, sol: Solution, func: nat, k: nat, v: TVal) {
    (func, k) in f.envSlot && NodeDescribes(f, sol, f.envSlot[(func, k)], v)
  }

  /** The analyzer was in state `f` when it reached this point, and `scope` and `caps` are described. */
  ghost predicate Here(x: Analysis, f: Flow, ns: seq<Node>, cur: Option<nat>, scope: seq<TVal>, caps: seq<TVal>) {
    && Wf(f) && Place(f, ns, cur) && f.index == Build(x.p).index
    && DescribesAll(Build(x.p), x.sol, ns, scope) == true && CapsOk(Build(x.p), x.sol, cur, caps)
  }

  lemma AtomSound(x: Analysis, f: Flow, a: Atom, ns: seq<Node>, cur: Option<nat>, scope: seq<TVal>, caps: seq<TVal>)
    requires Good(x) && Here(x, f, ns, cur, scope, caps) && !a.Global?
    requires Extends(AtomNode(f, a, ns, cur).0, Build(x.p))
    requires EvalAtom(a, scope, caps).Done?
    ensures NodeDescribes(Build(x.p), x.sol, AtomNode(f, a, ns, cur).1, EvalAtom(a, scope, caps).value)
  {
    hide Describes, Build, Wf, PlainProgram, Clean, NothingEscapes, Place;
    var g := Build(x.p);
    match a
    case Var(i) =>
    case EnvRef(k) =>
      assert SlotOk(g, x.sol, cur.value, k, caps[k]);
    case Erased => OpenNodeSound(x, f);
  }

  lemma OpenNodeSound(x: Analysis, f: Flow)
    requires Good(x) && Wf(f) && Extends(f, Build(x.p))
    ensures NodeDescribes(Build(x.p), x.sol, f.openNode, Null)
  {
    hide Build, PlainProgram, Clean, NothingEscapes, Linked;
    assert Sat(Build(x.p), x.sol, Open(f.openNode));
    OpenDescribes(Build(x.p), x.sol, At(x.sol, f.openNode), Null);
  }

  lemma {:induction false} AtomsSound(
    x: Analysis, f: Flow, atoms: seq<Atom>, ns: seq<Node>, cur: Option<nat>, scope: seq<TVal>, caps: seq<TVal>)
    requires Good(x) && Here(x, f, ns, cur, scope, caps) && PlainAtoms(atoms)
    requires Extends(AtomNodes(f, atoms, ns, cur).0, Build(x.p))
    requires EvalAtoms(atoms, scope, caps).Done?
    ensures DescribesAll(Build(x.p), x.sol, AtomNodes(f, atoms, ns, cur).1, EvalAtoms(atoms, scope, caps).value)
  {
    hide Describes, Build, Wf, Good, AtomNode, Place, CapsOk, EvalAtom;
    if atoms != [] {
      var k := |atoms| - 1;
      AtomsGrow(f, atoms[..k], ns, cur);
      var front := AtomNodes(f, atoms[..k], ns, cur);
      PlaceExtends(f, front.0, ns, cur);
      AtomGrows(front.0, atoms[k], ns, cur);
      ExtendsTrans(front.0, AtomNode(front.0, atoms[k], ns, cur).0, Build(x.p));
      AtomsSound(x, f, atoms[..k], ns, cur, scope, caps);
      AtomSound(x, front.0, atoms[k], ns, cur, scope, caps);
    }
  }

  // ---- computations ----

  lemma EmittedIn(f: Flow, c: Cstr, g: Flow)
    requires Extends(f.Emit(c), g)
    ensures c in g.cstrs && Extends(f, g)
  {
    assert f.Emit(c).cstrs[|f.cstrs|] == c;
  }

  /** A constraint of the finished graph holds of the solution. */
  lemma Holds(x: Analysis, c: Cstr)
    requires Good(x) && c in Build(x.p).cstrs
    ensures Sat(Build(x.p), x.sol, c)
  {
    hide Sat, Build, PlainProgram, Clean, NothingEscapes;
  }

  lemma CopySound(x: Analysis, to: Node, from: Node, v: TVal)
    requires Good(x) && Copy(to, from) in Build(x.p).cstrs && NodeDescribes(Build(x.p), x.sol, from, v)
    ensures NodeDescribes(Build(x.p), x.sol, to, v)
  {
    hide Build, Good, Describes;
    Holds(x, Copy(to, from));
    DescribesMore(Build(x.p), x.sol, At(x.sol, from), At(x.sol, to), v);
  }

  lemma UseSound(x: Analysis, f: Flow, a: Atom, to: Node, ns: seq<Node>, cur: Option<nat>, scope: seq<TVal>, caps: seq<TVal>)
    requires Good(x) && Here(x, f, ns, cur, scope, caps) && !a.Global?
    requires var from := AtomNode(f, a, ns, cur); Extends(from.0.Emit(Copy(to, from.1)), Build(x.p))
    requires EvalAtom(a, scope, caps).Done?
    ensures NodeDescribes(Build(x.p), x.sol, to, EvalAtom(a, scope, caps).value)
  {
    hide Build, Good, Describes, AtomNode, EvalAtom, Here;
    var from := AtomNode(f, a, ns, cur);
    EmittedIn(from.0, Copy(to, from.1), Build(x.p));
    AtomSound(x, f, a, ns, cur, scope, caps);
    CopySound(x, to, from.1, EvalAtom(a, scope, caps).value);
  }

  lemma {:induction false} CapturesSound(
    x: Analysis, f: Flow, func: nat, atoms: seq<Atom>, ns: seq<Node>, cur: Option<nat>, scope: seq<TVal>, caps: seq<TVal>)
    requires Good(x) && Here(x, f, ns, cur, scope, caps) && PlainAtoms(atoms)
    requires Extends(Cfa.Captures(f, func, atoms, ns, cur).0, Build(x.p))
    requires EvalAtoms(atoms, scope, caps).Done?
    ensures DescribesAll(Build(x.p), x.sol, Cfa.Captures(f, func, atoms, ns, cur).1, EvalAtoms(atoms, scope, caps).value)
  {
    hide Describes, Build, Wf, Good, AtomNode, EnvSlot, Place, CapsOk, EvalAtom;
    if atoms != [] {
      var k := |atoms| - 1;
      CapturesGrow(f, func, atoms[..k], ns, cur);
      var front := Cfa.Captures(f, func, atoms[..k], ns, cur);
      PlaceExtends(f, front.0, ns, cur);
      AtomGrows(front.0, atoms[k], ns, cur);
      var from := AtomNode(front.0, atoms[k], ns, cur);
      EnvSlotGrows(from.0, func, k);
      var to := EnvSlot(from.0, func, k);
      EmittedIn(to.0, Copy(to.1, from.1), Build(x.p));
      CapturesSound(x, f, func, atoms[..k], ns, cur, scope, caps);
      AtomSound(x, front.0, atoms[k], ns, cur, scope, caps);
    }
  }

  /** What building a closure leaves in every later graph. */
  lemma ClosureGraph(f: Flow, c: Comp, node: Node, ns: seq<Node>, cur: Option<nat>, g: Flow)
    requires c.MkClosure? && Wf(f) && Place(f, ns, cur) && Unused(f, node)
    requires c.name in f.index && Extends(GenComp(f, c, node, ns, cur), g)
    ensures var g1 := f.Emit(Closure(node, c.name)).Emit(NotLit(node));
      var r := Cfa.Captures(g1, f.index[c.name], c.caps, ns, cur);
      Wf(g1) && Place(g1, ns, cur) && Extends(r.0, g)
      && {Closure(node, c.name), NotLit(node), ClosureSite(node)} <= set e | e in g.cstrs
      && node in g.cloFields && g.cloFields[node] == CloSite(c.name, r.1)
  {
    hide Cfa.Captures, Linked;
    var g0, g1 := f.Emit(Closure(node, c.name)), f.Emit(Closure(node, c.name)).Emit(NotLit(node));
    EmitGrows(f, Closure(node, c.name));
    EmitGrows(g0, NotLit(node));
    var r := Cfa.Captures(g1, f.index[c.name], c.caps, ns, cur);
    CapturesGrow(g1, f.index[c.name], c.caps, ns, cur);
    var g2 := r.0.(cloFields := r.0.cloFields[node := CloSite(c.name, r.1)]);
    EmittedIn(g2, ClosureSite(node), g);
    assert Extends(r.0, g2);
    ExtendsTrans(r.0, g2, g);
    ExtendsTrans(g1, r.0, g);
    EmittedIn(g0, NotLit(node), g);
    EmittedIn(f, Closure(node, c.name), g);
  }

  lemma {:induction false} ClosureSound(
    x: Analysis, f: Flow, c: Comp, node: Node, ns: seq<Node>, cur: Option<nat>, scope: seq<TVal>, caps: seq<TVal>)
    requires c.MkClosure? && Good(x) && Here(x, f, ns, cur, scope, caps) && Unused(f, node) && PlainAtoms(c.caps)
    requires c.name in f.index && Extends(GenComp(f, c, node, ns, cur), Build(x.p))
    requires EvalAtoms(c.caps, scope, caps).Done?
    ensures NodeDescribes(Build(x.p), x.sol, node, Clo(c.name, EvalAtoms(c.caps, scope, caps).value))
  {
    hide Build, Good, DescribesAll, Cfa.Captures, EvalAtoms, Linked, Wf, Place, Extends, GenComp;
    ClosureGraph(f, c, node, ns, cur, Build(x.p));
    var g1 := f.Emit(Closure(node, c.name)).Emit(NotLit(node));
    CapturesSound(x, g1, f.index[c.name], c.caps, ns, cur, scope, caps);
    Holds(x, ClosureSite(node));
    Holds(x, NotLit(node));
    Holds(x, Closure(node, c.name));
    assert ClosedAt(Build(x.p), x.sol, node, c.name, EvalAtoms(c.caps, scope, caps).value);
  }

  /** What building a tuple leaves in every later graph. */
  lemma TupleGraph(f: Flow, args: seq<Atom>, node: Node, ns: seq<Node>, cur: Option<nat>, g: Flow)
    requires Wf(f) && Place(f, ns, cur) && Unused(f, node) && Extends(GenPrim(f, TupleOp, args, node, ns, cur), g)
    ensures var g1 := f.Emit(Site(node)).Emit(NotLit(node));
      var r := AtomNodes(g1, args, ns, cur);
      Wf(g1) && Place(g1, ns, cur) && Extends(r.0, g)
      && {Site(node), NotLit(node)} <= set e | e in g.cstrs
      && node in g.fields && g.fields[node] == r.1
  {
    hide AtomNodes, Linked;
    var g0, g1 := f.Emit(Site(node)), f.Emit(Site(node)).Emit(NotLit(node));
    EmitGrows(f, Site(node));
    EmitGrows(g0, NotLit(node));
    var r := AtomNodes(g1, args, ns, cur);
    AtomsGrow(g1, args, ns, cur);
    var g2 := r.0.(fields := r.0.fields[node := r.1]);
    assert Extends(r.0, g2);
    ExtendsTrans(r.0, g2, g);
    ExtendsTrans(g1, r.0, g);
    EmittedIn(g0, NotLit(node), g);
    EmittedIn(f, Site(node), g);
  }

  lemma TupleSound(
    x: Analysis, f: Flow, args: seq<Atom>, node: Node, ns: seq<Node>, cur: Option<nat>, scope: seq<TVal>, caps: seq<TVal>)
    requires Good(x) && Here(x, f, ns, cur, scope, caps) && Unused(f, node) && PlainAtoms(args)
    requires Extends(GenPrim(f, TupleOp, args, node, ns, cur), Build(x.p))
    requires EvalAtoms(args, scope, caps).Done?
    ensures NodeDescribes(Build(x.p), x.sol, node, Tuple(EvalAtoms(args, scope, caps).value))
  {
    hide Build, Good, DescribesAll, AtomNodes, EvalAtoms, Linked, Wf, Place, Extends, GenPrim;
    TupleGraph(f, args, node, ns, cur, Build(x.p));
    AtomsSound(x, f.Emit(Site(node)).Emit(NotLit(node)), args, ns, cur, scope, caps);
    Holds(x, Site(node));
    Holds(x, NotLit(node));
    assert BuiltAt(Build(x.p), x.sol, node, EvalAtoms(args, scope, caps).value);
  }

  lemma ProjSound(x: Analysis, to: Node, tup: Node, i: nat, v: TVal)
    requires Good(x) && Cstr.Proj(to, tup, i) in Build(x.p).cstrs
    requires v.Tuple? && i < |v.fields| && NodeDescribes(Build(x.p), x.sol, tup, v)
    ensures NodeDescribes(Build(x.p), x.sol, to, v.fields[i])
  {
    hide Build, Good, DescribesAll;
    var f := Build(x.p);
    Holds(x, Cstr.Proj(to, tup, i));
    var tv := At(x.sol, tup);
    if tv.open && ClosureFree(v) {
      OpenDescribes(f, x.sol, At(x.sol, to), v.fields[i]);
    } else {
      var s :| s in tv.sites && BuiltAt(f, x.sol, s, v.fields);
      AllAt(f, x.sol, f.fields[s], v.fields, i);
      assert ProjFlows(f, x.sol, At(x.sol, to), s, i);
      DescribesMore(f, x.sol, At(x.sol, f.fields[s][i]), At(x.sol, to), v.fields[i]);
    }
  }

  /** What a constructor holds has no closure, because its arguments escape. */
  lemma {:induction false} EscapesSound(
    x: Analysis, f: Flow, atoms: seq<Atom>, ns: seq<Node>, cur: Option<nat>, scope: seq<TVal>, caps: seq<TVal>)
    requires Good(x) && Here(x, f, ns, cur, scope, caps) && PlainAtoms(atoms)
    requires Extends(Escapes(f, atoms, ns, cur), Build(x.p))
    requires EvalAtoms(atoms, scope, caps).Done?
    ensures forall k :: 0 <= k < |atoms| ==> ClosureFree(EvalAtoms(atoms, scope, caps).value[k]) == true
  {
    hide Describes, Build, Wf, Clean, PlainProgram, Sat, AtomNode, Place, CapsOk, EvalAtom, ClosureFree;
    if atoms != [] {
      var k := |atoms| - 1;
      var g := Escapes(f, atoms[..k], ns, cur);
      EscapesGrow(f, atoms[..k], ns, cur);
      PlaceExtends(f, g, ns, cur);
      AtomGrows(g, atoms[k], ns, cur);
      var a := AtomNode(g, atoms[k], ns, cur);
      EmittedIn(a.0, Escape(a.1), Build(x.p));
      ExtendsTrans(g, a.0, Build(x.p));
      EscapesSound(x, f, atoms[..k], ns, cur, scope, caps);
      AtomSound(x, g, atoms[k], ns, cur, scope, caps);
      CleanFree(Build(x.p), x.sol, x.clean, a.1, EvalAtom(atoms[k], scope, caps).value);
    }
  }

  lemma LiteralSound(x: Analysis, node: Node, lit: Comp, v: TVal)
    requires Good(x) && Literal(node, lit) in Build(x.p).cstrs && LitValue(lit) == Some(v)
    ensures NodeDescribes(Build(x.p), x.sol, node, v)
  {
    hide Build, Good;
    Holds(x, Literal(node, lit));
  }

  lemma FreeSound(x: Analysis, node: Node, v: TVal)
    requires Good(x) && NotLit(node) in Build(x.p).cstrs && (v.Scalar? || v.Con?) && ClosureFree(v)
    ensures NodeDescribes(Build(x.p), x.sol, node, v)
  {
    hide Build, Good;
    Holds(x, NotLit(node));
  }

  lemma PrimSound(
    x: Analysis, f: Flow, op: PrimOp, args: seq<Atom>, node: Node, ns: seq<Node>, cur: Option<nat>,
    scope: seq<TVal>, caps: seq<TVal>)
    requires Good(x) && Here(x, f, ns, cur, scope, caps) && Unused(f, node) && PlainAtoms(args)
    requires Extends(GenPrim(f, op, args, node, ns, cur), Build(x.p))
    requires EvalAtoms(args, scope, caps).Done? && EvalPrim(op, EvalAtoms(args, scope, caps).value).Done?
    ensures NodeDescribes(Build(x.p), x.sol, node, EvalPrim(op, EvalAtoms(args, scope, caps).value).value)
  {
    hide Build, Good, AtomNode, AtomNodes, Wf, Place, Describes, DescribesAll, CapsOk;
    var xs := EvalAtoms(args, scope, caps).value;
    var v := EvalPrim(op, xs).value;
    match op
    case TupleOp => TupleSound(x, f, args, node, ns, cur, scope, caps);
    case ProjOp(i) =>
      assert args[..0] == [] && xs == [EvalAtom(args[0], scope, caps).value];
      var tup := AtomNode(f, args[0], ns, cur);
      EmittedIn(tup.0, Cstr.Proj(node, tup.1, i), Build(x.p));
      AtomSound(x, f, args[0], ns, cur, scope, caps);
      ProjSound(x, node, tup.1, i, xs[0]);
    case ConOp(k) =>
      if args == [] {
        EmittedIn(f, Literal(node, Comp.Prim(op, args)), Build(x.p));
        LiteralSound(x, node, Comp.Prim(op, args), v);
      } else {
        var g := f.Emit(NotLit(node));
        EmitGrows(f, NotLit(node));
        PlaceExtends(f, g, ns, cur);
        EscapesGrow(g, args, ns, cur);
        ExtendsTrans(g, Escapes(g, args, ns, cur), Build(x.p));
        EmittedIn(f, NotLit(node), Build(x.p));
        EscapesSound(x, g, args, ns, cur, scope, caps);
        FreeSound(x, node, v);
      }
    case LitOp(l) =>
      EmittedIn(f, Literal(node, Comp.Prim(op, [])), Build(x.p));
      LiteralSound(x, node, Comp.Prim(op, []), v);
    case IntOp(_) =>
      EmittedIn(f, NotLit(node), Build(x.p));
      FreeSound(x, node, v);
  }
}
