/** Constraint generation only ever extends the graph, and every node it mentions exists. */
module CfaGrows {
  import opened Basics
  import opened Values
  import opened CirLang
  import opened AnfLang
  import opened Cfa

  ghost predicate SubMap<K(!new), V(!new)>(a: map<K, V>, b: map<K, V>) {
    forall k :: k in a ==> k in b && b[k] == a[k]
  }

  /** `g` has everything `f` has. */
  ghost predicate Extends(f: Flow, g: Flow) {
    && f.n <= g.n && f.param == g.param && f.ret == g.ret && f.entryRet == g.entryRet
    && f.openNode == g.openNode && f.index == g.index
    && SubMap(f.envSlot, g.envSlot) && SubMap(f.fields, g.fields) && SubMap(f.cloFields, g.cloFields)
    && f.cstrs <= g.cstrs && f.heads <= g.heads
  }

  predicate CstrIn(f: Flow, c: Cstr) {
    match c
    case Copy(to, from) => to < f.n && from < f.n
    case Closure(node, _) => node < f.n
    case Site(node) => node < f.n
    case ClosureSite(node) => node < f.n
    case Open(node) => node < f.n
    case Literal(node, _) => node < f.n
    case NotLit(node) => node < f.n
    case Proj(to, tup, _) => to < f.n && tup < f.n
    case Call(res, head, arg) => res < f.n && head < f.n && arg < f.n
    case GlobalCall(res, callee, arg) => res < f.n && callee < |f.param| && arg < f.n
    case Escape(node) => node < f.n
  }

  ghost predicate NodesIn(f: Flow, ns: seq<Node>) {
    forall k :: 0 <= k < |ns| ==> ns[k] < f.n
  }

  /** A closure site of a known function: each capture flows into that function's slot. */
  ghost predicate Linked(f: Flow, s: CloSite) {
    && s.name in f.index && NodesIn(f, s.caps)
    && forall k :: 0 <= k < |s.caps| ==> SlotLinked(f, f.index[s.name], k, s.caps[k])
  }

  ghost predicate SlotLinked(f: Flow, func: nat, k: nat, from: Node) {
    (func, k) in f.envSlot && Copy(f.envSlot[(func, k)], from) in f.cstrs
  }

  ghost predicate Wf(f: Flow) {
    && |f.ret| == |f.param| && NodesIn(f, f.param) && NodesIn(f, f.ret) && NodesIn(f, f.heads)
    && f.entryRet < f.n && f.openNode < f.n && Open(f.openNode) in f.cstrs
    && (forall g :: g in f.index ==> f.index[g] < |f.param|)
    && (forall k :: k in f.envSlot ==> f.envSlot[k] < f.n)
    && (forall s :: s in f.fields ==> s < f.n && NodesIn(f, f.fields[s]))
    && (forall s :: s in f.cloFields ==> s < f.n && Linked(f, f.cloFields[s]))
    && (forall c :: c in f.cstrs ==> CstrIn(f, c))
  }

  ghost predicate Grown(f: Flow, g: Flow) {
    Wf(g) && Extends(f, g)
  }

  ghost predicate Place(f: Flow, scope: seq<Node>, cur: Option<nat>) {
    NodesIn(f, scope) && (cur.Some? ==> cur.value < |f.param|)
  }

  // ---- extension is a preorder and keeps what is linked ----

  lemma ExtendsTrans(f: Flow, g: Flow, h: Flow)
    requires Extends(f, g) && Extends(g, h)
    ensures Extends(f, h)
  {}

  lemma LinkedExtends(f: Flow, g: Flow, s: CloSite)
    requires Extends(f, g) && Linked(f, s)
    ensures Linked(g, s)
  {
    forall k | 0 <= k < |s.caps| ensures SlotLinked(g, g.index[s.name], k, s.caps[k]) {
      assert SlotLinked(f, f.index[s.name], k, s.caps[k]);
    }
  }

  lemma EmitGrows(f: Flow, c: Cstr)
    requires Wf(f) && CstrIn(f, c)
    ensures Grown(f, f.Emit(c))
  {
    hide Linked;
    var g := f.Emit(c);
    forall s | s in f.cloFields ensures Linked(g, f.cloFields[s]) { LinkedExtends(f, g, f.cloFields[s]); }
  }

  lemma FreshGrows(f: Flow)
    requires Wf(f)
    ensures Grown(f, f.Fresh()) && f.n !in f.fields && f.n !in f.cloFields
  {
    hide Linked;
    var g := f.Fresh();
    forall s | s in f.cloFields ensures Linked(g, f.cloFields[s]) { LinkedExtends(f, g, f.cloFields[s]); }
  }

  /** Nodes are read without adding sites, constraints or heads. */
  ghost predicate Reads(f: Flow, g: Flow) {
    Grown(f, g) && g.fields == f.fields && g.cloFields == f.cloFields && g.heads == f.heads
  }

  lemma EnvSlotGrows(f: Flow, func: nat, slot: nat)
    requires Wf(f)
    ensures var r := EnvSlot(f, func, slot); Reads(f, r.0) && r.1 < r.0.n && r.0.cstrs == f.cstrs
  {
    hide Linked;
    if (func, slot) !in f.envSlot {
      FreshGrows(f);
      var h := f.Fresh();
      var g := h.(envSlot := f.envSlot[(func, slot) := f.n]);
      assert Extends(h, g);
      forall s | s in f.cloFields ensures Linked(g, f.cloFields[s]) { LinkedExtends(h, g, f.cloFields[s]); }
    }
  }

  lemma AtomGrows(f: Flow, a: Atom, scope: seq<Node>, cur: Option<nat>)
    requires Wf(f) && Place(f, scope, cur)
    ensures var r := AtomNode(f, a, scope, cur); Reads(f, r.0) && r.1 < r.0.n && r.0.cstrs == f.cstrs
  {
    hide Linked, EnvSlot;
    if a.EnvRef? && cur.Some? { EnvSlotGrows(f, cur.value, a.k); }
  }

  lemma {:induction false} AtomsGrow(f: Flow, atoms: seq<Atom>, scope: seq<Node>, cur: Option<nat>)
    requires Wf(f) && Place(f, scope, cur)
    ensures var r := AtomNodes(f, atoms, scope, cur); Reads(f, r.0) && NodesIn(r.0, r.1)
  {
    hide Wf, AtomNode;
    if atoms != [] {
      var k := |atoms| - 1;
      var front := AtomNodes(f, atoms[..k], scope, cur);
      AtomsGrow(f, atoms[..k], scope, cur);
      AtomGrows(front.0, atoms[k], scope, cur);
    }
  }

  lemma {:induction false} EscapesGrow(f: Flow, atoms: seq<Atom>, scope: seq<Node>, cur: Option<nat>)
    requires Wf(f) && Place(f, scope, cur)
    ensures Reads(f, Escapes(f, atoms, scope, cur))
  {
    hide Wf, AtomNode;
    if atoms != [] {
      var k := |atoms| - 1;
      var g := Escapes(f, atoms[..k], scope, cur);
      EscapesGrow(f, atoms[..k], scope, cur);
      AtomGrows(g, atoms[k], scope, cur);
      var a := AtomNode(g, atoms[k], scope, cur);
      EmitGrows(a.0, Escape(a.1));
    }
  }

  lemma {:induction false} CapturesGrow(f: Flow, func: nat, caps: seq<Atom>, scope: seq<Node>, cur: Option<nat>)
    requires Wf(f) && Place(f, scope, cur)
    ensures var r := Captures(f, func, caps, scope, cur); Reads(f, r.0) && NodesIn(r.0, r.1)
    ensures var r := Captures(f, func, caps, scope, cur);
      forall k :: 0 <= k < |caps| ==> SlotLinked(r.0, func, k, r.1[k])
  {
    hide Wf, AtomNode, EnvSlot;
    if caps != [] {
      var k := |caps| - 1;
      var front := Captures(f, func, caps[..k], scope, cur);
      CapturesGrow(f, func, caps[..k], scope, cur);
      AtomGrows(front.0, caps[k], scope, cur);
      var from := AtomNode(front.0, caps[k], scope, cur);
      EnvSlotGrows(from.0, func, k);
      var to := EnvSlot(from.0, func, k);
      var g := to.0.Emit(Copy(to.1, from.1));
      EmitGrows(to.0, Copy(to.1, from.1));
      assert Copy(to.1, from.1) == g.cstrs[|to.0.cstrs|];
      assert Extends(front.0, g);
      forall j | 0 <= j < k ensures SlotLinked(g, func, j, front.1[j]) {
        assert SlotLinked(front.0, func, j, front.1[j]);
      }
    }
  }

  // ---- computations and tails ----

  ghost predicate Unused(f: Flow, node: Node) {
    node < f.n && node !in f.fields && node !in f.cloFields
  }

  lemma GlobalGrows(f: Flow, name: FName, a: Atom, res: Node, scope: seq<Node>, cur: Option<nat>)
    requires Wf(f) && Place(f, scope, cur) && res < f.n
    ensures Grown(f, GenGlobal(f, name, a, res, scope, cur))
  {
    hide Linked, AtomNode;
    AtomGrows(f, a, scope, cur);
    var arg := AtomNode(f, a, scope, cur);
    if name in f.index {
      EmitGrows(arg.0, GlobalCall(res, f.index[name], arg.1));
    } else {
      EmitGrows(arg.0, Open(res));
      EmitGrows(arg.0.Emit(Open(res)), Escape(arg.1));
    }
  }

  /** An indirect apply: its head and argument nodes, the constraint, and the recorded head. */
  function GenCall(f: Flow, h: Atom, a: Atom, res: Node, scope: seq<Node>, cur: Option<nat>): Flow {
    var head := AtomNode(f, h, scope, cur);
    var arg := AtomNode(head.0, a, scope, cur);
    arg.0.Emit(Cstr.Call(res, head.1, arg.1)).(heads := arg.0.heads + [head.1])
  }

  lemma CallGrows(f: Flow, h: Atom, a: Atom, res: Node, scope: seq<Node>, cur: Option<nat>)
    requires Wf(f) && Place(f, scope, cur) && res < f.n
    ensures Grown(f, GenCall(f, h, a, res, scope, cur))
  {
    hide Linked, AtomNode;
    AtomGrows(f, h, scope, cur);
    var head := AtomNode(f, h, scope, cur);
    AtomGrows(head.0, a, scope, cur);
    var arg := AtomNode(head.0, a, scope, cur);
    EmitGrows(arg.0, Cstr.Call(res, head.1, arg.1));
    HeadGrows(arg.0.Emit(Cstr.Call(res, head.1, arg.1)), head.1);
  }

  lemma HeadGrows(f: Flow, head: Node)
    requires Wf(f) && head < f.n
    ensures Grown(f, f.(heads := f.heads + [head]))
  {
    hide Linked;
    var g := f.(heads := f.heads + [head]);
    forall s | s in f.cloFields ensures Linked(g, f.cloFields[s]) { LinkedExtends(f, g, f.cloFields[s]); }
  }

  lemma FieldsGrow(f: Flow, node: Node, ns: seq<Node>)
    requires Wf(f) && Unused(f, node) && NodesIn(f, ns)
    ensures Grown(f, f.(fields := f.fields[node := ns]))
  {
    hide Linked;
    var g := f.(fields := f.fields[node := ns]);
    forall s | s in f.cloFields ensures Linked(g, f.cloFields[s]) { LinkedExtends(f, g, f.cloFields[s]); }
  }

  lemma CloFieldsGrow(f: Flow, node: Node, s: CloSite)
    requires Wf(f) && Unused(f, node) && Linked(f, s)
    ensures Grown(f, f.(cloFields := f.cloFields[node := s]))
  {
    hide Linked;
    var g := f.(cloFields := f.cloFields[node := s]);
    forall t | t in f.cloFields ensures Linked(g, f.cloFields[t]) { LinkedExtends(f, g, f.cloFields[t]); }
    LinkedExtends(f, g, s);
  }

  lemma PrimGrows(f: Flow, op: PrimOp, args: seq<Atom>, node: Node, scope: seq<Node>, cur: Option<nat>)
    requires Wf(f) && Place(f, scope, cur) && Unused(f, node)
    ensures Grown(f, GenPrim(f, op, args, node, scope, cur))
  {
    hide Wf, AtomNode, Linked;
    match op
    case TupleOp =>
      EmitGrows(f, Site(node));
      EmitGrows(f.Emit(Site(node)), NotLit(node));
      var g := f.Emit(Site(node)).Emit(NotLit(node));
      AtomsGrow(g, args, scope, cur);
      var r := AtomNodes(g, args, scope, cur);
      FieldsGrow(r.0, node, r.1);
    case ProjOp(i) =>
      EmitGrows(f, NotLit(node));
      if |args| == 1 {
        AtomGrows(f, args[0], scope, cur);
        var tup := AtomNode(f, args[0], scope, cur);
        EmitGrows(tup.0, Cstr.Proj(node, tup.1, i));
      }
    case ConOp(_) =>
      EmitGrows(f, Literal(node, Comp.Prim(op, args)));
      EmitGrows(f, NotLit(node));
      EscapesGrow(f.Emit(NotLit(node)), args, scope, cur);
    case LitOp(_) => EmitGrows(f, Literal(node, Comp.Prim(op, [])));
    case IntOp(_) => EmitGrows(f, NotLit(node));
  }

  lemma ClosureGrows(f: Flow, c: Comp, node: Node, scope: seq<Node>, cur: Option<nat>)
    requires c.MkClosure? && Wf(f) && Place(f, scope, cur) && Unused(f, node)
    ensures Grown(f, GenComp(f, c, node, scope, cur))
  {
    hide AtomNode, Cfa.Captures, Escapes;
    EmitGrows(f, Closure(node, c.name));
    EmitGrows(f.Emit(Closure(node, c.name)), NotLit(node));
    var g := f.Emit(Closure(node, c.name)).Emit(NotLit(node));
    if c.name in g.index {
      CapturesGrow(g, g.index[c.name], c.caps, scope, cur);
      var r := Cfa.Captures(g, g.index[c.name], c.caps, scope, cur);
      CloFieldsGrow(r.0, node, CloSite(c.name, r.1));
      EmitGrows(r.0.(cloFields := r.0.cloFields[node := CloSite(c.name, r.1)]), ClosureSite(node));
    } else {
      EscapesGrow(g, c.caps, scope, cur);
    }
  }

  lemma CompGrows(f: Flow, c: Comp, node: Node, scope: seq<Node>, cur: Option<nat>)
    requires Wf(f) && Place(f, scope, cur) && Unused(f, node)
    ensures Grown(f, GenComp(f, c, node, scope, cur))
  {
    hide Wf, Linked, AtomNode, GenPrim, GenGlobal;
    match c
    case Use(a) =>
      AtomGrows(f, a, scope, cur);
      var from := AtomNode(f, a, scope, cur);
      EmitGrows(from.0, Copy(node, from.1));
    case MkClosure(_, _) => ClosureGrows(f, c, node, scope, cur);
    case Call(h, a) => CallGrows(f, h, a, node, scope, cur);
    case CallGlobal(name, a) => GlobalGrows(f, name, a, node, scope, cur);
    case CallKnown(_, _, _) =>
    case Prim(op, args) => PrimGrows(f, op, args, node, scope, cur);
  }

  lemma {:induction false} BindersGrow(f: Flow, m: nat)
    requires Wf(f)
    ensures var r := Binders(f, m); Grown(f, r.0) && NodesIn(r.0, r.1)
    ensures var r := Binders(f, m); forall k :: 0 <= k < m ==> Open(r.1[k]) in r.0.cstrs
  {
    hide Linked;
    if m > 0 {
      BindersGrow(f, m - 1);
      BinderGrows(Binders(f, m - 1).0);
    }
  }

  lemma BinderGrows(f: Flow)
    requires Wf(f)
    ensures var g := f.Fresh().Emit(Open(f.n)); Grown(f, g) && Open(f.n) in g.cstrs
  {
    hide Linked;
    FreshGrows(f);
    EmitGrows(f.Fresh(), Open(f.n));
    var g := f.Fresh().Emit(Open(f.n));
    assert g.cstrs[|g.cstrs| - 1] == Open(f.n);
  }

  lemma PlaceExtends(f: Flow, g: Flow, scope: seq<Node>, cur: Option<nat>)
    requires Place(f, scope, cur) && Extends(f, g)
    ensures Place(g, scope, cur)
  {}

  lemma RetIn(f: Flow, cur: Option<nat>)
    requires Wf(f)
    ensures f.RetNode(cur) < f.n
  {}

  lemma {:induction false} TailGrows(f: Flow, t: Tail, scope: seq<Node>, cur: Option<nat>)
    requires Wf(f) && Place(f, scope, cur)
    ensures Grown(f, GenTail(f, t, scope, cur))
    decreases t, 1
  {
    hide Wf, Linked, AtomNode, GenComp, GenGlobal, GenArms;
    RetIn(f, cur);
    match t
    case Ret(a) =>
      AtomGrows(f, a, scope, cur);
      var from := AtomNode(f, a, scope, cur);
      EmitGrows(from.0, Copy(f.RetNode(cur), from.1));
    case Let(c, rest) =>
      LetGrows(f, c, scope, cur);
      TailGrows(GenComp(f.Fresh(), c, f.n, scope, cur), rest, [f.n] + scope, cur);
    case TailCall(h, a) => CallGrows(f, h, a, f.RetNode(cur), scope, cur);
    case TailCallGlobal(name, a) => GlobalGrows(f, name, a, f.RetNode(cur), scope, cur);
    case TailCallKnown(_, _, _) =>
    case Jump(a) => JumpGrows(f, a, scope, cur);
    case Case(_, arms) => ArmsGrow(f, arms, scope, cur);
    case IfZero(_, a, b) =>
      TailGrows(f, a, scope, cur);
      PlaceExtends(f, GenTail(f, a, scope, cur), scope, cur);
      TailGrows(GenTail(f, a, scope, cur), b, scope, cur);
  }

  /** The bound node is new, and the rest of the body is in scope after the computation. */
  lemma LetGrows(f: Flow, c: Comp, scope: seq<Node>, cur: Option<nat>)
    requires Wf(f) && Place(f, scope, cur)
    ensures var g := GenComp(f.Fresh(), c, f.n, scope, cur);
      Grown(f, g) && Grown(f.Fresh(), g) && Place(g, [f.n] + scope, cur)
    ensures Wf(f.Fresh()) && Place(f.Fresh(), scope, cur) && Unused(f.Fresh(), f.n)
  {
    hide Linked, Wf, GenComp;
    FreshGrows(f);
    PlaceExtends(f, f.Fresh(), scope, cur);
    CompGrows(f.Fresh(), c, f.n, scope, cur);
  }

  lemma JumpGrows(f: Flow, a: Atom, scope: seq<Node>, cur: Option<nat>)
    requires Wf(f) && Place(f, scope, cur)
    ensures Grown(f, GenTail(f, Jump(a), scope, cur))
  {
    hide Linked, AtomNode;
    AtomGrows(f, a, scope, cur);
    var from := AtomNode(f, a, scope, cur);
    if cur.Some? { EmitGrows(from.0, Copy(f.param[cur.value], from.1)); }
  }

  lemma {:induction false} ArmsGrow(f: Flow, arms: seq<TailArm>, scope: seq<Node>, cur: Option<nat>)
    requires Wf(f) && Place(f, scope, cur)
    ensures Grown(f, GenArms(f, arms, scope, cur))
    decreases arms, 0
  {
    hide Wf, Linked, GenTail;
    if arms != [] {
      ArmStart(f, arms, |arms| - 1, scope, cur);
    }
  }

  /** Where arm `k` starts: after the arms before it, with its binders in scope. */
  lemma {:induction false} ArmStart(f: Flow, arms: seq<TailArm>, k: nat, scope: seq<Node>, cur: Option<nat>)
    requires Wf(f) && Place(f, scope, cur) && k < |arms|
    ensures var b := Binders(GenArms(f, arms[..k], scope, cur), arms[k].binders);
      Grown(f, b.0) && Place(b.0, b.1 + scope, cur)
      && Grown(b.0, GenTail(b.0, arms[k].body, b.1 + scope, cur))
      && Extends(f, GenTail(b.0, arms[k].body, b.1 + scope, cur))
    ensures Extends(f, GenArms(f, arms[..k], scope, cur))
    decreases arms, 0, k
  {
    hide Wf, Linked, GenTail, Binders, GenArms;
    ArmsGrow(f, arms[..k], scope, cur);
    var g := GenArms(f, arms[..k], scope, cur);
    BindersGrow(g, arms[k].binders);
    var b := Binders(g, arms[k].binders);
    PlaceExtends(f, b.0, scope, cur);
    TailGrows(b.0, arms[k].body, b.1 + scope, cur);
  }

  // ---- the whole program ----

  lemma StartWf(funcs: seq<AnfFunc>)
    ensures Wf(Start(funcs))
  {}

  /** Function `i`'s body is analyzed in the scope of its parameter, and the graph keeps growing. */
  lemma {:induction false} FuncsGrow(funcs: seq<AnfFunc>, i: nat)
    requires i <= |funcs|
    ensures Grown(Start(funcs), GenFuncs(Start(funcs), funcs, i))
  {
    hide Wf, GenTail, Linked, Start;
    StartWf(funcs);
    StartParams(funcs);
    if i > 0 {
      FuncsGrow(funcs, i - 1);
      FuncPlace(Start(funcs), GenFuncs(Start(funcs), funcs, i - 1), i - 1);
      TailGrows(GenFuncs(Start(funcs), funcs, i - 1), funcs[i - 1].body, [Start(funcs).param[i - 1]], Some(i - 1));
    }
  }

  lemma StartParams(funcs: seq<AnfFunc>)
    ensures |Start(funcs).param| == |funcs|
  {}

  lemma FuncPlace(f: Flow, g: Flow, i: nat)
    requires Grown(f, g) && i < |f.param|
    ensures Place(g, [g.param[i]], Some(i))
  {}

  /** The finished graph contains what each body, and the entry, contributed. */
  lemma BuildGrows(p: AnfProgram)
    ensures Grown(Start(p.funcs), Build(p))
    ensures Grown(GenFuncs(Start(p.funcs), p.funcs, |p.funcs|), Build(p))
  {
    hide Wf, GenTail, Linked, Start;
    FuncsGrow(p.funcs, |p.funcs|);
    EntryPlace(GenFuncs(Start(p.funcs), p.funcs, |p.funcs|));
    TailGrows(GenFuncs(Start(p.funcs), p.funcs, |p.funcs|), p.entry, [], None);
  }

  lemma EntryPlace(f: Flow)
    ensures Place(f, [], None)
  {}

  lemma {:induction false} LaterFuncs(funcs: seq<AnfFunc>, i: nat, j: nat)
    requires i <= j <= |funcs|
    ensures Extends(GenFuncs(Start(funcs), funcs, i), GenFuncs(Start(funcs), funcs, j))
    decreases j
  {
    hide Wf, GenTail, Linked, Start;
    if i < j {
      LaterFuncs(funcs, i, j - 1);
      FuncsGrow(funcs, j - 1);
      StartParams(funcs);
      FuncPlace(Start(funcs), GenFuncs(Start(funcs), funcs, j - 1), j - 1);
      TailGrows(GenFuncs(Start(funcs), funcs, j - 1), funcs[j - 1].body, [Start(funcs).param[j - 1]], Some(j - 1));
    }
  }
}
