/** Programs that build no constructor with arguments: nothing escapes in them, by any solution of the
    analysis. */
module Boxless {
  import opened Basics
  import opened Values
  import opened CirLang
  import opened AnfLang
  import opened DeferredShift
  import opened Normalize
  import opened Shapes
  import opened Cfa
  import opened CfaSound

  // ---- normal forms box nothing new ----

  predicate CompBoxless(c: Comp) {
    c.Prim? ==> Allowed(c.op, |c.args|, false)
  }

  predicate CompsBoxless(cs: seq<Comp>) {
    forall k :: 0 <= k < |cs| ==> CompBoxless(cs[k])
  }

  predicate TailBoxless(t: Tail) {
    match t
    case Let(c, rest) => CompBoxless(c) && TailBoxless(rest)
    case Case(_, arms) => forall k :: 0 <= k < |arms| ==> TailBoxless(arms[k].body)
    case IfZero(_, a, b) => TailBoxless(a) && TailBoxless(b)
    case _ => true
  }

  lemma {:induction false} AtomizeBoxless(c: Cir, s: Shift, fuse: bool, m: Shapes.Mode)
    requires Shaped(c, m, false)
    ensures CompsBoxless(Atomize(c, s, fuse).binds)
    decreases c, 1
  {
    match c
    case CallClosure(_, _) => CallBoxless(c, s, fuse, m);
    case App(_, _) => CallBoxless(c, s, fuse, m);
    case Let(v, b) =>
      AtomizeBoxless(v, s, fuse, Inner(m));
      AtomizeBoxless(b, LetShift(s, |Atomize(v, s, fuse).binds|), fuse, m);
    case MkClosure(_, caps) => SeqBoxless(caps, s, fuse, Inner(m));
    case Prim(_, args) => SeqBoxless(args, s, fuse, Inner(m));
    case _ =>
  }

  lemma {:induction false} CallBoxless(c: Cir, s: Shift, fuse: bool, m: Shapes.Mode)
    requires (c.CallClosure? || c.App?) && Shaped(c, m, false)
    ensures CompsBoxless(AtomizeCall(c, s, fuse).binds)
    decreases c, 0
  {
    hide Atomize;
    AtomizeBoxless(c.a, s, fuse, Inner(m));
    AtomizeBoxless(c.f, s, fuse, Inner(m));
    AtomizeBoxless(c.a, Pushed(s, 0, |Atomize(c.f, s, fuse).binds|), fuse, Inner(m));
  }

  lemma {:induction false} SeqBoxless(cs: seq<Cir>, s: Shift, fuse: bool, m: Shapes.Mode)
    requires forall k :: 0 <= k < |cs| ==> Shaped(cs[k], m, false) == true
    ensures CompsBoxless(Seq(cs, s, fuse).binds)
    decreases cs, 0
  {
    hide Atomize, Shaped;
    if cs != [] {
      SeqBoxless(cs[..|cs| - 1], s, fuse, m);
      AtomizeBoxless(cs[|cs| - 1], Pushed(s, 0, |Seq(cs[..|cs| - 1], s, fuse).binds|), fuse, m);
    }
  }

  lemma {:induction false} WrapBoxless(binds: seq<Comp>, t: Tail)
    requires CompsBoxless(binds) && TailBoxless(t)
    ensures TailBoxless(Wrap(binds, t))
    decreases |binds|
  {
    if binds != [] { WrapBoxless(binds[1..], t); }
  }

  lemma {:induction false} ToTailBoxless(c: Cir, s: Shift, n: Normalize.Mode, m: Shapes.Mode)
    requires Shaped(c, m, false)
    ensures TailBoxless(ToTail(c, s, n))
    decreases c, 1
  {
    hide Atomize, Wrap, TailOfCall, ToTailArms, CompsBoxless;
    match c
    case CallClosure(f, a) => TailCallBoxless(f, a, s, n, Inner(m));
    case App(f, a) => TailCallBoxless(f, a, s, n, Inner(m));
    case Case(scrut, arms) =>
      AtomizeBoxless(scrut, s, n.fuse, Inner(m));
      var x := Atomize(scrut, s, n.fuse);
      ArmsBoxless(arms, s, |x.binds|, n, m);
      WrapBoxless(x.binds, Tail.Case(x.atom, ToTailArms(arms, s, |x.binds|, n)));
    case IfZero(scrut, t, e) =>
      AtomizeBoxless(scrut, s, n.fuse, Inner(m));
      var x := Atomize(scrut, s, n.fuse);
      var branch := Pushed(s, 0, |x.binds|);
      ToTailBoxless(t, branch, n, m);
      ToTailBoxless(e, branch, n, m);
      WrapBoxless(x.binds, Tail.IfZero(x.atom, ToTail(t, branch, n), ToTail(e, branch, n)));
    case Let(v, b) =>
      AtomizeBoxless(v, s, n.fuse, Inner(m));
      var x := Atomize(v, s, n.fuse);
      ToTailBoxless(b, LetShift(s, |x.binds|), n, m);
      UseBoxless(x.binds, x.atom);
      WrapBoxless(x.binds + [Use(x.atom)], ToTail(b, LetShift(s, |x.binds|), n));
    case _ =>
      AtomizeBoxless(c, s, n.fuse, m);
      WrapBoxless(Atomize(c, s, n.fuse).binds, Ret(Atomize(c, s, n.fuse).atom));
  }

  lemma UseBoxless(binds: seq<Comp>, a: Atom)
    requires CompsBoxless(binds)
    ensures CompsBoxless(binds + [Use(a)])
  {}

  lemma {:induction false} ArmsBoxless(arms: seq<Arm>, s: Shift, pushed: nat, n: Normalize.Mode, m: Shapes.Mode)
    requires forall k :: 0 <= k < |arms| ==> Shaped(arms[k].body, m, false) == true
    ensures forall k :: 0 <= k < |arms| ==> TailBoxless(ToTailArms(arms, s, pushed, n)[k].body) == true
    decreases arms, 0
  {
    hide ToTail, Shaped, TailBoxless;
    forall k | 0 <= k < |arms| ensures TailBoxless(ToTailArms(arms, s, pushed, n)[k].body) == true {
      ToTailBoxless(arms[k].body, ArmShift(s, arms[k].binders, pushed), n, m);
    }
  }

  lemma TailCallBoxless(f: Cir, a: Cir, s: Shift, n: Normalize.Mode, m: Shapes.Mode)
    requires Shaped(f, m, false) && Shaped(a, m, false)
    ensures TailBoxless(TailOfCall(f, a, s, n))
  {
    hide Atomize, Wrap, Shaped;
    AtomizeBoxless(a, s, n.fuse, m);
    var only, x := Atomize(a, s, n.fuse), Atomize(f, s, n.fuse);
    WrapBoxless(only.binds, Jump(only.atom));
    AtomizeBoxless(f, s, n.fuse, m);
    AtomizeBoxless(a, Pushed(s, 0, |x.binds|), n.fuse, m);
    var y := Atomize(a, Pushed(s, 0, |x.binds|), n.fuse);
    WrapBoxless(x.binds + y.binds, Jump(y.atom));
    WrapBoxless(x.binds + y.binds, TailCall(Normalize.ShiftAtom(x.atom, 0, |y.binds|), y.atom));
  }

  lemma {:induction false} PeepholeBoxless(t: Tail, self: Option<FName>, recursive: bool, raise: bool)
    requires TailBoxless(t)
    ensures TailBoxless(Peephole(t, self, recursive, raise))
    decreases t
  {
    hide IdentityCaptures, CompBoxless;
    match t
    case Let(_, rest) => PeepholeBoxless(rest, self, recursive, raise);
    case Case(_, arms) =>
      forall k | 0 <= k < |arms| ensures TailBoxless(Peephole(arms[k].body, self, recursive, raise)) {
        PeepholeBoxless(arms[k].body, self, recursive, raise);
      }
    case IfZero(_, a, b) =>
      PeepholeBoxless(a, self, recursive, raise);
      PeepholeBoxless(b, self, recursive, raise);
    case _ =>
  }

  ghost predicate AnfBoxless(p: AnfProgram) {
    (forall f :: f in p.funcs ==> TailBoxless(f.body)) && TailBoxless(p.entry)
  }

  lemma NormalBoxless(p: Program, fuse: bool, raise: bool)
    requires Shaped(p.entry, Body, false) && forall f :: f in p.funcs ==> Shaped(f.body, Body, false)
    ensures AnfBoxless(NormalizeProgram(p, fuse, raise))
  {
    hide ToTail, Peephole, Shaped, TailBoxless;
    var q := NormalizeProgram(p, fuse, raise);
    forall g | g in q.funcs ensures TailBoxless(g.body) {
      var k :| 0 <= k < |q.funcs| && q.funcs[k] == g;
      var f := p.funcs[k];
      var n := Normalize.Mode(Some(f.name), f.recursive, fuse);
      ToTailBoxless(f.body, IDENTITY, n, Body);
      PeepholeBoxless(ToTail(f.body, IDENTITY, n), Some(f.name), f.recursive, raise);
    }
    ToTailBoxless(p.entry, IDENTITY, Normalize.Mode(None, false, fuse), Body);
    PeepholeBoxless(ToTail(p.entry, IDENTITY, Normalize.Mode(None, false, fuse)), None, false, raise);
  }

  // ---- nothing escapes ----

  /** No value escapes in `g` that does not in `f`. */
  ghost predicate NoMoreEscapes(f: Flow, g: Flow) {
    g.index == f.index && forall c :: c in g.cstrs && c.Escape? ==> c in f.cstrs
  }

  lemma AtomEscapes(f: Flow, a: Atom, ns: seq<Node>, cur: Option<nat>)
    ensures NoMoreEscapes(f, AtomNode(f, a, ns, cur).0)
  {}

  lemma {:induction false} AtomsEscape(f: Flow, atoms: seq<Atom>, ns: seq<Node>, cur: Option<nat>)
    ensures NoMoreEscapes(f, AtomNodes(f, atoms, ns, cur).0)
  {
    hide AtomNode;
    if atoms != [] {
      AtomsEscape(f, atoms[..|atoms| - 1], ns, cur);
      AtomEscapes(AtomNodes(f, atoms[..|atoms| - 1], ns, cur).0, atoms[|atoms| - 1], ns, cur);
    }
  }

  lemma {:induction false} CapturesEscape(f: Flow, func: nat, caps: seq<Atom>, ns: seq<Node>, cur: Option<nat>)
    ensures NoMoreEscapes(f, Cfa.Captures(f, func, caps, ns, cur).0)
  {
    hide AtomNode;
    if caps != [] {
      CapturesEscape(f, func, caps[..|caps| - 1], ns, cur);
      AtomEscapes(Cfa.Captures(f, func, caps[..|caps| - 1], ns, cur).0, caps[|caps| - 1], ns, cur);
    }
  }

  lemma {:induction false} BindersEscape(f: Flow, m: nat)
    ensures NoMoreEscapes(f, Binders(f, m).0)
  {
    if m > 0 { BindersEscape(f, m - 1); }
  }

  lemma CompEscapes(f: Flow, c: Comp, node: Node, ns: seq<Node>, cur: Option<nat>)
    requires CompBoxless(c) && PlainComp(c, f.index.Keys)
    ensures NoMoreEscapes(f, GenComp(f, c, node, ns, cur))
  {
    hide AtomNode, GenPrim, Cfa.Captures;
    match c
    case Use(a) => AtomEscapes(f, a, ns, cur);
    case MkClosure(name, caps) =>
      CapturesEscape(f.Emit(Closure(node, name)).Emit(NotLit(node)), f.index[name], caps, ns, cur);
    case Call(h, a) =>
      AtomEscapes(f, h, ns, cur);
      AtomEscapes(AtomNode(f, h, ns, cur).0, a, ns, cur);
    case CallGlobal(_, a) => AtomEscapes(f, a, ns, cur);
    case Prim(op, args) => PrimEscapes(f, op, args, node, ns, cur);
  }

  lemma PrimEscapes(f: Flow, op: PrimOp, args: seq<Atom>, node: Node, ns: seq<Node>, cur: Option<nat>)
    requires Allowed(op, |args|, false)
    ensures NoMoreEscapes(f, GenPrim(f, op, args, node, ns, cur))
  {
    hide AtomNode, AtomNodes;
    AtomsEscape(f.Emit(Site(node)).Emit(NotLit(node)), args, ns, cur);
    if |args| == 1 { AtomEscapes(f, args[0], ns, cur); }
  }

  lemma {:induction false} TailEscapes(f: Flow, t: Tail, ns: seq<Node>, cur: Option<nat>)
    requires TailBoxless(t) && Plain(t, f.index.Keys)
    ensures NoMoreEscapes(f, GenTail(f, t, ns, cur))
    decreases t, 1
  {
    hide AtomNode, GenComp, CompBoxless, PlainComp;
    match t
    case Ret(a) => AtomEscapes(f, a, ns, cur);
    case Let(c, rest) =>
      CompEscapes(f.Fresh(), c, f.n, ns, cur);
      TailEscapes(GenComp(f.Fresh(), c, f.n, ns, cur), rest, [f.n] + ns, cur);
    case TailCall(h, a) =>
      AtomEscapes(f, h, ns, cur);
      AtomEscapes(AtomNode(f, h, ns, cur).0, a, ns, cur);
    case TailCallGlobal(_, a) => AtomEscapes(f, a, ns, cur);
    case Jump(a) => AtomEscapes(f, a, ns, cur);
    case Case(_, arms) => ArmsEscape(f, arms, ns, cur);
    case IfZero(_, a, b) =>
      TailEscapes(f, a, ns, cur);
      TailEscapes(GenTail(f, a, ns, cur), b, ns, cur);
  }

  lemma {:induction false} ArmsEscape(f: Flow, arms: seq<TailArm>, ns: seq<Node>, cur: Option<nat>)
    requires forall k :: 0 <= k < |arms| ==> TailBoxless(arms[k].body) == true && Plain(arms[k].body, f.index.Keys) == true
    ensures NoMoreEscapes(f, GenArms(f, arms, ns, cur))
    decreases arms, 0
  {
    hide GenTail, TailBoxless, Plain;
    if arms != [] {
      var last := arms[|arms| - 1];
      ArmsEscape(f, arms[..|arms| - 1], ns, cur);
      var g := GenArms(f, arms[..|arms| - 1], ns, cur);
      BindersEscape(g, last.binders);
      TailEscapes(Binders(g, last.binders).0, last.body, Binders(g, last.binders).1 + ns, cur);
    }
  }

  lemma {:induction false} FuncsEscape(funcs: seq<AnfFunc>, i: nat)
    requires i <= |funcs|
    requires forall f :: f in funcs ==> TailBoxless(f.body) && Plain(f.body, IndexOf(funcs).Keys)
    ensures NoMoreEscapes(Start(funcs), GenFuncs(Start(funcs), funcs, i))
  {
    hide GenTail, TailBoxless, Plain;
    if i > 0 {
      FuncsEscape(funcs, i - 1);
      var g := GenFuncs(Start(funcs), funcs, i - 1);
      TailEscapes(g, funcs[i - 1].body, if i - 1 < |g.param| then [g.param[i - 1]] else [], Some(i - 1));
    }
  }

  /** No value escapes in a program without boxes, whatever the solution. */
  lemma NothingBoxed(p: AnfProgram, sol: Solution)
    requires PlainProgram(p) && AnfBoxless(p)
    ensures Clean(Build(p), sol, {}) && NothingEscapes(Build(p), {})
  {
    hide GenTail, GenFuncs, TailBoxless, Plain;
    FuncsEscape(p.funcs, |p.funcs|);
    TailEscapes(GenFuncs(Start(p.funcs), p.funcs, |p.funcs|), p.entry, [], None);
  }
}
