/** ANF normalization and the peephole, as functions of the converted program. */
module Normalize {
  import opened Basics
  import opened Values
  import opened CirLang
  import opened AnfLang
  import opened DeferredShift

  /** The `let`s emitted for a term (innermost last) and the atom that names its value. */
  datatype Anf = Anf(binds: seq<Comp>, atom: Atom)
  datatype AnfSeq = AnfSeq(binds: seq<Comp>, atoms: seq<Atom>)

  /** How a function body is normalized: its name, whether it is recursive, and whether captureless
      applications are fused. */
  datatype Mode = Mode(self: Option<FName>, recursive: bool, fuse: bool)

  function ShiftAtom(a: Atom, depth: nat, step: nat): Atom {
    if a.Var? && a.i >= depth then Atom.Var(a.i + step) else a
  }

  function ShiftAtoms(atoms: seq<Atom>, step: nat): (r: seq<Atom>)
    ensures |r| == |atoms|
  {
    seq(|atoms|, k requires 0 <= k < |atoms| => ShiftAtom(atoms[k], 0, step))
  }

  /** Emit `c` for its value under deferred shift `s`. */
  function Atomize(c: Cir, s: Shift, fuse: bool): Anf
    decreases c, 1
  {
    match c
    case Var(i) => Anf([], Atom.Var(DeferredShift.Apply(s, i)))
    case EnvRef(k) => Anf([], Atom.EnvRef(k))
    case Global(g) => Anf([], Atom.Global(g))
    case Erased => Anf([], Atom.Erased)
    case MkClosure(name, caps) =>
      var q := Seq(caps, s, fuse);
      Anf(q.binds + [Comp.MkClosure(name, q.atoms)], Atom.Var(0))
    case CallClosure(_, _) => AtomizeCall(c, s, fuse)
    case App(_, _) => AtomizeCall(c, s, fuse)
    case Prim(op, args) =>
      var q := Seq(args, s, fuse);
      Anf(q.binds + [Comp.Prim(op, q.atoms)], Atom.Var(0))
    case Let(v, b) =>
      var x := Atomize(v, s, fuse);
      var y := Atomize(b, LetShift(s, |x.binds|), fuse);
      Anf(x.binds + [Use(x.atom)] + y.binds, y.atom)
    case Lam(_) => Anf([], Atom.Erased)
    case Fix(_) => Anf([], Atom.Erased)
    case Case(_, _) => Anf([], Atom.Erased)
    case IfZero(_, _, _) => Anf([], Atom.Erased)
  }

  /** A captureless callee is called directly; any other is built first. */
  function AtomizeCall(c: Cir, s: Shift, fuse: bool): Anf
    requires c.CallClosure? || c.App?
    decreases c, 0
  {
    if fuse && c.f.MkClosure? && c.f.caps == [] then
      var x := Atomize(c.a, s, fuse);
      Anf(x.binds + [CallGlobal(c.f.name, x.atom)], Atom.Var(0))
    else
      var x := Atomize(c.f, s, fuse);
      var y := Atomize(c.a, Pushed(s, 0, |x.binds|), fuse);
      Anf(x.binds + y.binds + [Call(ShiftAtom(x.atom, 0, |y.binds|), y.atom)], Atom.Var(0))
  }

  /** A `let` body sees its binder first and skips the `nv` slots emitted for the bound value. */
  function LetShift(s: Shift, nv: nat): Shift {
    Pushed(UnderBinders(s, 1), 1, nv)
  }

  /** Emit operands left to right; earlier atoms move up as later operands emit more `let`s. */
  function Seq(cs: seq<Cir>, s: Shift, fuse: bool): (r: AnfSeq)
    ensures |r.atoms| == |cs|
    decreases cs, 0
  {
    if cs == [] then AnfSeq([], [])
    else
      var front := Seq(cs[..|cs| - 1], s, fuse);
      var last := Atomize(cs[|cs| - 1], Pushed(s, 0, |front.binds|), fuse);
      AnfSeq(front.binds + last.binds, ShiftAtoms(front.atoms, |last.binds|) + [last.atom])
  }

  function Wrap(binds: seq<Comp>, t: Tail): Tail {
    if binds == [] then t else Tail.Let(binds[0], Wrap(binds[1..], t))
  }

  /** Emit `c` in tail position. */
  function ToTail(c: Cir, s: Shift, m: Mode): Tail
    decreases c, 1
  {
    match c
    case CallClosure(f, a) => TailOfCall(f, a, s, m)
    case App(f, a) => TailOfCall(f, a, s, m)
    case Case(scrut, arms) =>
      var x := Atomize(scrut, s, m.fuse);
      Wrap(x.binds, Tail.Case(x.atom, ToTailArms(arms, s, |x.binds|, m)))
    case IfZero(scrut, t, e) =>
      var x := Atomize(scrut, s, m.fuse);
      var branch := Pushed(s, 0, |x.binds|);
      Wrap(x.binds, Tail.IfZero(x.atom, ToTail(t, branch, m), ToTail(e, branch, m)))
    case Let(v, b) =>
      var x := Atomize(v, s, m.fuse);
      Wrap(x.binds + [Use(x.atom)], ToTail(b, LetShift(s, |x.binds|), m))
    case _ =>
      var x := Atomize(c, s, m.fuse);
      Wrap(x.binds, Ret(x.atom))
  }

  function ToTailArms(arms: seq<Arm>, s: Shift, pushed: nat, m: Mode): (r: seq<TailArm>)
    ensures |r| == |arms|
    decreases arms, 0
  {
    seq(|arms|, k requires 0 <= k < |arms| =>
      TailArm(arms[k].con, arms[k].binders, ToTail(arms[k].body, ArmShift(s, arms[k].binders, pushed), m)))
  }

  /** An arm body keeps its field binders and skips the slots emitted for the scrutinee. */
  function ArmShift(s: Shift, binders: nat, pushed: nat): Shift {
    Pushed(UnderBinders(s, binders), binders, pushed)
  }

  function TailOfCall(f: Cir, a: Cir, s: Shift, m: Mode): Tail {
    if m.self.Some? && m.recursive && f.MkClosure? && f.name == m.self.value && f.caps == [] then
      var x := Atomize(a, s, m.fuse);
      Wrap(x.binds, Jump(x.atom))
    else
      var x := Atomize(f, s, m.fuse);
      var y := Atomize(a, Pushed(s, 0, |x.binds|), m.fuse);
      var fa := ShiftAtom(x.atom, 0, |y.binds|);
      if m.self.Some? && m.recursive && fa == Atom.Global(m.self.value) then
        Wrap(x.binds + y.binds, Jump(y.atom))
      else
        Wrap(x.binds + y.binds, TailCall(fa, y.atom))
  }

  // ---- peephole ----

  function ShiftAtomDown(a: Atom): Atom {
    if a.Var? && a.i >= 1 then Atom.Var(a.i - 1) else a
  }

  /** Is the capture list the function's own environment, unchanged? */
  predicate IdentityCaptures(caps: seq<Atom>) {
    forall k :: 0 <= k < |caps| ==> caps[k] == Atom.EnvRef(k)
  }

  /** Fuse a closure built only to be tail-called at once. */
  function Peephole(t: Tail, self: Option<FName>, recursive: bool, raise: bool): Tail {
    match t
    case Let(comp, rest) =>
      if comp.MkClosure? && rest.TailCall? && rest.f == Atom.Var(0) && rest.arg != Atom.Var(0)
        && (comp.caps == [] || (raise && recursive && self == Some(comp.name) && IdentityCaptures(comp.caps)))
      then
        var arg := ShiftAtomDown(rest.arg);
        if recursive && self == Some(comp.name) then Jump(arg) else TailCallGlobal(comp.name, arg)
      else
        Tail.Let(comp, Peephole(rest, self, recursive, raise))
    case Case(scrut, arms) =>
      Tail.Case(scrut, seq(|arms|, k requires 0 <= k < |arms| =>
        TailArm(arms[k].con, arms[k].binders, Peephole(arms[k].body, self, recursive, raise))))
    case IfZero(scrut, a, b) =>
      Tail.IfZero(scrut, Peephole(a, self, recursive, raise), Peephole(b, self, recursive, raise))
    case _ => t
  }

  // ---- programs ----

  function NormalizeFunc(f: Func, fuse: bool, raise: bool): AnfFunc {
    AnfFunc(f.name, f.recursive,
      Peephole(ToTail(f.body, IDENTITY, Mode(Some(f.name), f.recursive, fuse)), Some(f.name), f.recursive, raise))
  }

  function NormalizeFuncs(funcs: seq<Func>, fuse: bool, raise: bool): (r: seq<AnfFunc>)
    ensures |r| == |funcs|
  {
    seq(|funcs|, k requires 0 <= k < |funcs| => NormalizeFunc(funcs[k], fuse, raise))
  }

  function NormalizeProgram(p: Program, fuse: bool, raise: bool): AnfProgram {
    AnfProgram(
      NormalizeFuncs(p.funcs, fuse, raise),
      Peephole(ToTail(p.entry, IDENTITY, Mode(None, false, fuse)), None, false, raise))
  }

  // ---- the fragment ----

  /** Operands hold no branch: what a program must satisfy for its branches to reach tail position. */
  predicate Straight(c: Cir) {
    match c
    case CallClosure(f, a) => Straight(f) && Straight(a)
    case Let(v, b) => Straight(v) && Straight(b)
    case MkClosure(_, caps) => forall k :: 0 <= k < |caps| ==> Straight(caps[k])
    case Prim(_, args) => forall k :: 0 <= k < |args| ==> Straight(args[k])
    case App(_, _) => false
    case Lam(_) => false
    case Fix(_) => false
    case Case(_, _) => false
    case IfZero(_, _, _) => false
    case _ => true
  }

  predicate BranchesInTail(c: Cir) {
    match c
    case Let(v, b) => Straight(v) && BranchesInTail(b)
    case Case(s, arms) => Straight(s) && forall k :: 0 <= k < |arms| ==> BranchesInTail(arms[k].body)
    case IfZero(s, t, e) => Straight(s) && BranchesInTail(t) && BranchesInTail(e)
    case _ => Straight(c)
  }

  predicate ProgramInFragment(p: Program) {
    BranchesInTail(p.entry) && forall f :: f in p.funcs ==> BranchesInTail(f.body)
  }
}
