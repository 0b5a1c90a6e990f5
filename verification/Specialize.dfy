/** A captureless clone of a function: its captures become literals bound in front of its body. */
module Specialize {
  import opened Basics
  import opened Values
  import opened CirLang
  import opened AnfLang
  import opened CfaSound

  /** Embed an atom at local depth `depth` under `m` literal bindings. A read past the captures is
      where the source's index would go below zero; `EnvBelow` excludes it. */
  function ShiftAtom(a: Atom, depth: nat, m: nat): Atom {
    match a
    case Var(i) => if i >= depth then Atom.Var(i + m) else a
    case EnvRef(k) => if k < m then Atom.Var(depth + m - 1 - k) else Atom.Erased
    case _ => a
  }

  function ShiftAtoms(atoms: seq<Atom>, depth: nat, m: nat): (r: seq<Atom>)
    ensures |r| == |atoms|
  {
    seq(|atoms|, k requires 0 <= k < |atoms| => ShiftAtom(atoms[k], depth, m))
  }

  function ShiftComp(c: Comp, depth: nat, m: nat): Comp {
    match c
    case Use(a) => Use(ShiftAtom(a, depth, m))
    case MkClosure(name, caps) => Comp.MkClosure(name, ShiftAtoms(caps, depth, m))
    case Call(f, a) => Call(ShiftAtom(f, depth, m), ShiftAtom(a, depth, m))
    case CallGlobal(name, a) => CallGlobal(name, ShiftAtom(a, depth, m))
    case CallKnown(name, e, a) => CallKnown(name, ShiftAtom(e, depth, m), ShiftAtom(a, depth, m))
    case Prim(op, args) => Comp.Prim(op, ShiftAtoms(args, depth, m))
  }

  function ShiftTail(t: Tail, depth: nat, m: nat): Tail {
    match t
    case Ret(a) => Ret(ShiftAtom(a, depth, m))
    case Let(c, rest) => Tail.Let(ShiftComp(c, depth, m), ShiftTail(rest, depth + 1, m))
    case TailCall(f, a) => TailCall(ShiftAtom(f, depth, m), ShiftAtom(a, depth, m))
    case Jump(a) => Jump(ShiftAtom(a, depth, m))
    case TailCallGlobal(name, a) => TailCallGlobal(name, ShiftAtom(a, depth, m))
    case TailCallKnown(name, e, a) => TailCallKnown(name, ShiftAtom(e, depth, m), ShiftAtom(a, depth, m))
    case Case(s, arms) => Tail.Case(ShiftAtom(s, depth, m), seq(|arms|, k requires 0 <= k < |arms| =>
      TailArm(arms[k].con, arms[k].binders, ShiftTail(arms[k].body, depth + arms[k].binders, m))))
    case IfZero(s, a, b) => Tail.IfZero(ShiftAtom(s, depth, m), ShiftTail(a, depth, m), ShiftTail(b, depth, m))
  }

  function BindAll(lits: seq<Comp>, t: Tail): Tail {
    if lits == [] then t else Tail.Let(lits[0], BindAll(lits[1..], t))
  }

  /** The clone's body: bind the literals, the first outermost, then run the embedded body. */
  function SpecializeBody(body: Tail, lits: seq<Comp>): Tail {
    BindAll(lits, ShiftTail(body, 0, |lits|))
  }

  // ---- which bodies can be embedded ----

  predicate AtomBelow(a: Atom, m: nat) {
    a.EnvRef? ==> a.k < m
  }

  predicate AtomsBelow(atoms: seq<Atom>, m: nat) {
    forall k :: 0 <= k < |atoms| ==> AtomBelow(atoms[k], m)
  }

  predicate CompBelow(c: Comp, m: nat) {
    match c
    case Use(a) => AtomBelow(a, m)
    case MkClosure(_, caps) => AtomsBelow(caps, m)
    case Call(f, a) => AtomBelow(f, m) && AtomBelow(a, m)
    case CallGlobal(_, a) => AtomBelow(a, m)
    case CallKnown(_, e, a) => AtomBelow(e, m) && AtomBelow(a, m)
    case Prim(_, args) => AtomsBelow(args, m)
  }

  /** The body reads only the first `m` captures, and never jumps back to its own entry. */
  predicate EnvBelow(t: Tail, m: nat) {
    match t
    case Ret(a) => AtomBelow(a, m)
    case Let(c, rest) => CompBelow(c, m) && EnvBelow(rest, m)
    case TailCall(f, a) => AtomBelow(f, m) && AtomBelow(a, m)
    case Jump(_) => false
    case TailCallGlobal(_, a) => AtomBelow(a, m)
    case TailCallKnown(_, e, a) => AtomBelow(e, m) && AtomBelow(a, m)
    case Case(s, arms) => AtomBelow(s, m) && forall k :: 0 <= k < |arms| ==> EnvBelow(arms[k].body, m)
    case IfZero(s, a, b) => AtomBelow(s, m) && EnvBelow(a, m) && EnvBelow(b, m)
  }

  // ---- embedding preserves evaluation at every depth ----

  /** The embedded scope: the locals, then the literals with the last innermost, then the rest. */
  function Embed(locals: seq<TVal>, vals: seq<TVal>, outer: seq<TVal>): seq<TVal> {
    locals + Reverse(vals) + outer
  }

  lemma AtomEmbedded(a: Atom, locals: seq<TVal>, vals: seq<TVal>, outer: seq<TVal>)
    requires AtomBelow(a, |vals|)
    ensures EvalAtom(ShiftAtom(a, |locals|, |vals|), Embed(locals, vals, outer), []) == EvalAtom(a, locals + outer, vals)
  {}

  lemma {:induction false} AtomsEmbedded(atoms: seq<Atom>, locals: seq<TVal>, vals: seq<TVal>, outer: seq<TVal>)
    requires AtomsBelow(atoms, |vals|)
    ensures EvalAtoms(ShiftAtoms(atoms, |locals|, |vals|), Embed(locals, vals, outer), []) == EvalAtoms(atoms, locals + outer, vals)
  {
    if atoms != [] {
      var k := |atoms| - 1;
      AtomsEmbedded(atoms[..k], locals, vals, outer);
      AtomEmbedded(atoms[k], locals, vals, outer);
      assert ShiftAtoms(atoms, |locals|, |vals|)[..k] == ShiftAtoms(atoms[..k], |locals|, |vals|);
    }
  }

  lemma CompEmbedded(funcs: seq<AnfFunc>, c: Comp, locals: seq<TVal>, vals: seq<TVal>, outer: seq<TVal>, fuel: nat)
    requires CompBelow(c, |vals|)
    ensures EvalComp(funcs, ShiftComp(c, |locals|, |vals|), Embed(locals, vals, outer), [], fuel)
         == EvalComp(funcs, c, locals + outer, vals, fuel)
  {
    hide Embed, EvalAtom, EvalAtoms, ShiftAtom, ShiftAtoms, AtomBelow, AtomsBelow, Enter, EvalPrim;
    match c
    case Use(a) => AtomEmbedded(a, locals, vals, outer);
    case MkClosure(_, caps) => AtomsEmbedded(caps, locals, vals, outer);
    case Call(f, a) =>
      AtomEmbedded(f, locals, vals, outer);
      AtomEmbedded(a, locals, vals, outer);
    case CallGlobal(_, a) => AtomEmbedded(a, locals, vals, outer);
    case CallKnown(_, e, a) =>
      AtomEmbedded(e, locals, vals, outer);
      AtomEmbedded(a, locals, vals, outer);
    case Prim(_, args) => AtomsEmbedded(args, locals, vals, outer);
  }

  /** Running the embedded body without captures is running the body with the literals as captures. */
  lemma {:induction false} TailEmbedded(
    funcs: seq<AnfFunc>, t: Tail, locals: seq<TVal>, vals: seq<TVal>, outer: seq<TVal>,
    name: Option<FName>, clone: Option<FName>, fuel: nat)
    requires EnvBelow(t, |vals|)
    ensures EvalTail(funcs, ShiftTail(t, |locals|, |vals|), Embed(locals, vals, outer), [], clone, fuel)
         == EvalTail(funcs, t, locals + outer, vals, name, fuel)
    decreases t, 1
  {
    hide Embed, EvalAtom, ShiftAtom, AtomBelow, CompBelow, EvalComp, ShiftComp, Enter;
    match t
    case Ret(a) => AtomEmbedded(a, locals, vals, outer);
    case Let(c, rest) =>
      CompEmbedded(funcs, c, locals, vals, outer, fuel);
      var v := EvalComp(funcs, c, locals + outer, vals, fuel);
      if v.Done? {
        TailEmbedded(funcs, rest, [v.value] + locals, vals, outer, name, clone, fuel);
        MoreLocals([v.value], locals, vals, outer);
      }
    case TailCall(f, a) =>
      AtomEmbedded(f, locals, vals, outer);
      AtomEmbedded(a, locals, vals, outer);
    case TailCallGlobal(_, a) => AtomEmbedded(a, locals, vals, outer);
    case TailCallKnown(_, e, a) =>
      AtomEmbedded(e, locals, vals, outer);
      AtomEmbedded(a, locals, vals, outer);
    case Case(_, _) => CaseEmbedded(funcs, t, locals, vals, outer, name, clone, fuel);
    case IfZero(s, a, b) =>
      AtomEmbedded(s, locals, vals, outer);
      TailEmbedded(funcs, a, locals, vals, outer, name, clone, fuel);
      TailEmbedded(funcs, b, locals, vals, outer, name, clone, fuel);
  }

  lemma MoreLocals(vs: seq<TVal>, locals: seq<TVal>, vals: seq<TVal>, outer: seq<TVal>)
    ensures Embed(vs + locals, vals, outer) == vs + Embed(locals, vals, outer)
    ensures vs + locals + outer == vs + (locals + outer)
  {}

  lemma {:induction false} CaseEmbedded(
    funcs: seq<AnfFunc>, t: Tail, locals: seq<TVal>, vals: seq<TVal>, outer: seq<TVal>,
    name: Option<FName>, clone: Option<FName>, fuel: nat)
    requires t.Case? && EnvBelow(t, |vals|)
    ensures EvalTail(funcs, ShiftTail(t, |locals|, |vals|), Embed(locals, vals, outer), [], clone, fuel)
         == EvalTail(funcs, t, locals + outer, vals, name, fuel)
    decreases t, 0
  {
    hide Embed, EvalAtom, ShiftAtom, AtomBelow;
    AtomEmbedded(t.scrut, locals, vals, outer);
    var x := EvalAtom(t.scrut, locals + outer, vals);
    if x.Done? && x.value.Con? {
      var arms := ShiftTail(t, |locals|, |vals|).arms;
      SameTailArm(arms, t.arms, x.value.con);
      var found := FindTailArm(t.arms, x.value.con);
      if found.Some? && t.arms[found.value].binders <= |x.value.args| {
        var arm := t.arms[found.value];
        var vs := Reverse(x.value.args[..arm.binders]);
        TailEmbedded(funcs, arm.body, vs + locals, vals, outer, name, clone, fuel);
        MoreLocals(vs, locals, vals, outer);
      }
    }
  }

  // ---- the clone ----

  /** `vals` are the values of the literals `lits`. */
  ghost predicate LitValues(lits: seq<Comp>, vals: seq<TVal>) {
    |lits| == |vals| && forall k :: 0 <= k < |lits| ==> LitValue(lits[k]) == Some(vals[k])
  }

  lemma {:induction false} LitsBound(
    funcs: seq<AnfFunc>, lits: seq<Comp>, vals: seq<TVal>, t: Tail, scope: seq<TVal>, clone: Option<FName>, fuel: nat)
    requires LitValues(lits, vals)
    ensures EvalTail(funcs, BindAll(lits, t), scope, [], clone, fuel) == EvalTail(funcs, t, Reverse(vals) + scope, [], clone, fuel)
  {
    if lits == [] {
      assert Reverse(vals) + scope == scope;
    } else {
      assert EvalComp(funcs, lits[0], scope, [], fuel) == Done(vals[0]);
      LitsBound(funcs, lits[1..], vals[1..], t, [vals[0]] + scope, clone, fuel);
      assert Reverse(vals[1..]) + ([vals[0]] + scope) == Reverse(vals) + scope;
    }
  }

  /** Running the clone's body on any argument is running the body with the literals as captures. */
  lemma CloneRuns(
    funcs: seq<AnfFunc>, body: Tail, lits: seq<Comp>, vals: seq<TVal>, arg: TVal,
    name: Option<FName>, clone: Option<FName>, fuel: nat)
    requires LitValues(lits, vals) && EnvBelow(body, |lits|)
    ensures EvalTail(funcs, SpecializeBody(body, lits), [arg], [], clone, fuel)
         == EvalTail(funcs, body, [arg], vals, name, fuel)
  {
    hide EvalTail, ShiftTail, EnvBelow;
    LitsBound(funcs, lits, vals, ShiftTail(body, 0, |lits|), [arg], clone, fuel);
    TailEmbedded(funcs, body, [], vals, [arg], name, clone, fuel);
    assert Embed([], vals, [arg]) == Reverse(vals) + [arg];
    assert [] + [arg] == [arg];
  }
}
