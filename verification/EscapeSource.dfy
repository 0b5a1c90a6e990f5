/** The program specialization gets wrong is compiled from a closed source term without anything the
    other passes exclude. */
module EscapeSource {
  import opened Basics
  import opened Values
  import opened CirLang
  import opened AnfLang
  import opened Rewrite
  import opened CapspecEscape
  import opened Normalize
  import Cfa
  import Capspec
  import Closure
  import AnferObject
  import ConverterObject
  import DeferredShift

  function Number(n: int): Cir {
    Cir.Prim(LitOp(IntL(n)), [])
  }

  const OUTER_SOURCE := App(Lam(Cir.Var(1)), Cir.Erased)
  const FIRST_SOURCE := App(Cir.Var(0), Number(5))
  const BOX_SOURCE := Cir.Prim(ConOp("Box"), [Cir.Var(0), FIRST_SOURCE])
  const ARM_SOURCE := Arm("Box", 2, App(Cir.Var(1), Number(6)))
  const SOURCE := Cir.Let(Lam(OUTER_SOURCE), Cir.Case(BOX_SOURCE, [ARM_SOURCE]))

  // ---- the source computes 6 ----

  lemma CallClosed(c: Cir, j: nat, n: int, i: nat)
    requires c == App(Cir.Var(j), Number(n))
    ensures IsSource(c) && (Free(c, i) <==> i == j)
  {
    assert IsSource(c.a) && !Free(c.a, i);
  }

  lemma BoxClosed(c: Cir, i: nat)
    requires c == BOX_SOURCE
    ensures IsSource(c) && (Free(c, i) <==> i == 0)
  {
    hide Free, IsSource;
    CallClosed(c.args[1], 0, 5, i);
    BoxOfTwo(c, i);
  }

  lemma BoxOfTwo(c: Cir, i: nat)
    requires c.Prim? && |c.args| == 2 && c.args[0] == Cir.Var(0)
    requires IsSource(c.args[1]) == true && (Free(c.args[1], i) <==> i == 0)
    ensures IsSource(c) && (Free(c, i) <==> i == 0)
  {
    assert Free(c.args[0], i) <==> i == 0;
  }

  lemma BranchClosed(c: Cir, i: nat)
    requires c.Case? && |c.arms| == 1 && c.arms[0] == ARM_SOURCE && c.scrut == BOX_SOURCE
    ensures IsSource(c) && (Free(c, i) <==> i == 0)
  {
    BoxClosed(c.scrut, i);
    CallClosed(c.arms[0].body, 1, 6, i + 2);
  }

  lemma OuterOpen(c: Cir, i: nat)
    requires c == OUTER_SOURCE
    ensures IsSource(c) && (Free(c, i) <==> i == 0)
  {
    assert IsSource(c.f.body) && (Free(c.f.body, i + 1) <==> i == 0);
    assert IsSource(c.f) && (Free(c.f, i) <==> i == 0);
  }

  lemma SourceClosed(c: Cir, i: nat)
    requires c == SOURCE
    ensures IsSource(c) && !Free(c, i)
  {
    OuterOpen(c.v.body, i + 1);
    BranchClosed(c.b, i + 1);
    LetClosed(c, i);
  }

  lemma LetClosed(c: Cir, i: nat)
    requires c.Let? && c.v.Lam? && IsSource(c.v.body) == true && IsSource(c.b) == true
    requires !Free(c.v.body, i + 1) && !Free(c.b, i + 1)
    ensures IsSource(c) && !Free(c, i)
  {
    assert IsSource(c.v) && !Free(c.v, i);
  }

  lemma OuterSource(c: Cir, arg: SVal, fuel: nat)
    requires fuel >= 1 && c == OUTER_SOURCE
    ensures EvalS(c, [arg], fuel) == Done(arg)
  {
    assert EvalS(c.f, [arg], fuel) == Done(Clo(LamCode(Cir.Var(1)), [arg]));
    assert EvalS(Cir.Var(1), [Null] + [arg], fuel - 1) == Done(arg);
  }

  /** A call of the function with a number returns it. */
  lemma CallSource(c: Cir, i: nat, n: int, env: seq<SVal>, fuel: nat)
    requires fuel >= 2 && c == App(Cir.Var(i), Number(n)) && i < |env| && env[i] == Clo(LamCode(OUTER_SOURCE), [])
    ensures EvalS(c, env, fuel) == Done(Scalar(IntL(n)))
  {
    var v := Scalar(IntL(n));
    OuterSource(OUTER_SOURCE, v, fuel - 1);
    assert EvalS(c.a, env, fuel) == Done(v);
    assert [v] + [] == [v];
  }

  lemma BoxSource(c: Cir, f: SVal, fuel: nat)
    requires fuel >= 2 && c == BOX_SOURCE && f == Clo(LamCode(OUTER_SOURCE), [])
    ensures EvalS(c, [f], fuel) == Done(Con("Box", [f, Scalar(IntL(5))]))
  {
    var five := Scalar(IntL(5));
    CallSource(c.args[1], 0, 5, [f], fuel);
    assert EvalSSeq(c.args[..1][..0], [f], fuel) == Done([]) && [] + [f] == [f];
    assert EvalSSeq(c.args[..1], [f], fuel) == Done([f]) && [f] + [five] == [f, five];
  }

  lemma BranchSource(c: Cir, f: SVal, fuel: nat)
    requires fuel >= 2 && c == Cir.Case(BOX_SOURCE, [ARM_SOURCE]) && f == Clo(LamCode(OUTER_SOURCE), [])
    ensures EvalS(c, [f], fuel) == Done(Scalar(IntL(6)))
  {
    var five := Scalar(IntL(5));
    BoxSource(c.scrut, f, fuel);
    var fields := [f, five];
    assert fields[..2] == fields && Reverse(fields) == [five, f] && [five, f] + [f] == [five, f, f];
    CallSource(c.arms[0].body, 1, 6, [five, f, f], fuel);
    assert FindArm(c.arms, "Box") == Some(0);
  }

  lemma SourceRuns(c: Cir, fuel: nat)
    requires fuel >= 2 && c == SOURCE
    ensures EvalS(c, [], fuel) == Done(Scalar(IntL(6)))
  {
    var f := Clo(LamCode(OUTER_SOURCE), []);
    BranchSource(c.b, f, fuel);
    assert EvalS(c.v, [], fuel) == Done(f) && [f] + [] == [f];
  }

  // ---- its conversion ----

  const OUTER_CONVERTED := CallClosure(Cir.MkClosure(INNER, [Cir.Var(0)]), Cir.Erased)
  const FIRST := CallClosure(Cir.Var(0), Number(5))
  const BOX := Cir.Prim(ConOp("Box"), [Cir.Var(0), FIRST])
  const CONVERTED_ARM := Arm("Box", 2, CallClosure(Cir.Var(1), Number(6)))
  const CONVERTED_ENTRY := Cir.Let(Cir.MkClosure(OUTER, []), Cir.Case(BOX, [CONVERTED_ARM]))

  const CONVERTED := Program([Func(INNER, false, Cir.EnvRef(0)), Func(OUTER, false, OUTER_CONVERTED)], CONVERTED_ENTRY)

  lemma ConvertIs(c: Cir)
    requires c == SOURCE
    ensures Closure.Convert(c) == CONVERTED
  {
    hide Closure.Lift;
    OuterLifted(c.v.body);
    BranchesConverted(c.b);
    assert Closure.Go(c.v, 0) == Closure.Conv(Cir.MkClosure(OUTER, []), CONVERTED.funcs, 2);
    assert CONVERTED.funcs + [] == CONVERTED.funcs;
    assert Closure.Go(c, 0) == Closure.Conv(CONVERTED_ENTRY, CONVERTED.funcs, 2);
  }

  lemma SortOne(s: seq<nat>)
    requires |s| == 1
    ensures Closure.SortDedup(s) == s && Closure.Position(s, s[0]) == Some(0)
  {
    assert Closure.SortDedup(s[1..]) == [];
  }

  lemma InnerLifted(b: Cir)
    requires b == Cir.Var(1)
    ensures Closure.Lift(b, false, "lam", 0)
         == Closure.Conv(Cir.MkClosure(INNER, [Cir.Var(0)]), [Func(INNER, false, Cir.EnvRef(0))], 1)
  {
    hide Closure.SortDedup, Closure.Position;
    var fvs := Closure.FreeVars(b, 1);
    SortOne([1]);
    assert Closure.CollectFree(b, 1, 1) == [1];
    assert fvs == [1] && Closure.Captures(fvs, 1) == [Cir.Var(0)];
    assert Closure.Go(b, 0) == Closure.Conv(b, [], 0);
    assert Closure.Rebind(Closure.LamView(fvs), b, 0) == Cir.EnvRef(0);
  }

  lemma OuterLifted(b: Cir)
    requires b == OUTER_SOURCE
    ensures Closure.Lift(b, false, "lam", 0) == Closure.Conv(Cir.MkClosure(OUTER, []), CONVERTED.funcs, 2)
  {
    hide Closure.FreeVars, Closure.Go, Closure.Rebind;
    OuterClosed(b);
    OuterGoes(b);
    OuterUnchanged(OUTER_CONVERTED);
    assert Closure.Captures([], 1) == [];
  }

  lemma OuterClosed(b: Cir)
    requires b == OUTER_SOURCE
    ensures Closure.FreeVars(b, 1) == []
  {
    assert Closure.CollectFree(b.f.body, 1, 2) == [];
    assert Closure.CollectFree(b.f, 1, 1) == [];
    assert Closure.CollectFree(b, 1, 1) == [];
  }

  lemma OuterGoes(b: Cir)
    requires b == OUTER_SOURCE
    ensures Closure.Go(b, 0) == Closure.Conv(OUTER_CONVERTED, [Func(INNER, false, Cir.EnvRef(0))], 1)
  {
    hide Closure.Lift;
    InnerLifted(b.f.body);
    assert Closure.Go(b.a, 1) == Closure.Conv(b.a, [], 1);
  }

  lemma OuterUnchanged(c: Cir)
    requires c == OUTER_CONVERTED
    ensures Closure.Rebind(Closure.LamView([]), c, 0) == c
  {
    assert Closure.Rebind(Closure.LamView([]), c.f.caps[0], 0) == c.f.caps[0];
    assert Closure.Rebind(Closure.LamView([]), c.f, 0) == c.f;
  }

  lemma CallConverted(c: Cir, i: nat, n: int, next: nat)
    requires c == App(Cir.Var(i), Number(n))
    ensures Closure.Go(c, next) == Closure.Conv(CallClosure(Cir.Var(i), Number(n)), [], next)
  {
    assert Closure.GoSeq(c.a.args, next) == Closure.ConvSeq([], [], next);
    assert Closure.Go(c.a, next) == Closure.Conv(c.a, [], next);
  }

  lemma BoxConverted(c: Cir)
    requires c == BOX_SOURCE
    ensures Closure.Go(c, 2) == Closure.Conv(BOX, [], 2)
  {
    CallConverted(c.args[1], 0, 5, 2);
    assert Closure.GoSeq(c.args[..1][..0], 2) == Closure.ConvSeq([], [], 2);
    assert Closure.Go(c.args[..1][0], 2) == Closure.Conv(Cir.Var(0), [], 2);
    assert Closure.GoSeq(c.args[..1], 2) == Closure.ConvSeq([Cir.Var(0)], [], 2);
    assert Closure.GoSeq(c.args, 2) == Closure.ConvSeq([Cir.Var(0), FIRST], [], 2);
  }

  lemma BranchesConverted(c: Cir)
    requires c == Cir.Case(BOX_SOURCE, [ARM_SOURCE])
    ensures Closure.Go(c, 2) == Closure.Conv(Cir.Case(BOX, [CONVERTED_ARM]), [], 2)
  {
    BoxConverted(c.scrut);
    CallConverted(c.arms[0].body, 1, 6, 2);
    assert Closure.GoArms(c.arms[..0], 2) == Closure.ConvArms([], [], 2);
    assert Closure.GoArms(c.arms, 2) == Closure.ConvArms([CONVERTED_ARM], [], 2);
  }

  // ---- its normal form ----

  lemma NormalIs(p: Program, fuse: bool, raise: bool)
    requires p == CONVERTED
    ensures NormalizeProgram(p, fuse, raise) == PROGRAM
  {
    hide NormalizeFunc, ToTail, Peephole;
    InnerNormal(p.funcs[0], fuse, raise);
    OuterNormal(p.funcs[1], fuse, raise);
    EntryNormal(p.entry, fuse, raise);
    assert NormalizeFuncs(p.funcs, fuse, raise) == PROGRAM.funcs;
  }

  lemma InnerNormal(f: Func, fuse: bool, raise: bool)
    requires f == CONVERTED.funcs[0]
    ensures NormalizeFunc(f, fuse, raise) == PROGRAM.funcs[0]
  {
    assert Atomize(f.body, DeferredShift.IDENTITY, fuse) == Anf([], Atom.EnvRef(0));
  }

  lemma OuterNormal(f: Func, fuse: bool, raise: bool)
    requires f == CONVERTED.funcs[1]
    ensures NormalizeFunc(f, fuse, raise) == PROGRAM.funcs[1]
  {
    hide Peephole, ToTail, DeferredShift.Apply;
    Unshifted(DeferredShift.IDENTITY);
    OuterTail(f.body, DeferredShift.IDENTITY, Mode(Some(f.name), f.recursive, fuse));
    OuterPeeped(OUTER_BODY, Some(f.name), raise);
  }

  lemma OuterPeeped(t: Tail, self: Option<FName>, raise: bool)
    requires t == OUTER_BODY
    ensures Peephole(t, self, false, raise) == t
  {}

  lemma OuterTail(c: Cir, s: DeferredShift.Shift, m: Mode)
    requires c == OUTER_CONVERTED && !m.recursive && DeferredShift.Apply(s, 0) == 0
    ensures ToTail(c, s, m) == OUTER_BODY
  {
    hide TailOfCall, DeferredShift.Apply;
    OuterCall(c.f, c.a, s, m);
  }

  lemma Unshifted(s: DeferredShift.Shift)
    requires s.frames == []
    ensures DeferredShift.Apply(s, 0) == 0
  {}

  lemma OuterCall(f: Cir, a: Cir, s: DeferredShift.Shift, m: Mode)
    requires f == Cir.MkClosure(INNER, [Cir.Var(0)]) && a == Cir.Erased && !m.recursive && DeferredShift.Apply(s, 0) == 0
    ensures TailOfCall(f, a, s, m) == OUTER_BODY
  {
    hide Atomize, DeferredShift.Pushed, DeferredShift.Apply, Wrap;
    var binds := [Comp.MkClosure(INNER, [Atom.Var(0)])];
    OuterHead(f, s, m.fuse);
    ErasedAtom(a, DeferredShift.Pushed(s, 0, 1), m.fuse);
    assert binds + [] == binds;
    WrapOne(binds, TailCall(Atom.Var(0), Atom.Erased));
  }

  lemma ErasedAtom(c: Cir, s: DeferredShift.Shift, fuse: bool)
    requires c == Cir.Erased
    ensures Atomize(c, s, fuse) == Anf([], Atom.Erased)
  {}

  lemma OuterHead(c: Cir, s: DeferredShift.Shift, fuse: bool)
    requires c == Cir.MkClosure(INNER, [Cir.Var(0)]) && DeferredShift.Apply(s, 0) == 0
    ensures Atomize(c, s, fuse) == Anf([Comp.MkClosure(INNER, [Atom.Var(0)])], Atom.Var(0))
  {
    hide DeferredShift.Apply, DeferredShift.Pushed;
    assert Seq(c.caps[..0], s, fuse) == AnfSeq([], []);
    DeferredShift.PushedLaw(s, 0, 0, 0);
    assert Atomize(c.caps[0], DeferredShift.Pushed(s, 0, 0), fuse) == Anf([], Atom.Var(0));
    assert Seq(c.caps, s, fuse) == AnfSeq([], [Atom.Var(0)]);
  }

  lemma WrapOne(binds: seq<Comp>, t: Tail)
    requires |binds| == 1
    ensures Wrap(binds, t) == Tail.Let(binds[0], t)
  {
    assert Wrap(binds[1..], t) == t;
  }

  lemma EntryNormal(c: Cir, fuse: bool, raise: bool)
    requires c == CONVERTED_ENTRY
    ensures Peephole(ToTail(c, DeferredShift.IDENTITY, Mode(None, false, fuse)), None, false, raise) == ENTRY
  {
    hide Peephole;
    EntryTail(c, Mode(None, false, fuse));
    EntryPeeped(ENTRY, raise);
  }

  lemma EntryPeeped(t: Tail, raise: bool)
    requires t == ENTRY
    ensures Peephole(t, None, false, raise) == t
  {
    var boxed := t.rest.rest.rest.rest;
    assert boxed == BOXED;
    assert Peephole(boxed.rest.arms[0].body, None, false, raise) == boxed.rest.arms[0].body;
    assert Peephole(boxed.rest, None, false, raise) == boxed.rest;
    assert Peephole(boxed, None, false, raise) == boxed;
    assert Peephole(t.rest.rest, None, false, raise) == t.rest.rest;
  }

  lemma EntryTail(c: Cir, m: Mode)
    requires c == CONVERTED_ENTRY
    ensures ToTail(c, DeferredShift.IDENTITY, m) == ENTRY
  {
    hide Atomize, DeferredShift.Pushed, DeferredShift.Apply, Wrap;
    var rest := Tail.Let(Num(5), Tail.Let(CALL, BOXED));
    DeferredShift.PushedLaw(DeferredShift.UnderBinders(DeferredShift.IDENTITY, 1), 1, 1, 0);
    DeferredShift.UnderBindersLaw(DeferredShift.IDENTITY, 1, 0);
    BranchesTail(c.b, LetShift(DeferredShift.IDENTITY, 1), m);
    ClosureAtoms(c.v, DeferredShift.IDENTITY, m.fuse);
    WrapTwo([Comp.MkClosure(OUTER, [])] + [Use(Atom.Var(0))], rest);
  }

  lemma ClosureAtoms(c: Cir, s: DeferredShift.Shift, fuse: bool)
    requires c == Cir.MkClosure(OUTER, [])
    ensures Atomize(c, s, fuse) == Anf([Comp.MkClosure(OUTER, [])], Atom.Var(0))
  {
    assert Seq(c.caps, s, fuse) == AnfSeq([], []);
  }

  lemma WrapTwo(binds: seq<Comp>, t: Tail)
    requires |binds| == 2
    ensures Wrap(binds, t) == Tail.Let(binds[0], Tail.Let(binds[1], t))
  {
    WrapOne(binds[1..], t);
  }

  /** A call of a variable with a number, as an operand. */
  lemma CallAtoms(c: Cir, i: nat, n: int, s: DeferredShift.Shift, fuse: bool)
    requires c == CallClosure(Cir.Var(i), Number(n)) && DeferredShift.Apply(s, i) == i
    ensures Atomize(c, s, fuse) == Anf([Num(n), Call(Atom.Var(i + 1), Atom.Var(0))], Atom.Var(0))
  {
    NumberAtoms(c.a, n, s, fuse);
    assert Atomize(c.f, s, fuse) == Anf([], Atom.Var(i));
    assert [] + [Num(n)] + [Call(Atom.Var(i + 1), Atom.Var(0))] == [Num(n), Call(Atom.Var(i + 1), Atom.Var(0))];
  }

  lemma NumberAtoms(c: Cir, n: int, s: DeferredShift.Shift, fuse: bool)
    requires c == Number(n)
    ensures Atomize(c, s, fuse) == Anf([Num(n)], Atom.Var(0))
  {
    assert Seq(c.args, s, fuse) == AnfSeq([], []);
  }

  lemma BoxAtoms(c: Cir, s: DeferredShift.Shift, fuse: bool)
    requires c == BOX && DeferredShift.Apply(s, 0) == 0
    ensures Atomize(c, s, fuse) == Anf([Num(5), CALL, Comp.Prim(ConOp("Box"), [Atom.Var(2), Atom.Var(0)])], Atom.Var(0))
  {
    var front := c.args[..1];
    assert Seq(front[..0], s, fuse) == AnfSeq([], []);
    assert Atomize(front[0], s, fuse) == Anf([], Atom.Var(0));
    assert Seq(front, s, fuse) == AnfSeq([], [Atom.Var(0)]);
    CallAtoms(c.args[1], 0, 5, s, fuse);
    assert Normalize.ShiftAtoms([Atom.Var(0)], 2) == [Atom.Var(2)];
    assert Seq(c.args, s, fuse) == AnfSeq([Num(5), CALL], [Atom.Var(2), Atom.Var(0)]);
  }

  lemma ArmTail(c: Cir, s: DeferredShift.Shift, m: Mode)
    requires c == CONVERTED_ARM.body && DeferredShift.Apply(s, 1) == 1
    ensures ToTail(c, s, m) == ARM.body
  {
    NumberAtoms(c.a, 6, s, m.fuse);
    assert Atomize(c.f, s, m.fuse) == Anf([], Atom.Var(1));
    assert [] + [Num(6)] == [Num(6)];
    WrapOne([Num(6)], TailCall(Atom.Var(2), Atom.Var(0)));
  }

  lemma BranchesTail(c: Cir, s: DeferredShift.Shift, m: Mode)
    requires c == Cir.Case(BOX, [CONVERTED_ARM]) && DeferredShift.Apply(s, 0) == 0
    ensures ToTail(c, s, m) == Tail.Let(Num(5), Tail.Let(CALL, BOXED))
  {
    hide Wrap, Atomize, DeferredShift.Apply, ToTailArms;
    BoxAtoms(c.scrut, s, m.fuse);
    ArmsTail(c.arms, s, m);
    WrapThree([Num(5), CALL, Comp.Prim(ConOp("Box"), [Atom.Var(2), Atom.Var(0)])], Tail.Case(Atom.Var(0), [ARM]));
  }

  lemma ArmsTail(arms: seq<Arm>, s: DeferredShift.Shift, m: Mode)
    requires |arms| == 1 && arms[0] == CONVERTED_ARM && DeferredShift.Apply(s, 0) == 0
    ensures ToTailArms(arms, s, 3, m) == [ARM]
  {
    hide ToTail, DeferredShift.Apply, DeferredShift.Pushed;
    DeferredShift.UnderBindersLaw(s, 2, 1);
    DeferredShift.PushedLaw(DeferredShift.UnderBinders(s, 2), 2, 3, 1);
    ArmTail(arms[0].body, ArmShift(s, 2, 3), m);
  }

  lemma WrapThree(binds: seq<Comp>, t: Tail)
    requires |binds| == 3
    ensures Wrap(binds, t) == Tail.Let(binds[0], Tail.Let(binds[1], Tail.Let(binds[2], t)))
  {
    WrapTwo(binds[1..], t);
  }

  lemma CallStraight(c: Cir, i: nat, n: int)
    requires c == CallClosure(Cir.Var(i), Number(n))
    ensures Straight(c) && BranchesInTail(c)
  {
    assert Straight(c.a);
  }

  lemma BranchesStraight(c: Cir)
    requires c == Cir.Case(BOX, [CONVERTED_ARM])
    ensures BranchesInTail(c)
  {
    CallStraight(c.scrut.args[1], 0, 5);
    assert Straight(c.scrut.args[0]);
    assert Straight(c.scrut);
    CallStraight(c.arms[0].body, 1, 6);
  }

  lemma OuterStraight(c: Cir)
    requires c == OUTER_CONVERTED
    ensures BranchesInTail(c)
  {
    assert Straight(c.f.caps[0]);
    assert Straight(c.f);
  }

  lemma ConvertedStraight(p: Program)
    requires p == CONVERTED
    ensures ProgramInFragment(p)
  {
    BranchesStraight(p.entry.b);
    OuterStraight(p.funcs[1].body);
    assert Straight(p.entry.v) && BranchesInTail(p.entry);
    assert BranchesInTail(p.funcs[0].body);
  }

  // ---- the result is lost ----

  /** A closed source term in the fragment computes 6, while its normal form, whatever the switches,
      computes 5 once specialized by any least solution of the analysis. */
  lemma CompiledWrong(
    fuse: bool, raise: bool, sol: Cfa.Solution, d: Decisions, clones: seq<AnfFunc>, keys: seq<Capspec.Key>, fuel: nat)
    requires Specialized(sol, d, clones, keys) && fuel >= 2
    ensures IsSource(SOURCE) && (forall i: nat :: !Free(SOURCE, i)) && ProgramInFragment(Closure.Convert(SOURCE))
    ensures NormalizeProgram(Closure.Convert(SOURCE), fuse, raise) == PROGRAM
    ensures EvalS(SOURCE, [], fuel) == Done(Scalar(IntL(6)))
    ensures |d| == ProgramApplies(PROGRAM) && RunProgram(Capspec.OutFor(d, clones, PROGRAM), fuel) == Done(Scalar(IntL(5)))
  {
    hide *;
    ConvertIs(SOURCE);
    NormalIs(CONVERTED, fuse, raise);
    ConvertedStraight(CONVERTED);
    SourceRuns(SOURCE, fuel);
    SourceClosed(SOURCE, 0);
    forall i: nat ensures !Free(SOURCE, i) { SourceClosed(SOURCE, i); }
    EscapedLiteralIsKept(sol, d, clones, keys, fuel);
  }

  /** Running the passes on it. */
  method Compile(fuse: bool, raise: bool) returns (q: AnfProgram)
    ensures forall fuel: nat :: fuel >= 2 ==>
      EvalS(SOURCE, [], fuel) == Done(Scalar(IntL(6))) && RunProgram(q, fuel) == Done(Scalar(IntL(5)))
  {
    hide *;
    var converted := ConverterObject.Convert(SOURCE);
    var normal := AnferObject.NormalizeProgram(converted, fuse, raise);
    ConvertIs(SOURCE);
    NormalIs(CONVERTED, fuse, raise);
    ghost var sol, d, clones, keys;
    q, sol, d, clones, keys := Capspec.SpecializeProgram(normal);
    Returned(sol, d, clones, keys);
    forall fuel: nat | fuel >= 2
      ensures EvalS(SOURCE, [], fuel) == Done(Scalar(IntL(6))) && RunProgram(q, fuel) == Done(Scalar(IntL(5)))
    {
      CompiledWrong(fuse, raise, sol, d, clones, keys, fuel);
    }
  }

  lemma Returned(sol: Cfa.Solution, d: Decisions, clones: seq<AnfFunc>, keys: seq<Capspec.Key>)
    requires Cfa.Solves(Cfa.Build(PROGRAM), sol)
    requires forall other :: Cfa.Solves(Cfa.Build(PROGRAM), other) ==> Cfa.LeqSol(sol, other)
    requires Capspec.CloneTable(PROGRAM, clones, keys)
    requires Capspec.DecisionsOf(PROGRAM, Cfa.Build(PROGRAM), sol, clones, keys, d)
    ensures Specialized(sol, d, clones, keys)
  {
    hide Cfa.Build, Cfa.Solves, Cfa.LeqSol, Capspec.CloneTable, Capspec.DecisionsOf;
  }
}
