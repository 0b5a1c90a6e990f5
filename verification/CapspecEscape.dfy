/** Outside the fragment in which the flow analysis is sound, specialization changes a result: a
    function that escapes through a constructor has its parameter opened, but the literal tracked
    there is not raised. */
module CapspecEscape {
  import opened Basics
  import opened Values
  import opened CirLang
  import opened AnfLang
  import opened Cfa
  import opened Rewrite
  import opened Specialize
  import opened CfaSound
  import opened Capspec

  // ---- the program ----

  const INNER := FName("lam", 0)
  const OUTER := FName("lam", 1)

  function Num(n: int): Comp {
    Comp.Prim(LitOp(IntL(n)), [])
  }

  /** Returns its capture. */
  const INNER_BODY := Ret(Atom.EnvRef(0))

  /** Wraps its argument in a closure of the inner function, and calls that. */
  const OUTER_BODY := Tail.Let(Comp.MkClosure(INNER, [Atom.Var(0)]), TailCall(Atom.Var(0), Atom.Erased))

  /** What was boxed is called with 6. */
  const ARM := TailArm("Box", 2, Tail.Let(Num(6), TailCall(Atom.Var(2), Atom.Var(0))))

  /** The outer function is boxed together with its value at 5, and taken out again. */
  const BOXED := Tail.Let(Comp.Prim(ConOp("Box"), [Atom.Var(2), Atom.Var(0)]), Tail.Case(Atom.Var(0), [ARM]))

  /** The entry, with `call` for the direct call of the function. */
  function Entry(call: Comp): Tail {
    Tail.Let(Comp.MkClosure(OUTER, []), Tail.Let(Use(Atom.Var(0)), Tail.Let(Num(5), Tail.Let(call, BOXED))))
  }

  const CALL := Comp.Call(Atom.Var(1), Atom.Var(0))
  const ENTRY := Entry(CALL)

  const PROGRAM := AnfProgram([AnfFunc(INNER, false, INNER_BODY), AnfFunc(OUTER, false, OUTER_BODY)], ENTRY)

  // ---- its flow graph ----

  /** Node 1 is the parameter of the outer function, 7 the inner closure, 9 the outer one, 13 what is
      taken out of the box. */
  const CSTRS: seq<Cstr> :=
    [Open(5), Copy(2, 6), Closure(7, INNER), NotLit(7), Copy(6, 1), ClosureSite(7), Cstr.Call(3, 7, 5),
     Closure(8, OUTER), NotLit(8), ClosureSite(8), Copy(9, 8), Literal(10, Num(5)), Cstr.Call(11, 9, 10),
     NotLit(12), Escape(9), Escape(11), Open(13), Open(14), Literal(15, Num(6)), Cstr.Call(4, 13, 15)]

  const FLOW := Flow(
    16, [0, 1], [2, 3], 4, 5, map[INNER := 0, OUTER := 1], map[(0, 0) := 6], map[],
    map[7 := CloSite(INNER, [1]), 8 := CloSite(OUTER, [])], CSTRS, [7, 9, 13])

  const FLOW0 := Flow(6, [0, 1], [2, 3], 4, 5, map[INNER := 0, OUTER := 1], map[], map[], map[], [Open(5)], [])

  const FLOW1 := Flow(
    7, [0, 1], [2, 3], 4, 5, map[INNER := 0, OUTER := 1], map[(0, 0) := 6], map[], map[], CSTRS[..2], [])

  const FLOW2 := Flow(
    8, [0, 1], [2, 3], 4, 5, map[INNER := 0, OUTER := 1], map[(0, 0) := 6], map[],
    map[7 := CloSite(INNER, [1])], CSTRS[..7], [7])

  lemma StartIs()
    ensures Start(PROGRAM.funcs) == FLOW0
  {
    var fs := PROGRAM.funcs;
    assert fs[..1] == [fs[0]] && fs[..1][..0] == [];
    assert IndexOf(fs[..1]) == map[INNER := 0];
    assert IndexOf(fs) == map[INNER := 0, OUTER := 1];
    assert Start(fs).param == [0, 1] && Start(fs).ret == [2, 3];
  }

  lemma InnerIs()
    ensures GenTail(FLOW0, INNER_BODY, [0], Some(0)) == FLOW1
  {}

  lemma OuterIs()
    ensures GenTail(FLOW1, OUTER_BODY, [1], Some(1)) == FLOW2
  {
    var g := FLOW1.Fresh().Emit(Closure(7, INNER)).Emit(NotLit(7));
    var caps := [Atom.Var(0)];
    assert Cfa.Captures(g, 0, caps[..0], [1], Some(1)) == (g, []);
    assert EnvSlot(g, 0, 0) == (g, 6) && [] + [1] == [1];
    assert Cfa.Captures(g, 0, caps, [1], Some(1)) == (g.Emit(Copy(6, 1)), [1]);
    assert GenComp(FLOW1.Fresh(), Comp.MkClosure(INNER, caps), 7, [1], Some(1))
        == FLOW2.(cstrs := CSTRS[..6], heads := []);
  }

  /** The graph after the first `k` constraints and `n` nodes. */
  function Part(n: nat, k: nat, h: nat): Flow
    requires k <= |CSTRS| && h <= 3
  {
    FLOW.(n := n, cstrs := CSTRS[..k], heads := FLOW.heads[..h])
  }

  lemma EntryIs()
    ensures GenTail(FLOW2, ENTRY, [], None) == FLOW
  {
    assert GenComp(FLOW2.Fresh(), Comp.MkClosure(OUTER, []), 8, [], None) == Part(9, 10, 1);
    assert GenComp(Part(9, 10, 1).Fresh(), Use(Atom.Var(0)), 9, [8], None) == Part(10, 11, 1);
    CallIs();
    assert [9] + [8] == [9, 8] && [8] + [] == [8];
  }

  lemma CallIs()
    ensures GenTail(Part(10, 11, 1), Tail.Let(Num(5), Tail.Let(CALL, BOXED)), [9, 8], None) == FLOW
  {
    assert GenComp(Part(10, 11, 1).Fresh(), Num(5), 10, [9, 8], None) == Part(11, 12, 1);
    assert GenComp(Part(11, 12, 1).Fresh(), CALL, 11, [10, 9, 8], None) == Part(12, 13, 2);
    BoxedIs();
    assert [11] + [10, 9, 8] == [11, 10, 9, 8] && [10] + [9, 8] == [10, 9, 8];
  }

  lemma BoxedIs()
    ensures GenTail(Part(12, 13, 2), BOXED, [11, 10, 9, 8], None) == FLOW
  {
    BoxIs();
    ArmIs();
    assert [12] + [11, 10, 9, 8] == [12, 11, 10, 9, 8];
  }

  lemma BoxIs()
    ensures GenComp(Part(13, 13, 2), Comp.Prim(ConOp("Box"), [Atom.Var(2), Atom.Var(0)]), 12, [11, 10, 9, 8], None)
         == Part(13, 16, 2)
  {
    var atoms, g, scope := [Atom.Var(2), Atom.Var(0)], Part(13, 14, 2), [11, 10, 9, 8];
    assert Part(13, 13, 2).Emit(NotLit(12)) == g;
    assert atoms[..1] == [Atom.Var(2)] && atoms[..1][..0] == [];
    assert Escapes(g, atoms[..1], scope, None) == g.Emit(Escape(9));
    assert Escapes(g, atoms, scope, None) == Part(13, 16, 2);
  }

  lemma ArmIs()
    ensures GenTail(Part(13, 16, 2), Tail.Case(Atom.Var(0), [ARM]), [12, 11, 10, 9, 8], None) == FLOW
  {
    var f, scope, arms := Part(13, 16, 2), [12, 11, 10, 9, 8], [ARM];
    assert GenArms(f, arms[..0], scope, None) == f;
    var g := f.Fresh().Emit(Open(13));
    assert Binders(f, 0) == (f, []) && [13] + [] == [13];
    assert Binders(f, 1) == (g, [13]) && [14] + [13] == [14, 13];
    assert Binders(f, 2) == (g.Fresh().Emit(Open(14)), [14, 13]);
    assert g.Fresh().Emit(Open(14)) == Part(15, 18, 2);
    assert [14, 13] + scope == [14, 13, 12, 11, 10, 9, 8];
    ArmBodyIs();
  }

  lemma ArmBodyIs()
    ensures GenTail(Part(15, 18, 2), ARM.body, [14, 13, 12, 11, 10, 9, 8], None) == FLOW
  {
    assert GenComp(Part(15, 18, 2).Fresh(), Num(6), 15, [14, 13, 12, 11, 10, 9, 8], None) == Part(16, 19, 2);
    assert [15] + [14, 13, 12, 11, 10, 9, 8] == [15, 14, 13, 12, 11, 10, 9, 8];
  }

  lemma BuildIs()
    ensures Build(PROGRAM) == FLOW
  {
    StartIs();
    InnerIs();
    OuterIs();
    EntryIs();
    var fs := PROGRAM.funcs;
    assert GenFuncs(FLOW0, fs, 0) == FLOW0;
    assert GenFuncs(FLOW0, fs, 1) == FLOW1;
    assert GenFuncs(FLOW0, fs, 2) == FLOW2;
  }

  // ---- its least solution ----

  const CAPTURED := Av({}, {}, true, {}, Just(Num(5)))
  const ANYTHING := Av({}, {}, true, {}, Top)
  const INNERS := Av({INNER}, {}, false, {7}, Top)
  const OUTERS := Av({OUTER}, {}, false, {8}, Top)

  const SOLUTION: Solution :=
    [ANYTHING, CAPTURED, CAPTURED, CAPTURED, ANYTHING, ANYTHING, CAPTURED, INNERS,
     OUTERS, OUTERS, Av({}, {}, false, {}, Just(Num(5))), CAPTURED,
     Av({}, {}, false, {}, Top), ANYTHING, ANYTHING, Av({}, {}, false, {}, Just(Num(6)))]

  /** No node holds a tuple, so an escaping value reaches only its own node. */
  lemma NothingFurther(node: Node)
    requires ParamsOpen(FLOW, SOLUTION, At(SOLUTION, node))
    ensures Escaped(FLOW, SOLUTION, node)
  {
    forall path | Reaches(FLOW, SOLUTION, path, node) ensures |path| == 1 {
      if |path| > 1 { NoTuples(path[0], path[0 + 1]); }
    }
  }

  lemma NoTuples(a: Node, b: Node)
    ensures !StepsTo(FLOW, SOLUTION, a, b)
  {}

  lemma FunctionsSolve()
    ensures forall i :: 0 <= i < 7 && i != 6 ==> Sat(FLOW, SOLUTION, CSTRS[i])
  {
    forall i | 0 <= i < 7 && i != 6 ensures Sat(FLOW, SOLUTION, CSTRS[i]) {}
  }

  lemma EntrySolves()
    ensures forall i :: 7 <= i < 12 || i == 13 ==> Sat(FLOW, SOLUTION, CSTRS[i])
  {
    forall i | 7 <= i < 12 || i == 13 ensures Sat(FLOW, SOLUTION, CSTRS[i]) {}
  }

  lemma ArmSolves()
    ensures forall i :: 16 <= i < 19 ==> Sat(FLOW, SOLUTION, CSTRS[i])
  {
    forall i | 16 <= i < 19 ensures Sat(FLOW, SOLUTION, CSTRS[i]) {}
  }

  lemma CallsSolve()
    ensures Sat(FLOW, SOLUTION, Cstr.Call(3, 7, 5)) && Sat(FLOW, SOLUTION, Cstr.Call(11, 9, 10))
  {
    assert CallFlows(FLOW, SOLUTION, 0, 3, 5) && CallFlows(FLOW, SOLUTION, 1, 11, 10);
  }

  lemma EscapesSolve()
    ensures Sat(FLOW, SOLUTION, Escape(9)) && Sat(FLOW, SOLUTION, Escape(11))
  {
    hide Escaped;
    NothingFurther(9);
    NothingFurther(11);
  }

  lemma BoxedCallSolves()
    ensures Sat(FLOW, SOLUTION, Cstr.Call(4, 13, 15))
  {
    hide Escaped;
    NothingFurther(15);
    assert At(SOLUTION, 13) == ANYTHING && At(SOLUTION, 4) == ANYTHING;
  }

  lemma SolutionSolves()
    ensures Solves(FLOW, SOLUTION)
  {
    hide Sat;
    FunctionsSolve();
    EntrySolves();
    ArmSolves();
    CallsSolve();
    EscapesSolve();
    BoxedCallSolves();
    assert CSTRS[6] == Cstr.Call(3, 7, 5) && CSTRS[12] == Cstr.Call(11, 9, 10);
    assert CSTRS[14] == Escape(9) && CSTRS[15] == Escape(11) && CSTRS[19] == Cstr.Call(4, 13, 15);
  }

  /** What the argument needs of a solution. */
  predicate Tracks(sol: Solution) {
    && |sol| == 16 && sol[1].lit == Just(Num(5)) && sol[13].open
    && sol[7].cloSites == {7} && !sol[7].open && sol[7].sites == {}
    && sol[9].cloSites == {8} && !sol[9].open && sol[9].sites == {}
  }

  /** Every least solution fixes the capture to 5 and the two heads to their one site. */
  lemma Tracked(sol: Solution)
    requires Solves(FLOW, sol) && forall other :: Solves(FLOW, other) ==> LeqSol(sol, other)
    ensures Tracks(sol)
  {
    hide Sat, Solves;
    SolutionSolves();
    Satisfied(sol);
    LowerBounds(sol);
    UpperBounds(sol);
  }

  lemma Satisfied(sol: Solution)
    requires Solves(FLOW, sol)
    ensures |sol| == 16 && Sat(FLOW, sol, ClosureSite(7)) && Sat(FLOW, sol, ClosureSite(8)) && Sat(FLOW, sol, Open(13))
    ensures Sat(FLOW, sol, Closure(8, OUTER)) && Sat(FLOW, sol, Copy(9, 8))
    ensures Sat(FLOW, sol, Literal(10, Num(5))) && Sat(FLOW, sol, Cstr.Call(11, 9, 10))
  {
    hide Sat;
    assert CSTRS[5] == ClosureSite(7) && CSTRS[7] == Closure(8, OUTER) && CSTRS[9] == ClosureSite(8);
    assert CSTRS[10] == Copy(9, 8) && CSTRS[11] == Literal(10, Num(5));
    assert CSTRS[12] == Cstr.Call(11, 9, 10) && CSTRS[16] == Open(13);
  }

  lemma UpperBounds(sol: Solution)
    requires LeqSol(sol, SOLUTION)
    ensures sol[1].lit.Leq(Just(Num(5))) && sol[7].Leq(INNERS) && sol[9].Leq(OUTERS)
  {
    assert SOLUTION[1] == CAPTURED && SOLUTION[7] == INNERS && SOLUTION[9] == OUTERS;
  }

  lemma LowerBounds(sol: Solution)
    requires |sol| == 16 && Sat(FLOW, sol, ClosureSite(7)) && Sat(FLOW, sol, ClosureSite(8)) && Sat(FLOW, sol, Open(13))
    requires Sat(FLOW, sol, Closure(8, OUTER)) && Sat(FLOW, sol, Copy(9, 8))
    requires Sat(FLOW, sol, Literal(10, Num(5))) && Sat(FLOW, sol, Cstr.Call(11, 9, 10))
    ensures 7 in sol[7].cloSites && 8 in sol[9].cloSites && Just(Num(5)).Leq(sol[1].lit) && sol[13].open
  {
    assert OUTER in At(sol, 9).fns && FLOW.index[OUTER] == 1;
    assert CallFlows(FLOW, sol, 1, 11, 10);
  }

  // ---- what the pass makes of it ----

  /** What the pass may return for the program. */
  ghost predicate Specialized(sol: Solution, d: Decisions, clones: seq<AnfFunc>, keys: seq<Key>) {
    && Solves(Build(PROGRAM), sol) && (forall other :: Solves(Build(PROGRAM), other) ==> LeqSol(sol, other))
    && CloneTable(PROGRAM, clones, keys) && DecisionsOf(PROGRAM, Build(PROGRAM), sol, clones, keys, d)
  }

  const INNER_KEY: Key := (INNER, [Num(5)])
  const OUTER_KEY: Key := (OUTER, [])

  lemma Lookups()
    ensures LookupAnf(PROGRAM.funcs, INNER) == Some(AnfFunc(INNER, false, INNER_BODY))
    ensures LookupAnf(PROGRAM.funcs, OUTER) == Some(AnfFunc(OUTER, false, OUTER_BODY))
  {
    var fs := PROGRAM.funcs;
    assert fs[1..][0] == fs[1];
    assert LookupAnf(fs[1..], OUTER) == Some(fs[1]);
  }

  /** The two known heads may be specialized for one key each, the boxed one for none. */
  lemma HeadKeys(sol: Solution, key: Key)
    requires Tracks(sol)
    ensures Specializable(PROGRAM, FLOW, sol, 7, key) <==> key == INNER_KEY
    ensures Specializable(PROGRAM, FLOW, sol, 9, key) <==> key == OUTER_KEY
    ensures !Specializable(PROGRAM, FLOW, sol, 13, key)
  {
    hide LookupAnf;
    Lookups();
    SiteKeys(sol, key);
    assert {7} != {} && 7 in {7} && 8 in {8};
  }

  lemma SiteKeys(sol: Solution, key: Key)
    requires Tracks(sol)
    ensures SiteIs(FLOW, sol, 7, key) <==> key == INNER_KEY
    ensures SiteIs(FLOW, sol, 8, key) <==> key == OUTER_KEY
  {
    assert FLOW.cloFields[7] == CloSite(INNER, [1]) && FLOW.cloFields[8] == CloSite(OUTER, []);
    if SiteIs(FLOW, sol, 7, key) { assert key.1[0] == Num(5) && key.1 == [Num(5)]; }
    if SiteIs(FLOW, sol, 8, key) { assert key.1 == []; }
  }

  /** The inner apply is decided, for a clone with 5 in place of the capture, and the direct call for a
      copy of the outer function; the call of what was boxed is not. */
  lemma Decided(sol: Solution, d: Decisions, clones: seq<AnfFunc>, keys: seq<Key>) returns (k: nat, j: nat)
    requires Specialized(sol, d, clones, keys)
    ensures DecidedFor(d, clones, k, j)
  {
    hide Solves, LeqSol, Specializable, Build, SpecializeBody, LookupAnf;
    BuildIs();
    Tracked(sol);
    forall key
      ensures Specializable(PROGRAM, FLOW, sol, 7, key) <==> key == INNER_KEY
      ensures Specializable(PROGRAM, FLOW, sol, 9, key) <==> key == OUTER_KEY
      ensures !Specializable(PROGRAM, FLOW, sol, 13, key)
    {
      HeadKeys(sol, key);
    }
    assert Specializable(PROGRAM, FLOW, sol, 7, INNER_KEY) && Specializable(PROGRAM, FLOW, sol, 9, OUTER_KEY);
    assert Decision(PROGRAM, FLOW, sol, clones, keys, FLOW.heads[0], d[0]);
    assert Decision(PROGRAM, FLOW, sol, clones, keys, FLOW.heads[1], d[1]);
    assert Decision(PROGRAM, FLOW, sol, clones, keys, FLOW.heads[2], d[2]);
    k :| 0 <= k < |clones| && k < |keys| && clones[k].name == d[0].value && Specializable(PROGRAM, FLOW, sol, 7, keys[k]);
    j :| 0 <= j < |clones| && j < |keys| && clones[j].name == d[1].value && Specializable(PROGRAM, FLOW, sol, 9, keys[j]);
    CloneBodies(clones[k], clones[j], keys[k], keys[j]);
  }

  ghost predicate DecidedFor(d: Decisions, clones: seq<AnfFunc>, k: nat, j: nat) {
    && |d| == 3 && k < |clones| && j < |clones| && UniqueFuncs(clones)
    && d == [Some(clones[k].name), Some(clones[j].name), None]
    && clones[k].name.Clone? && clones[k].body == Tail.Let(Num(5), Ret(Atom.Var(0)))
    && clones[j].name.Clone? && clones[j] == AnfFunc(clones[j].name, false, OUTER_BODY)
  }

  lemma CloneBodies(inner: AnfFunc, outer: AnfFunc, innerKey: Key, outerKey: Key)
    requires IsClone(PROGRAM, inner, innerKey) && innerKey == INNER_KEY
    requires IsClone(PROGRAM, outer, outerKey) && outerKey == OUTER_KEY
    ensures inner.name.Clone? && inner.body == Tail.Let(Num(5), Ret(Atom.Var(0)))
    ensures outer.name.Clone? && outer == AnfFunc(outer.name, false, OUTER_BODY)
  {
    hide ShiftTail, LookupAnf;
    Lookups();
    InnerShifted(INNER_BODY);
    OuterShifted(OUTER_BODY);
    BoundOne(innerKey.1, ShiftTail(INNER_BODY, 0, 1));
  }

  lemma InnerShifted(body: Tail)
    requires body == INNER_BODY
    ensures ShiftTail(body, 0, 1) == Ret(Atom.Var(0))
  {}

  lemma OuterShifted(body: Tail)
    requires body == OUTER_BODY
    ensures ShiftTail(body, 0, 0) == body
  {
    assert Specialize.ShiftAtoms([Atom.Var(0)], 0, 0) == [Atom.Var(0)];
  }

  lemma BoundOne(lits: seq<Comp>, t: Tail)
    requires |lits| == 1
    ensures BindAll(lits, t) == Tail.Let(lits[0], t)
  {
    assert BindAll(lits[1..], t) == t;
  }

  lemma Rewritten(d: Decisions, inner: FName, outer: FName)
    requires d == [Some(inner), Some(outer), None]
    ensures ProgramApplies(PROGRAM) == 3
    ensures RewProgram(Cloned, d, PROGRAM) == AnfProgram(
      [AnfFunc(INNER, false, INNER_BODY),
       AnfFunc(OUTER, false, Tail.Let(Comp.MkClosure(INNER, [Atom.Var(0)]), TailCallGlobal(inner, Atom.Erased)))],
      Entry(CallGlobal(outer, Atom.Var(0))))
  {
    var fs := PROGRAM.funcs;
    EntryRewritten(d, outer);
    assert FuncApplies(fs, 1) == 0 && FuncApplies(fs, 2) == 1;
    assert RewFuncs(Cloned, d, fs, 1) == [AnfFunc(INNER, false, INNER_BODY)];
  }

  lemma EntryRewritten(d: Decisions, outer: FName)
    requires |d| == 3 && d[1] == Some(outer) && d[2].None?
    ensures Applies(ENTRY) == 2 && RewTail(Cloned, d, 1, ENTRY) == Entry(CallGlobal(outer, Atom.Var(0)))
  {
    var arms := [ARM];
    var call := Tail.Let(CALL, BOXED);
    var five := Tail.Let(Num(5), call);
    var call' := Tail.Let(CallGlobal(outer, Atom.Var(0)), BOXED);
    assert arms[..0] == [];
    assert Applies(ARM.body) == 1 && ArmApplies(arms) == 1 && Applies(BOXED) == 1;
    assert RewArms(Cloned, d, 2, arms) == arms && RewTail(Cloned, d, 2, BOXED) == BOXED;
    assert Applies(call) == 2 && RewTail(Cloned, d, 1, call) == call';
    assert Applies(five) == 2 && RewTail(Cloned, d, 1, five) == Tail.Let(Num(5), call');
  }

  // ---- how the two programs run ----

  /** The entry gives what the program's outer function gives for 6, whatever its direct call gave. */
  lemma EntryRuns(funcs: seq<AnfFunc>, call: Comp, first: TVal, result: TVal, fuel: nat)
    requires EvalComp(funcs, call, [Scalar(IntL(5)), Clo(OUTER, []), Clo(OUTER, [])], [], fuel) == Done(first)
    requires Enter(funcs, OUTER, [], Scalar(IntL(6)), fuel) == Done(result)
    ensures EvalTail(funcs, Entry(call), [], [], None, fuel) == Done(result)
  {
    var outer, five := Clo(OUTER, []), Scalar(IntL(5));
    BoxedRuns(funcs, [first, five, outer, outer], result, fuel);
    assert [first] + [five, outer, outer] == [first, five, outer, outer];
    assert EvalTail(funcs, Tail.Let(call, BOXED), [five, outer, outer], [], None, fuel) == Done(result);
    assert EvalComp(funcs, Num(5), [outer, outer], [], fuel) == Done(five);
    assert [five] + [outer, outer] == [five, outer, outer] && [outer] + [outer] == [outer, outer] && [outer] + [] == [outer];
    var five' := Tail.Let(Num(5), Tail.Let(call, BOXED));
    assert EvalTail(funcs, five', [outer, outer], [], None, fuel) == Done(result);
    assert EvalTail(funcs, Tail.Let(Use(Atom.Var(0)), five'), [outer], [], None, fuel) == Done(result);
    assert EvalComp(funcs, Comp.MkClosure(OUTER, []), [], [], fuel) == Done(outer);
  }

  lemma BoxedRuns(funcs: seq<AnfFunc>, scope: seq<TVal>, result: TVal, fuel: nat)
    requires |scope| == 4 && scope[2] == Clo(OUTER, [])
    requires Enter(funcs, OUTER, [], Scalar(IntL(6)), fuel) == Done(result)
    ensures EvalTail(funcs, BOXED, scope, [], None, fuel) == Done(result)
  {
    var args, atoms := [scope[2], scope[0]], [Atom.Var(2), Atom.Var(0)];
    assert atoms[..1] == [Atom.Var(2)] && atoms[..1][..0] == [];
    assert EvalAtoms(atoms[..1][..0], scope, []) == Done([]) && [] + [scope[2]] == [scope[2]];
    assert EvalAtoms(atoms[..1], scope, []) == Done([scope[2]]) && [scope[2]] + [scope[0]] == args;
    assert EvalComp(funcs, Comp.Prim(ConOp("Box"), atoms), scope, [], fuel) == Done(Con("Box", args));
    UnboxedRuns(funcs, [Con("Box", args)] + scope, args, result, fuel);
  }

  lemma UnboxedRuns(funcs: seq<AnfFunc>, scope: seq<TVal>, args: seq<TVal>, result: TVal, fuel: nat)
    requires |scope| > 0 && scope[0] == Con("Box", args) && |args| == 2 && args[0] == Clo(OUTER, [])
    requires Enter(funcs, OUTER, [], Scalar(IntL(6)), fuel) == Done(result)
    ensures EvalTail(funcs, Tail.Case(Atom.Var(0), [ARM]), scope, [], None, fuel) == Done(result)
  {
    hide EvalPrim;
    assert args[..2] == args && Reverse(args) == [args[1], args[0]];
    ArmRuns(funcs, Reverse(args) + scope, result, fuel);
    assert FindTailArm([ARM], "Box") == Some(0);
  }

  lemma ArmRuns(funcs: seq<AnfFunc>, scope: seq<TVal>, result: TVal, fuel: nat)
    requires |scope| > 1 && scope[1] == Clo(OUTER, [])
    requires Enter(funcs, OUTER, [], Scalar(IntL(6)), fuel) == Done(result)
    ensures EvalTail(funcs, ARM.body, scope, [], None, fuel) == Done(result)
  {
    var six := Scalar(IntL(6));
    assert EvalComp(funcs, Num(6), scope, [], fuel) == Done(six);
    assert EvalTail(funcs, TailCall(Atom.Var(2), Atom.Var(0)), [six] + scope, [], None, fuel) == Done(result);
  }

  /** A function with the outer function's body gives `result` when the inner closure does. */
  lemma OuterRuns(funcs: seq<AnfFunc>, name: FName, call: Tail, arg: TVal, result: TVal, fuel: nat)
    requires fuel >= 1
    requires LookupAnf(funcs, name) == Some(AnfFunc(name, false, Tail.Let(Comp.MkClosure(INNER, [Atom.Var(0)]), call)))
    requires EvalTail(funcs, call, [Clo(INNER, [arg]), arg], [], Some(name), fuel - 1) == Done(result)
    ensures Enter(funcs, name, [], arg, fuel) == Done(result)
  {
    var atoms := [Atom.Var(0)];
    assert atoms[..0] == [] && EvalAtoms(atoms[..0], [arg], []) == Done([]) && [] + [arg] == [arg];
    assert EvalComp(funcs, Comp.MkClosure(INNER, atoms), [arg], [], fuel - 1) == Done(Clo(INNER, [arg]));
    assert [Clo(INNER, [arg])] + [arg] == [Clo(INNER, [arg]), arg];
  }

  /** Unspecialized, the outer function returns its argument. */
  lemma Returns(funcs: seq<AnfFunc>, name: FName, arg: TVal, fuel: nat)
    requires fuel >= 2 && LookupAnf(funcs, INNER) == Some(AnfFunc(INNER, false, INNER_BODY))
    requires LookupAnf(funcs, name) == Some(AnfFunc(name, false, OUTER_BODY))
    ensures Enter(funcs, name, [], arg, fuel) == Done(arg)
  {
    assert Enter(funcs, INNER, [arg], Null, fuel - 1) == Done(arg);
    OuterRuns(funcs, name, TailCall(Atom.Var(0), Atom.Erased), arg, arg, fuel);
  }

  /** Specialized, it returns 5. */
  lemma ReturnsFive(funcs: seq<AnfFunc>, clone: AnfFunc, arg: TVal, fuel: nat)
    requires fuel >= 2 && clone.body == Tail.Let(Num(5), Ret(Atom.Var(0))) && LookupAnf(funcs, clone.name) == Some(clone)
    requires LookupAnf(funcs, OUTER)
          == Some(AnfFunc(OUTER, false, Tail.Let(Comp.MkClosure(INNER, [Atom.Var(0)]), TailCallGlobal(clone.name, Atom.Erased))))
    ensures Enter(funcs, OUTER, [], arg, fuel) == Done(Scalar(IntL(5)))
  {
    var five := Scalar(IntL(5));
    assert EvalComp(funcs, Num(5), [Null], [], fuel - 2) == Done(five);
    assert EvalTail(funcs, clone.body, [Null], [], Some(clone.name), fuel - 2) == Done(five);
    assert Enter(funcs, clone.name, [], Null, fuel - 1) == Done(five);
    OuterRuns(funcs, OUTER, TailCallGlobal(clone.name, Atom.Erased), arg, five, fuel);
  }

  lemma ProgramRuns(fuel: nat)
    requires fuel >= 2
    ensures RunProgram(PROGRAM, fuel) == Done(Scalar(IntL(6)))
  {
    hide EvalTail, LookupAnf, Enter;
    Lookups();
    Returns(PROGRAM.funcs, OUTER, Scalar(IntL(5)), fuel);
    Returns(PROGRAM.funcs, OUTER, Scalar(IntL(6)), fuel);
    EntryRuns(PROGRAM.funcs, CALL, Scalar(IntL(5)), Scalar(IntL(6)), fuel);
  }

  lemma OutputRuns(d: Decisions, clones: seq<AnfFunc>, k: nat, j: nat, fuel: nat)
    requires DecidedFor(d, clones, k, j) && fuel >= 2
    ensures ProgramApplies(PROGRAM) == 3 && RunProgram(OutFor(d, clones, PROGRAM), fuel) == Done(Scalar(IntL(5)))
  {
    hide EvalTail, Enter, RewProgram, ProgramApplies, LookupAnf;
    Rewritten(d, clones[k].name, clones[j].name);
    var rewritten := RewProgram(Cloned, d, PROGRAM).funcs;
    var funcs := rewritten + clones;
    LookupSecond(rewritten, clones, k);
    LookupSecond(rewritten, clones, j);
    LookupFirstTwo(funcs);
    Returns(funcs, clones[j].name, Scalar(IntL(5)), fuel);
    ReturnsFive(funcs, clones[k], Scalar(IntL(6)), fuel);
    EntryRuns(funcs, CallGlobal(clones[j].name, Atom.Var(0)), Scalar(IntL(5)), Scalar(IntL(5)), fuel);
  }

  lemma LookupFirstTwo(funcs: seq<AnfFunc>)
    requires |funcs| >= 2 && funcs[0].name == INNER && funcs[1].name == OUTER
    ensures LookupAnf(funcs, INNER) == Some(funcs[0]) && LookupAnf(funcs, OUTER) == Some(funcs[1])
  {
    assert LookupAnf(funcs[1..], OUTER) == Some(funcs[1]);
  }

  /** The program computes 6; whatever the pass returns for it computes 5. */
  lemma EscapedLiteralIsKept(sol: Solution, d: Decisions, clones: seq<AnfFunc>, keys: seq<Key>, fuel: nat)
    requires Specialized(sol, d, clones, keys) && fuel >= 2
    ensures RunProgram(PROGRAM, fuel) == Done(Scalar(IntL(6)))
    ensures |d| == ProgramApplies(PROGRAM) && RunProgram(OutFor(d, clones, PROGRAM), fuel) == Done(Scalar(IntL(5)))
  {
    hide EvalTail, ProgramApplies, OutFor, Build, Solves, LeqSol, CloneTable, DecisionsOf;
    ProgramRuns(fuel);
    var k, j := Decided(sol, d, clones, keys);
    OutputRuns(d, clones, k, j, fuel);
  }
}
