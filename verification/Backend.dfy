/** The passes one after another, from source term to optimized code. */
module Backend {
  import opened Basics
  import opened Values
  import opened CirLang
  import opened AnfLang
  import opened Cfa
  import opened CfaSound
  import opened Rewrite
  import opened Specialize
  import opened NormalizeFits
  import opened FlowFits
  import opened ClosureNames
  import opened Shapes
  import CseHoist
  import CsePreserves
  import CseScopes
  import Closure
  import ClosureSim
  import ClosureShapes
  import ClosureWf
  import ConverterObject
  import AnferObject
  import CfaRuns
  import Normalize
  import Pipeline
  import Defunc
  import Boxless
  import Capspec
  import CloneFlow

  // ---- normal forms fit ----

  lemma FuncNormalFits(f: Func, fuse: bool, raise: bool, ar: map<FName, nat>, known: set<FName>)
    requires f.name in ar && f.name in known
    requires ClosureWf.BodyOk(f.body, ar, 1, ar[f.name]) == true && Refers(f.body, known) == true
    ensures FuncFits(Normalize.NormalizeFunc(f, fuse, raise), Only(ar, known))
  {
    hide ClosureWf.BodyOk, Refers, Fits, TailFits, Normalize.ToTail, Normalize.Peephole;
    var only, n, m := Only(ar, known), ar[f.name], Normalize.Mode(Some(f.name), f.recursive, fuse);
    BodyFits(f.body, ar, known, 1, n);
    ToTailFits(f.body, DeferredShift.IDENTITY, m, only, n);
    PeepholeFits(Normalize.ToTail(f.body, DeferredShift.IDENTITY, m), Some(f.name), f.recursive, raise, only, n);
  }

  /** The normal form of a closed, converted program fits, and holds no clone. */
  lemma NormalFits(entry: Cir, fuse: bool, raise: bool) returns (ar: map<FName, nat>)
    requires IsSource(entry) && forall i: nat :: !Free(entry, i)
    ensures var q := Normalize.NormalizeProgram(Closure.Convert(entry), fuse, raise);
      ProgramFits(q, ar) && Capspec.NoClones(q)
  {
    hide ClosureWf.BodyOk, Refers, Fits, TailFits, Normalize.ToTail, Normalize.Peephole, Closure.Go, IsSource, Free;
    var p := Closure.Convert(entry);
    var q := Normalize.NormalizeProgram(p, fuse, raise);
    var all := ClosureWf.ConvertWellFormed(entry);
    ConvertRefers(entry);
    ClosureWf.GoNames(entry, 0);
    var known := NamesOf(p.funcs);
    ar := Only(all, known);
    forall k | 0 <= k < |q.funcs| ensures FuncFits(q.funcs[k], ar) {
      assert p.funcs[k] in p.funcs;
      FuncNormalFits(p.funcs[k], fuse, raise, all, known);
    }
    forall g | g in ar ensures exists k :: 0 <= k < |q.funcs| && q.funcs[k].name == g {
      var f :| f in p.funcs && f.name == g;
      var k :| 0 <= k < |p.funcs| && p.funcs[k] == f;
      assert q.funcs[k].name == g;
    }
    var m := Normalize.Mode(None, false, fuse);
    BodyFits(p.entry, all, known, 0, 0);
    ToTailFits(p.entry, DeferredShift.IDENTITY, m, ar, 0);
    PeepholeFits(Normalize.ToTail(p.entry, DeferredShift.IDENTITY, m), None, false, raise, ar, 0);
  }

  // ---- specialized programs fit ----

  predicate Within(ar: map<FName, nat>, more: map<FName, nat>) {
    forall g :: g in ar ==> g in more && more[g] == ar[g]
  }

  predicate Names(d: Decisions, more: map<FName, nat>) {
    forall i :: 0 <= i < |d| && d[i].Some? ==> d[i].value in more
  }

  lemma RewCompFits(d: Decisions, i: nat, c: Comp, ar: map<FName, nat>, more: map<FName, nat>, n: nat)
    requires i + CompApplies(c) <= |d| && CompFits(c, ar, n) && Within(ar, more) && Names(d, more)
    ensures CompFits(RewComp(Cloned, d, i, c), more, n)
  {}

  lemma {:induction false} RewTailFits(d: Decisions, i: nat, t: Tail, ar: map<FName, nat>, more: map<FName, nat>, n: nat, jumps: bool)
    requires i + Applies(t) <= |d| && TailFits(t, ar, n, jumps) && Within(ar, more) && Names(d, more)
    ensures TailFits(RewTail(Cloned, d, i, t), more, n, jumps) == true
    decreases t, 1
  {
    hide CompFits, RewComp, RewArms;
    match t
    case Let(c, rest) =>
      RewCompFits(d, i, c, ar, more, n);
      RewTailFits(d, i + CompApplies(c), rest, ar, more, n, jumps);
    case Case(_, arms) => RewArmsFit(d, i, arms, ar, more, n, jumps);
    case IfZero(_, a, b) =>
      RewTailFits(d, i, a, ar, more, n, jumps);
      RewTailFits(d, i + Applies(a), b, ar, more, n, jumps);
    case _ =>
  }

  lemma {:induction false} RewArmsFit(d: Decisions, i: nat, arms: seq<TailArm>, ar: map<FName, nat>, more: map<FName, nat>, n: nat, jumps: bool)
    requires i + ArmApplies(arms) <= |d| && Within(ar, more) && Names(d, more)
    requires forall k :: 0 <= k < |arms| ==> TailFits(arms[k].body, ar, n, jumps) == true
    ensures forall k :: 0 <= k < |arms| ==> TailFits(RewArms(Cloned, d, i, arms)[k].body, more, n, jumps) == true
    decreases arms, 0
  {
    hide TailFits, RewTail, Applies, Within, Names;
    if arms != [] {
      var m := |arms| - 1;
      RewArmsFit(d, i, arms[..m], ar, more, n, jumps);
      RewTailFits(d, i + ArmApplies(arms[..m]), arms[m].body, ar, more, n, jumps);
    }
  }

  lemma {:induction false} ShiftTailFits(t: Tail, depth: nat, ar: map<FName, nat>, more: map<FName, nat>, n: nat)
    requires TailFits(t, ar, n, false) && Within(ar, more)
    ensures TailFits(ShiftTail(t, depth, n), more, 0, false) == true
    decreases t
  {
    match t
    case Let(c, rest) => ShiftTailFits(rest, depth + 1, ar, more, n);
    case Case(_, arms) =>
      forall k | 0 <= k < |arms| ensures TailFits(ShiftTail(arms[k].body, depth + arms[k].binders, n), more, 0, false) == true {
        ShiftTailFits(arms[k].body, depth + arms[k].binders, ar, more, n);
      }
    case IfZero(_, a, b) =>
      ShiftTailFits(a, depth, ar, more, n);
      ShiftTailFits(b, depth, ar, more, n);
    case _ =>
  }

  lemma {:induction false} BindAllFits(lits: seq<Comp>, t: Tail, more: map<FName, nat>)
    requires TailFits(t, more, 0, false) && forall k :: 0 <= k < |lits| ==> IsLiteral(lits[k])
    ensures TailFits(BindAll(lits, t), more, 0, false) == true
    decreases |lits|
  {
    if lits != [] { BindAllFits(lits[1..], t, more); }
  }

  /** The captures of every function of the specialized program: a clone has none. */
  function WithClones(ar: map<FName, nat>, clones: seq<AnfFunc>): (more: map<FName, nat>)
    ensures Within(ar, more)
    ensures forall k :: 0 <= k < |clones| ==> clones[k].name in more
  {
    var names := set c | c in clones :: c.name;
    map g | g in ar.Keys + names :: if g in ar then ar[g] else 0
  }

  /** What a specialization run leaves: the least solution, a clone table in use, and its decisions. */
  ghost predicate Specialized(p: AnfProgram, sol: Solution, d: Decisions, clones: seq<AnfFunc>, keys: seq<Capspec.Key>) {
    && Solves(Build(p), sol) && (forall other :: Solves(Build(p), other) ==> LeqSol(sol, other))
    && Capspec.CloneTable(p, clones, keys) && Capspec.DecisionsOf(p, Build(p), sol, clones, keys, d)
    && Capspec.KeysUsed(p, Build(p), sol, keys) && |d| == ProgramApplies(p)
  }

  lemma CloneFits(p: AnfProgram, ar: map<FName, nat>, sol: Solution, c: AnfFunc, key: Capspec.Key, more: map<FName, nat>)
    requires ProgramFits(p, ar) && SitesFit(Build(p), ar) && Capspec.IsClone(p, c, key)
    requires Capspec.KeyUsed(p, Build(p), sol, key) && forall n: Node :: At(sol, n).lit.Just? ==> IsLiteral(At(sol, n).lit.lit)
    requires Within(ar, more) && c.name in more && more[c.name] == 0
    ensures FuncFits(c, more)
  {
    hide Build, TailFits, ShiftTail, BindAll;
    var f := Build(p);
    var head :| head in f.heads && Capspec.Specializable(p, f, sol, head, key);
    var s :| At(sol, head).cloSites == {s} && Capspec.SiteIs(f, sol, s, key);
    var g := LookupAnf(p.funcs, key.0).value;
    var k :| 0 <= k < |p.funcs| && p.funcs[k] == g;
    assert FuncFits(p.funcs[k], ar) && !g.recursive && |key.1| == ar[g.name];
    ShiftTailFits(g.body, 0, ar, more, |key.1|);
    forall j | 0 <= j < |key.1| ensures IsLiteral(key.1[j]) {
      assert At(sol, f.cloFields[s].caps[j]).lit == Just(key.1[j]);
    }
    BindAllFits(key.1, ShiftTail(g.body, 0, |key.1|), more);
  }

  /** A specialized program still fits. */
  lemma SpecializedFits(p: AnfProgram, ar: map<FName, nat>, sol: Solution, d: Decisions, clones: seq<AnfFunc>, keys: seq<Capspec.Key>)
    requires ProgramFits(p, ar) && Capspec.NoClones(p) && Specialized(p, sol, d, clones, keys)
    ensures ProgramFits(Capspec.OutFor(d, clones, p), WithClones(ar, clones))
  {
    hide Build, Solves, LeqSol, TailFits, RewTail, RewFuncs, Applies, Capspec.Specializable, Capspec.KeyUsed, Capspec.IsClone, SitesFit;
    var more, q := WithClones(ar, clones), Capspec.OutFor(d, clones, p);
    BuildSites(p, ar);
    LeastFits(p, ar, sol);
    DecisionsNamed(p, sol, d, clones, keys, more);
    forall k | 0 <= k < |q.funcs| ensures FuncFits(q.funcs[k], more) {
      if k < |p.funcs| {
        FuncRewritten(Cloned, d, p.funcs, |p.funcs|, k);
        RewTailFits(d, FuncApplies(p.funcs, k), p.funcs[k].body, ar, more, ar[p.funcs[k].name], p.funcs[k].recursive);
      } else {
        var j := k - |p.funcs|;
        assert q.funcs[k] == clones[j];
        CloneIsNew(p, ar, clones[j], keys[j]);
        CloneFits(p, ar, sol, clones[j], keys[j], more);
      }
    }
    RewTailFits(d, FuncApplies(p.funcs, |p.funcs|), p.entry, ar, more, 0, false);
    CloneFlow.NamesApart(p, d, clones, keys);
    forall g | g in more ensures exists k :: 0 <= k < |q.funcs| && q.funcs[k].name == g {
      if g in ar {
        var k :| 0 <= k < |p.funcs| && p.funcs[k].name == g;
        FuncRewritten(Cloned, d, p.funcs, |p.funcs|, k);
        assert q.funcs[k].name == g;
      } else {
        var c :| c in clones && c.name == g;
        var j :| 0 <= j < |clones| && clones[j] == c;
        assert q.funcs[|p.funcs| + j].name == g;
      }
    }
  }

  lemma CloneIsNew(p: AnfProgram, ar: map<FName, nat>, c: AnfFunc, key: Capspec.Key)
    requires ProgramFits(p, ar) && Capspec.NoClones(p) && Capspec.IsClone(p, c, key)
    ensures c.name !in ar
  {
    hide TailFits;
    forall k | 0 <= k < |p.funcs| ensures p.funcs[k].name != c.name { assert p.funcs[k] in p.funcs; }
  }

  lemma DecisionsNamed(p: AnfProgram, sol: Solution, d: Decisions, clones: seq<AnfFunc>, keys: seq<Capspec.Key>, more: map<FName, nat>)
    requires Capspec.DecisionsOf(p, Build(p), sol, clones, keys, d)
    requires forall k :: 0 <= k < |clones| ==> clones[k].name in more
    ensures Names(d, more)
  {
    hide Build, Capspec.Specializable;
    forall i | 0 <= i < |d| && d[i].Some? ensures d[i].value in more {
      assert Capspec.Decision(p, Build(p), sol, clones, keys, Build(p).heads[i], d[i]);
    }
  }

  // ---- specialization makes nothing escape ----

  /** No closure escapes into a constructor or an unknown function, by the solution of the analysis. */
  ghost predicate NoEscapes(p: AnfProgram, sol: Solution, clean: set<Node>) {
    Clean(Build(p), sol, clean) && NothingEscapes(Build(p), clean)
  }

  /** What a devirtualization run leaves: the least solution and its decisions. */
  ghost predicate Devirtualized(q: AnfProgram, sol: Solution, d: Decisions) {
    && Solves(Build(q), sol) && (forall other :: Solves(Build(q), other) ==> LeqSol(sol, other))
    && Defunc.DecisionsOf(Build(q), sol, d) && |d| == ProgramApplies(q)
  }

  lemma SpecializedSafe(
    p: AnfProgram, ar: map<FName, nat>, sol: Solution, clean: set<Node>, d: Decisions, clones: seq<AnfFunc>, keys: seq<Capspec.Key>,
    sol': Solution, d': Decisions) returns (clean': set<Node>)
    requires ProgramFits(p, ar) && Capspec.NoClones(p) && Specialized(p, sol, d, clones, keys) && NoEscapes(p, sol, clean)
    requires Devirtualized(Capspec.OutFor(d, clones, p), sol', d')
    ensures NoEscapes(Capspec.OutFor(d, clones, p), sol', clean')
  {
    hide Build, Solves, LeqSol, Clean, NothingEscapes, TailFits, PlainProgram, Capspec.EnvFits, Capspec.NoClones, Capspec.CloneTable,
      Capspec.DecisionsOf, Capspec.KeysUsed, Defunc.DecisionsOf, ProgramApplies, Capspec.OutFor, CloneFlow.SitesNamed, IndexOf;
    FittingIsPlain(p, ar);
    LeastFits(p, ar, sol);
    CfaRuns.IndexOfBuild(p);
    forall g | g in ar ensures g in IndexOf(p.funcs) {
      var k :| 0 <= k < |p.funcs| && p.funcs[k].name == g;
      CfaRuns.IndexAt(p.funcs, k);
    }
    clean' := CloneFlow.NothingNewEscapes(CloneFlow.Cloning(p, sol, clean, d, clones, keys), sol');
  }

  // ---- end to end ----

  /** The normal form the whole-program passes start from. */
  function NormalForm(c: Cir, fuse: bool, raise: bool): AnfProgram {
    Normalize.NormalizeProgram(Closure.Convert(CseHoist.Cse(c)), fuse, raise)
  }

  /** What the two whole-program passes leave behind. */
  datatype Passes = Passes(
    sol: Solution, d: Decisions, clones: seq<AnfFunc>, keys: seq<Capspec.Key>, sol': Solution, d': Decisions)

  /** The passes, run one after the other on `p`, give first `q` and then `r`. */
  ghost predicate Compiled(p: AnfProgram, q: AnfProgram, r: AnfProgram, run: Passes) {
    && Specialized(p, run.sol, run.d, run.clones, run.keys) && q == Capspec.OutFor(run.d, run.clones, p)
    && Devirtualized(q, run.sol', run.d') && r == RewProgram(Known, run.d', q)
  }

  /** From source term to specialized and devirtualized code: when the source has its branches in tail
      position and does not get stuck, and no closure escapes in its normal form, both end or run out of
      fuel together, and the value computed stands for the source value. */
  lemma BackendPreserves(
    entry: Cir, fuse: bool, raise: bool, p: AnfProgram, q: AnfProgram, r: AnfProgram, run: Passes, clean: set<Node>, fuel: nat)
    requires IsSource(entry) && (forall i: nat :: !Free(entry, i)) && Shaped(entry, Body, true)
    requires p == Normalize.NormalizeProgram(Closure.Convert(entry), fuse, raise)
    requires Compiled(p, q, r, run) && NoEscapes(p, run.sol, clean) && !EvalS(entry, [], fuel).Stuck?
    ensures ClosureSim.RelOutcome(Closure.Convert(entry).funcs, EvalS(entry, [], fuel), RunProgram(r, fuel))
  {
    hide Build, Solves, LeqSol, Clean, NothingEscapes, RunProgram, EvalS, Closure.Convert, Normalize.NormalizeProgram, RewProgram,
      ProgramFits, PlainProgram, Capspec.EnvFits, Capspec.NoClones, Capspec.CloneTable, Capspec.DecisionsOf, Capspec.KeysUsed,
      Defunc.DecisionsOf, ClosureSim.Rel, ProgramApplies, Capspec.OutFor, Shaped, IsSource, Free, Normalize.ProgramInFragment;
    ClosureShapes.ConvertShaped(entry, true);
    Pipeline.CompilePreserves(entry, fuse, raise, fuel);
    var ar := NormalFits(entry, fuse, raise);
    FittingIsPlain(p, ar);
    Capspec.CapspecPreserves(Analysis(p, run.sol, clean), run.d, run.clones, run.keys, fuel);
    SpecializedFits(p, ar, run.sol, run.d, run.clones, run.keys);
    FittingIsPlain(q, WithClones(ar, run.clones));
    var clean' := SpecializedSafe(p, ar, run.sol, clean, run.d, run.clones, run.keys, run.sol', run.d');
    Defunc.DefuncPreserves(Analysis(q, run.sol', clean'), run.d', fuel);
  }

  /** A first-order source value as the compiled program computes it. */
  function Target(v: SVal): TVal
    requires CsePreserves.FirstOrder(v)
  {
    match v
    case Null => Null
    case Scalar(l) => Scalar(l)
    case Con(c, xs) => Con(c, seq(|xs|, k requires 0 <= k < |xs| => Target(xs[k])))
    case Tuple(xs) => Tuple(seq(|xs|, k requires 0 <= k < |xs| => Target(xs[k])))
  }

  lemma {:induction false} RelTarget(funcs: seq<Func>, v: SVal, w: TVal)
    requires CsePreserves.FirstOrder(v) && ClosureSim.Rel(funcs, v, w)
    ensures w == Target(v)
    decreases v
  {
    match v
    case Con(_, xs) => forall k | 0 <= k < |xs| ensures w.args[k] == Target(xs[k]) { RelTarget(funcs, xs[k], w.args[k]); }
    case Tuple(xs) => forall k | 0 <= k < |xs| ensures w.fields[k] == Target(xs[k]) { RelTarget(funcs, xs[k], w.fields[k]); }
    case _ =>
  }

  /** The whole chain, sharing included: a first-order result of a closed source program with its branches in
      tail position is the result of the optimized program, when no closure escapes in the normal form. */
  lemma DriverPreserves(
    c: Cir, fuse: bool, raise: bool, p: AnfProgram, q: AnfProgram, r: AnfProgram, run: Passes, clean: set<Node>, fuel: nat, v: SVal)
    requires IsSource(c) && (forall i: nat :: !Free(c, i)) && Shaped(c, Body, true)
    requires p == NormalForm(c, fuse, raise)
    requires Compiled(p, q, r, run) && NoEscapes(p, run.sol, clean)
    requires CsePreserves.FirstOrder(v) && EvalS(c, [], fuel) == Done(v)
    ensures RunProgram(r, fuel) == Done(Target(v))
  {
    hide Compiled, NoEscapes, RunProgram, EvalS, Closure.Convert, Normalize.NormalizeProgram, ClosureSim.Rel, CseHoist.Cse, IsSource,
      Free, Shaped;
    CseScopes.CseClosed(c);
    CseScopes.CseShaped(c, true);
    CsePreserves.CsePreserves(c, fuel);
    BackendPreserves(CseHoist.Cse(c), fuse, raise, p, q, r, run, clean, fuel);
    RelTarget(Closure.Convert(CseHoist.Cse(c)).funcs, v, RunProgram(r, fuel).value);
  }

  /** A source program that builds no constructor with arguments needs no analysis to be in the fragment: of
      every such program, closures and all, the optimized program has the first-order result. */
  lemma BoxlessPreserves(
    c: Cir, fuse: bool, raise: bool, p: AnfProgram, q: AnfProgram, r: AnfProgram, run: Passes, fuel: nat, v: SVal)
    requires IsSource(c) && (forall i: nat :: !Free(c, i)) && Shaped(c, Body, false)
    requires p == NormalForm(c, fuse, raise)
    requires Compiled(p, q, r, run) && CsePreserves.FirstOrder(v) && EvalS(c, [], fuel) == Done(v)
    ensures RunProgram(r, fuel) == Done(Target(v))
  {
    hide Compiled, RunProgram, EvalS, Closure.Convert, Normalize.NormalizeProgram, CseHoist.Cse, IsSource, Free, Shaped, Clean,
      NothingEscapes, Build, ProgramFits, PlainProgram, Boxless.AnfBoxless, Capspec.NoClones, Capspec.EnvFits;
    CseScopes.CseClosed(c);
    CseScopes.CseShaped(c, false);
    ClosureShapes.ConvertShaped(CseHoist.Cse(c), false);
    Boxless.NormalBoxless(Closure.Convert(CseHoist.Cse(c)), fuse, raise);
    var ar := NormalFits(CseHoist.Cse(c), fuse, raise);
    FittingIsPlain(p, ar);
    Boxless.NothingBoxed(p, run.sol);
    LessShaped(c, Body);
    DriverPreserves(c, fuse, raise, p, q, r, run, {}, fuel, v);
  }

  lemma {:induction false} LessShaped(c: Cir, m: Mode)
    requires Shaped(c, m, false)
    ensures Shaped(c, m, true)
    decreases c
  {
    match c
    case Lam(b) => LessShaped(b, Enclosed(m));
    case Fix(b) => LessShaped(b, m);
    case App(f, a) => LessShaped(f, Inner(m)); LessShaped(a, Inner(m));
    case CallClosure(f, a) => LessShaped(f, Inner(m)); LessShaped(a, Inner(m));
    case Let(v, b) => LessShaped(v, Inner(m)); LessShaped(b, m);
    case Case(s, arms) =>
      LessShaped(s, Inner(m));
      forall k | 0 <= k < |arms| ensures Shaped(arms[k].body, m, true) { LessShaped(arms[k].body, m); }
    case IfZero(s, t, e) => LessShaped(s, Inner(m)); LessShaped(t, m); LessShaped(e, m);
    case MkClosure(_, caps) =>
      forall k | 0 <= k < |caps| ensures Shaped(caps[k], Inner(m), true) { LessShaped(caps[k], Inner(m)); }
    case Prim(_, args) =>
      forall k | 0 <= k < |args| ensures Shaped(args[k], Inner(m), true) { LessShaped(args[k], Inner(m)); }
    case _ =>
  }

  /** A constant function, applied to 7 and then to 0: two closures, one of them with a capture. */
  const CURRIED := App(App(Lam(Lam(Cir.Var(1))), Cir.Prim(LitOp(IntL(7)), [])), Cir.Prim(LitOp(IntL(0)), []))

  /** It computes 7, and so does every program the passes may return for it. */
  lemma CurriedCompiles(
    fuse: bool, raise: bool, p: AnfProgram, q: AnfProgram, r: AnfProgram, run: Passes, fuel: nat)
    requires p == NormalForm(CURRIED, fuse, raise) && Compiled(p, q, r, run)
    requires fuel >= 2
    ensures EvalS(CURRIED, [], fuel) == Done(Scalar(IntL(7))) && RunProgram(r, fuel) == Done(Scalar(IntL(7)))
  {
    hide Compiled, RunProgram, Normalize.NormalizeProgram, Closure.Convert, CseHoist.Cse;
    CurriedRuns(CURRIED, fuel);
    forall i: nat ensures IsSource(CURRIED) && !Free(CURRIED, i) && Shaped(CURRIED, Body, false) { CurriedShape(CURRIED, i); }
    CurriedShape(CURRIED, 0);
    BoxlessPreserves(CURRIED, fuse, raise, p, q, r, run, fuel, Scalar(IntL(7)));
  }

  lemma CurriedShape(c: Cir, i: nat)
    requires c == CURRIED
    ensures IsSource(c) && !Free(c, i) && Shaped(c, Body, false)
  {
    hide IsSource, Free, Shaped;
    ConstantShape(c.f.f, i);
    LiteralShape(c.f.a, i, Operand);
    LiteralShape(c.a, i, Operand);
    CallShape(c.f, i, Operand);
    CallShape(c, i, Body);
  }

  lemma CallShape(c: Cir, i: nat, m: Mode)
    requires c.App? && IsSource(c.f) && IsSource(c.a) && !Free(c.f, i) && !Free(c.a, i)
    requires Inner(m) == Operand && Shaped(c.f, Operand, false) && Shaped(c.a, Operand, false)
    ensures IsSource(c) && !Free(c, i) && Shaped(c, m, false)
  {}

  lemma ConstantShape(c: Cir, i: nat)
    requires c == Lam(Lam(Cir.Var(1)))
    ensures IsSource(c) && !Free(c, i) && Shaped(c, Operand, false)
  {
    assert IsSource(c.body.body) && !Free(c.body.body, i + 2) && Shaped(c.body.body, Body, false);
    assert IsSource(c.body) && !Free(c.body, i + 1) && Shaped(c.body, Body, false);
  }

  lemma LiteralShape(c: Cir, i: nat, m: Mode)
    requires c.Prim? && c.op.LitOp? && c.args == []
    ensures IsSource(c) && !Free(c, i) && Shaped(c, m, false)
  {}

  lemma CurriedRuns(c: Cir, fuel: nat)
    requires c == CURRIED && fuel >= 2
    ensures EvalS(c, [], fuel) == Done(Scalar(IntL(7)))
  {
    var seven, zero := Scalar(IntL(7)), Scalar(IntL(0));
    assert EvalS(c.f.f, [], fuel) == Done(Clo(LamCode(Lam(Cir.Var(1))), []));
    assert EvalS(c.f.a, [], fuel) == Done(seven) && EvalS(c.a, [], fuel) == Done(zero);
    assert [seven] + [] == [seven] && EvalS(Lam(Cir.Var(1)), [seven], fuel - 1) == Done(Clo(LamCode(Cir.Var(1)), [seven]));
    assert EvalS(c.f, [], fuel) == Done(Clo(LamCode(Cir.Var(1)), [seven]));
    assert EvalS(Cir.Var(1), [zero] + [seven], fuel - 1) == Done(seven);
  }

  /** The programs whose results the passes keep: closed, with their branches in tail position, and either
      no constructor with arguments is built or no closure escapes in the normal form. */
  ghost predicate Kept(c: Cir, p: AnfProgram, sol: Solution, clean: set<Node>) {
    && IsSource(c) && (forall i: nat :: !Free(c, i))
    && (Shaped(c, Body, false) || (Shaped(c, Body, true) && NoEscapes(p, sol, clean)))
  }

  lemma KeptPreserved(
    c: Cir, fuse: bool, raise: bool, p: AnfProgram, q: AnfProgram, r: AnfProgram, run: Passes, clean: set<Node>, fuel: nat, v: SVal)
    requires p == NormalForm(c, fuse, raise) && Compiled(p, q, r, run)
    requires Kept(c, p, run.sol, clean) && CsePreserves.FirstOrder(v) && EvalS(c, [], fuel) == Done(v)
    ensures RunProgram(r, fuel) == Done(Target(v))
  {
    hide Compiled, NoEscapes, RunProgram, EvalS, Closure.Convert, Normalize.NormalizeProgram, CseHoist.Cse, IsSource, Free, Shaped;
    if Shaped(c, Body, false) {
      BoxlessPreserves(c, fuse, raise, p, q, r, run, fuel, v);
    } else {
      DriverPreserves(c, fuse, raise, p, q, r, run, clean, fuel, v);
    }
  }

  /** Run the passes. The program returned is what they make of the source, and has its first-order results. */
  method Compile(c: Cir, fuse: bool, raise: bool) returns (r: AnfProgram)
    ensures exists q: AnfProgram, run: Passes :: Compiled(NormalForm(c, fuse, raise), q, r, run)
    ensures forall q: AnfProgram, run: Passes, clean: set<Node>, fuel: nat, v: SVal ::
      Compiled(NormalForm(c, fuse, raise), q, r, run) && Kept(c, NormalForm(c, fuse, raise), run.sol, clean)
      && CsePreserves.FirstOrder(v) && EvalS(c, [], fuel) == Done(v)
      ==> RunProgram(r, fuel) == Done(Target(v))
  {
    hide Build, Solves, LeqSol, RunProgram, EvalS, Closure.Convert, Normalize.NormalizeProgram, RewProgram, Capspec.CloneTable,
      Capspec.DecisionsOf, Capspec.KeysUsed, Defunc.DecisionsOf, ProgramApplies, Capspec.OutFor, CseHoist.Cse, Kept,
      CsePreserves.FirstOrder, Target;
    var shared := CseHoist.Cse(c);
    var converted := ConverterObject.Convert(shared);
    var normal := AnferObject.NormalizeProgram(converted, fuse, raise);
    ghost var sol, d, clones, keys;
    var special;
    special, sol, d, clones, keys := Capspec.SpecializeProgram(normal);
    ghost var sol', d';
    r, sol', d' := Defunc.Defunctionalize(special);
    ghost var whole := Passes(sol, d, clones, keys, sol', d');
    assert Compiled(normal, special, r, whole);
    assert normal == NormalForm(c, fuse, raise);
    hide Compiled, NormalForm;
    assert Compiled(NormalForm(c, fuse, raise), special, r, whole);
    forall q: AnfProgram, run: Passes, clean: set<Node>, fuel: nat, v: SVal |
      Compiled(normal, q, r, run) && Kept(c, normal, run.sol, clean) && CsePreserves.FirstOrder(v) && EvalS(c, [], fuel) == Done(v)
      ensures RunProgram(r, fuel) == Done(Target(v))
    {
      KeptPreserved(c, fuse, raise, normal, q, r, run, clean, fuel, v);
    }
  }
}
