/** Devirtualization: an indirect apply whose head can only be a closure of one function becomes a
    direct call of that function. */
module Defunc {
  import opened Basics
  import opened Values
  import opened CirLang
  import opened AnfLang
  import opened Cfa
  import opened CfaSound
  import opened Rewrite
  import opened RewriteProof
  import opened RewriteSites
  import CfaBuilder
  import CfaPrecise

  /** Devirtualize exactly when the head is one closure, with no tuple site and not open. */
  ghost predicate Decision(v: Av, d: Option<FName>) {
    if !v.open && v.sites == {} && |v.fns| == 1 then d.Some? && v.fns == {d.value} else d.None?
  }

  ghost predicate DecisionsOf(f: Flow, sol: Solution, d: Decisions) {
    |d| == |f.heads| && forall i :: 0 <= i < |d| ==> Decision(At(sol, f.heads[i]), d[i])
  }

  lemma SingletonIs<T>(s: set<T>, x: T)
    requires |s| == 1 && x in s
    ensures s == {x}
  {
    assert |s - {x}| == 0;
    assert s - {x} == {};
  }

  method Decide(v: Av) returns (d: Option<FName>)
    ensures Decision(v, d)
  {
    d := None;
    if !v.open && v.sites == {} && |v.fns| == 1 {
      var l :| l in v.fns;
      SingletonIs(v.fns, l);
      d := Some(l);
    }
  }

  /** What becomes of an indirect call with head value `v`: if the head can be one function only, no tuple
      and nothing unknown, a direct call of that function with the head as its environment. */
  ghost predicate Devirtualized(v: Av, c: CallSite, r: CallSite) {
    c.Indirect? &&
    if !v.open && v.sites == {} && exists g: FName :: v.fns == {g}
    then r.Direct? && v.fns == {r.name} && r.env == Some(c.head) && r.arg == c.arg && r.tail == c.tail
    else r == c
  }

  /** Every indirect call of `p`, the k-th of them with the k-th recorded head, and no other call. */
  ghost predicate AllDevirtualized(p: AnfProgram, sol: Solution, q: AnfProgram) {
    |Sites(q)| == |Sites(p)| && |Build(p).heads| == Indirects(Sites(p))
    && forall i :: 0 <= i < |Sites(p)| ==> SiteDevirtualized(p, sol, q, i)
  }

  ghost predicate SiteDevirtualized(p: AnfProgram, sol: Solution, q: AnfProgram, i: nat)
    requires i < |Sites(p)| == |Sites(q)|
  {
    var c, r, k := Sites(p)[i], Sites(q)[i], Indirects(Sites(p)[..i]);
    if c.Direct? then r == c else k < |Build(p).heads| && Devirtualized(At(sol, Build(p).heads[k]), c, r)
  }

  lemma DecisionInstalled(v: Av, d: Option<FName>, c: CallSite, r: CallSite)
    requires Decision(v, d) && c.Indirect?
    requires r == if d.None? then c else Direct(d.value, Some(c.head), c.arg, c.tail)
    ensures Devirtualized(v, c, r)
  {
    if g: FName :| v.fns == {g} { assert |v.fns| == 1; }
    if d.Some? { assert v.fns == {d.value}; }
  }

  /** Rewriting by the decisions of the analysis devirtualizes exactly those calls. */
  lemma DecisionsInstalled(p: AnfProgram, sol: Solution, d: Decisions)
    requires DecisionsOf(Build(p), sol, d)
    ensures |d| == ProgramApplies(p) && AllDevirtualized(p, sol, RewProgram(Known, d, p))
  {
    hide Build, Sites, RewProgram, Decision, Devirtualized, Indirects;
    HeadsAligned(p);
    ProgramResolved(Known, d, p);
    var q := RewProgram(Known, d, p);
    forall i | 0 <= i < |Sites(p)| ensures SiteDevirtualized(p, sol, q, i) {
      CallRewritten(Known, d, p, i);
      var c, k := Sites(p)[i], Indirects(Sites(p)[..i]);
      if c.Indirect? {
        assert Decision(At(sol, Build(p).heads[k]), d[k]);
        DecisionInstalled(At(sol, Build(p).heads[k]), d[k], c, Sites(q)[i]);
      }
    }
  }

  /** Analyze, decide every recorded head, rewrite. */
  method Defunctionalize(p: AnfProgram) returns (q: AnfProgram, ghost sol: Solution, ghost d: Decisions)
    ensures Solves(Build(p), sol) && forall other :: Solves(Build(p), other) ==> LeqSol(sol, other)
    ensures DecisionsOf(Build(p), sol, d) && |d| == ProgramApplies(p)
    ensures q == RewProgram(Known, d, p)
    ensures forall s :: Least(Build(p), s) ==> AllDevirtualized(p, s, q)
  {
    hide Build, Solves, LeqSol, RewFuncs, RewTail, Applies, FuncApplies, AllDevirtualized;
    var f, solution := CfaBuilder.Analyze(p);
    HeadsAligned(p);
    var decisions: Decisions := [];
    for i := 0 to |f.heads|
      invariant |decisions| == i && forall k :: 0 <= k < i ==> Decision(At(solution, f.heads[k]), decisions[k])
    {
      var one := Decide(At(solution, f.heads[i]));
      decisions := decisions + [one];
    }
    sol, d := solution, decisions;
    DecisionsInstalled(p, sol, d);
    forall s | Least(Build(p), s) ensures s == sol { LeastIsOne(Build(p), s, sol); }
    if forall i :: 0 <= i < |decisions| ==> decisions[i].None? {
      RewriteNoFuncs(Known, decisions, p.funcs, |p.funcs|);
      RewriteNothing(Known, decisions, FuncApplies(p.funcs, |p.funcs|), p.entry);
      assert p.funcs[..|p.funcs|] == p.funcs;
      return p, sol, d;
    }
    var rw := new Rewriter(Known, decisions);
    q := rw.Program(p);
  }

  /** In a program that reads nothing unknown, with its projections in range, one possible function and no
      tuple is enough: the call is devirtualized. */
  lemma SealedCallsDevirtualized(p: AnfProgram, sol: Solution, d: Decisions, i: nat, g: FName)
    requires CfaPrecise.SealedProgram(p) && PlainProgram(p) && CfaPrecise.InRange(Build(p), sol)
    requires Solves(Build(p), sol) && (forall other :: Solves(Build(p), other) ==> LeqSol(sol, other))
    requires DecisionsOf(Build(p), sol, d) && i < |Sites(p)| && Sites(p)[i].Indirect?
    requires var k := Indirects(Sites(p)[..i]);
      k < |Build(p).heads| && At(sol, Build(p).heads[k]).fns == {g} && At(sol, Build(p).heads[k]).sites == {}
    ensures |d| == ProgramApplies(p) && i < |Sites(RewProgram(Known, d, p))|
    ensures var c := Sites(p)[i]; Sites(RewProgram(Known, d, p))[i] == Direct(g, Some(c.head), c.arg, c.tail)
  {
    hide Build, Solves, LeqSol, Sites, RewProgram, Indirects, CfaPrecise.SealedProgram, PlainProgram, CfaPrecise.InRange;
    DecisionsInstalled(p, sol, d);
    CfaPrecise.HeadsKnown(p, sol, Indirects(Sites(p)[..i]));
    assert SiteDevirtualized(p, sol, RewProgram(Known, d, p), i);
    assert At(sol, Build(p).heads[Indirects(Sites(p)[..i])]).fns == {g};
  }

  /** Devirtualizing changes no run that does not get stuck. */
  lemma DefuncPreserves(x: Analysis, d: Decisions, fuel: nat)
    requires Good(x) && DecisionsOf(Build(x.p), x.sol, d) && !RunProgram(x.p, fuel).Stuck?
    ensures |d| == ProgramApplies(x.p) && RunProgram(RewProgram(Known, d, x.p), fuel) == RunProgram(x.p, fuel)
  {
    hide Build, Good, RunProgram, RewTail, RewFuncs;
    HeadsAligned(x.p);
    var plan := Plan(x, Known, d, []);
    forall i | 0 <= i < |d| && d[i].Some? ensures Justified(x, Out(plan), Known, d[i].value, Build(x.p).heads[i]) {
      assert Decision(At(x.sol, Build(x.p).heads[i]), d[i]);
    }
    RewritePreserves(plan, fuel);
    var r := RewProgram(Known, d, x.p);
    assert r.funcs + [] == r.funcs;
  }
}
