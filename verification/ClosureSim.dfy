/** Closure conversion preserves meaning: the simulation between source and converted runs. */
module ClosureSim {
  import opened Basics
  import opened Values
  import opened CirLang
  import opened Closure

  predicate Incl(fs: seq<Func>, gs: seq<Func>) {
    forall f :: f in fs ==> f in gs
  }

  ghost predicate UniqueNames(funcs: seq<Func>) {
    forall f, g :: f in funcs && g in funcs && f.name == g.name ==> f == g
  }

  /** `name` is the function some lambda with this body was lifted to. */
  ghost predicate LiftedLam(funcs: seq<Func>, body: Cir, name: FName) {
    exists n: nat :: LiftedLamAt(funcs, body, name, n)
  }

  ghost predicate LiftedLamAt(funcs: seq<Func>, body: Cir, name: FName, n: nat) {
    && IsSource(body)
    && Incl(Go(body, n).funcs, funcs)
    && Func(name, false, Rebind(LamView(FreeVars(body, 1)), Go(body, n).term, 0)) in funcs
  }

  ghost predicate LiftedRec(funcs: seq<Func>, inner: Cir, name: FName) {
    exists n: nat :: LiftedRecAt(funcs, inner, name, n)
  }

  ghost predicate LiftedRecAt(funcs: seq<Func>, inner: Cir, name: FName, n: nat) {
    && IsSource(inner)
    && Incl(Go(inner, n).funcs, funcs)
    && Func(name, true, Rebind(RecView(FreeVars(inner, 2), name), Go(inner, n).term, 0)) in funcs
  }

  ghost predicate Lifted(funcs: seq<Func>, code: SCode, name: FName) {
    match code
    case LamCode(b) => LiftedLam(funcs, b, name)
    case RecCode(inner) => LiftedRec(funcs, inner, name)
  }

  function Binders(code: SCode): nat {
    if code.LamCode? then 1 else 2
  }

  function CodeFreeVars(code: SCode): (fvs: seq<nat>)
    ensures forall k :: 0 <= k < |fvs| ==> fvs[k] >= Binders(code)
  {
    match code
    case LamCode(b) => FreeVars(b, 1)
    case RecCode(inner) => FreeVars(inner, 2)
  }

  /** Source value `s` and converted value `t` stand for each other: equal data, and a closure of a
      body against the lifted function of that body whose captures stand for the free variables. The
      self-reference of a recursive function needs no entry: it is rebuilt from the captures. */
  ghost predicate Rel(funcs: seq<Func>, s: SVal, t: TVal)
    decreases s
  {
    match s
    case Null => t.Null?
    case Scalar(l) => t == Scalar(l)
    case Con(c, xs) => t.Con? && t.con == c && |t.args| == |xs|
      && forall k :: 0 <= k < |xs| ==> Rel(funcs, xs[k], t.args[k])
    case Tuple(xs) => t.Tuple? && |t.fields| == |xs|
      && forall k :: 0 <= k < |xs| ==> Rel(funcs, xs[k], t.fields[k])
    case Clo(code, env) =>
      && t.Clo?
      && Lifted(funcs, code, t.code)
      && |t.env| == |CodeFreeVars(code)|
      && forall k :: 0 <= k < |t.env| ==>
           CodeFreeVars(code)[k] - Binders(code) < |env| && Rel(funcs, env[CodeFreeVars(code)[k] - Binders(code)], t.env[k])
  }

  // Below, `Rel(..) == true` states the same as `Rel(..)` but is proved without unfolding it.

  ghost predicate RelSeq(funcs: seq<Func>, s: seq<SVal>, t: seq<TVal>) {
    |s| == |t| && forall k :: 0 <= k < |s| ==> Rel(funcs, s[k], t[k]) == true
  }

  ghost predicate RelOutcome(funcs: seq<Func>, s: Outcome<SVal>, t: Outcome<TVal>) {
    match s
    case Done(v) => t.Done? && Rel(funcs, v, t.value) == true
    case Stuck => t.Stuck?
    case Timeout => t.Timeout?
  }

  ghost predicate RelOutcomeSeq(funcs: seq<Func>, s: Outcome<seq<SVal>>, t: Outcome<seq<TVal>>) {
    match s
    case Done(v) => t.Done? && RelSeq(funcs, v, t.value)
    case Stuck => t.Stuck?
    case Timeout => t.Timeout?
  }

  /** The converted value a rebound variable denotes. */
  function Denotes(view: View, i: nat, depth: nat, env: seq<TVal>, caps: seq<TVal>): Option<TVal> {
    match view
    case EntryView => if i < |env| then Some(env[i]) else None
    case LamView(fvs) =>
      if i < depth + 1 then (if i < |env| then Some(env[i]) else None)
      else (match Position(fvs, i - depth)
        case None => None
        case Some(k) => if k < |caps| then Some(caps[k]) else None)
    case RecView(fvs, name) =>
      if i < depth + 1 then (if i < |env| then Some(env[i]) else None)
      else if i == depth + 1 then (if |caps| == |fvs| then Some(Clo(name, caps)) else None)
      else (match Position(fvs, i - depth)
        case None => None
        case Some(k) => if k < |caps| then Some(caps[k]) else None)
  }

  /** Terms that evaluate one by one evaluate as a sequence. */
  lemma {:induction false} EvalPointwise(
    funcs: seq<Func>, cs: seq<Cir>, vs: seq<TVal>, env: seq<TVal>, caps: seq<TVal>, fuel: nat)
    requires |cs| == |vs|
    requires forall k :: 0 <= k < |cs| ==> EvalT(funcs, cs[k], env, caps, fuel) == Done(vs[k])
    ensures EvalTSeq(funcs, cs, env, caps, fuel) == Done(vs)
  {
    if cs != [] {
      var m := |cs| - 1;
      EvalPointwise(funcs, cs[..m], vs[..m], env, caps, fuel);
      assert vs == vs[..m] + [vs[m]];
    }
  }

  lemma ReboundVarEval(funcs: seq<Func>, view: View, i: nat, depth: nat, env: seq<TVal>, caps: seq<TVal>, fuel: nat)
    requires Denotes(view, i, depth, env, caps).Some?
    ensures EvalT(funcs, Rebind(view, Var(i), depth), env, caps, fuel)
         == Done(Denotes(view, i, depth, env, caps).value)
  {
    if view.RecView? && i == depth + 1 {
      var refs := SelfClosure(view.name, |view.fvs|).caps;
      EvalPointwise(funcs, refs, caps, env, caps, fuel);
    }
  }

  /** Crossing binders moves every variable outward together with its denotation. */
  lemma DenotesUnderBinders(view: View, i: nat, depth: nat, vs: seq<TVal>, env: seq<TVal>, caps: seq<TVal>)
    ensures Denotes(view, i + |vs|, depth + |vs|, vs + env, caps) == Denotes(view, i, depth, env, caps)
  {}

  /** Source variable `i` and its rebound form stand for each other. */
  ghost predicate VarRel(
    funcs: seq<Func>, view: View, i: nat, depth: nat, senv: seq<SVal>, env: seq<TVal>, caps: seq<TVal>)
  {
    && i < |senv|
    && Denotes(view, i, depth, env, caps).Some?
    && Rel(funcs, senv[i], Denotes(view, i, depth, env, caps).value) == true
  }

  /** Every free variable of `c` denotes a converted value that stands for its source value. */
  ghost predicate EnvRel(
    funcs: seq<Func>, c: Cir, view: View, depth: nat, senv: seq<SVal>, env: seq<TVal>, caps: seq<TVal>)
  {
    forall i: nat :: Free(c, i) ==> VarRel(funcs, view, i, depth, senv, env, caps)
  }

  lemma VarRelUnderBinders(
    funcs: seq<Func>, view: View, i: nat, depth: nat,
    senv: seq<SVal>, env: seq<TVal>, caps: seq<TVal>, svs: seq<SVal>, tvs: seq<TVal>)
    requires RelSeq(funcs, svs, tvs)
    requires i >= |svs| ==> VarRel(funcs, view, i - |svs|, depth, senv, env, caps)
    ensures VarRel(funcs, view, i, depth + |svs|, svs + senv, tvs + env, caps)
  {
    if i >= |svs| { DenotesUnderBinders(view, i - |svs|, depth, tvs, env, caps); }
  }

  lemma EnvRelBinders(
    funcs: seq<Func>, c: Cir, b: Cir, view: View, depth: nat,
    senv: seq<SVal>, env: seq<TVal>, caps: seq<TVal>, svs: seq<SVal>, tvs: seq<TVal>)
    requires EnvRel(funcs, c, view, depth, senv, env, caps)
    requires RelSeq(funcs, svs, tvs)
    requires forall i: nat :: Free(b, i + |svs|) ==> Free(c, i)
    ensures EnvRel(funcs, b, view, depth + |svs|, svs + senv, tvs + env, caps)
  {
    forall i: nat | Free(b, i) ensures VarRel(funcs, view, i, depth + |svs|, svs + senv, tvs + env, caps) {
      if i >= |svs| { assert Free(b, (i - |svs|) + |svs|); }
      VarRelUnderBinders(funcs, view, i, depth, senv, env, caps, svs, tvs);
    }
  }

  // ---- the simulation ----

  lemma PrimRel(funcs: seq<Func>, op: PrimOp, xs: seq<SVal>, ys: seq<TVal>)
    requires RelSeq(funcs, xs, ys)
    ensures RelOutcome(funcs, EvalPrim(op, xs), EvalPrim(op, ys))
  {}

  lemma FreeOfBody(body: Cir, binders: nat, i: nat)
    requires Free(body, i) && i >= binders
    ensures i in FreeVars(body, binders)
  {
    CollectFreeMeansFree(body, binders, binders, i);
  }

  lemma FreeVarsAreFree(body: Cir, binders: nat, k: nat)
    requires k < |FreeVars(body, binders)|
    ensures Free(body, FreeVars(body, binders)[k])
  {
    var e := FreeVars(body, binders)[k];
    assert e in FreeVars(body, binders);
    CollectFreeMeansFree(body, binders, binders, e);
  }

  /** Running the converted term agrees with running the source term, outcome for outcome. */
  lemma {:induction false} Simulation(
    funcs: seq<Func>, c: Cir, n: nat, view: View, depth: nat,
    senv: seq<SVal>, env: seq<TVal>, caps: seq<TVal>, fuel: nat)
    requires IsSource(c) && Incl(Go(c, n).funcs, funcs) && UniqueNames(funcs)
    requires EnvRel(funcs, c, view, depth, senv, env, caps)
    ensures RelOutcome(funcs, EvalS(c, senv, fuel), EvalT(funcs, Rebind(view, Go(c, n).term, depth), env, caps, fuel))
    decreases fuel, 1, c, 1
  {
    hide Lifted;
    match c
    case Var(i) =>
      assert Free(c, i);
      assert VarRel(funcs, view, i, depth, senv, env, caps);
      ReboundVarEval(funcs, view, i, depth, env, caps, fuel);
    case Erased =>
    case Lam(b) => SimLam(funcs, c, n, view, depth, senv, env, caps, fuel);
    case Fix(b) => SimLam(funcs, c, n, view, depth, senv, env, caps, fuel);
    case App(f, a) => SimApp(funcs, c, n, view, depth, senv, env, caps, fuel);
    case Let(v, b) => SimLet(funcs, c, n, view, depth, senv, env, caps, fuel);
    case Case(s, arms) => SimCase(funcs, c, n, view, depth, senv, env, caps, fuel);
    case IfZero(s, t, e) => SimIfZero(funcs, c, n, view, depth, senv, env, caps, fuel);
    case Prim(op, args) =>
      SimSeq(funcs, args, n, view, depth, senv, env, caps, fuel);
      var xs := EvalSSeq(args, senv, fuel);
      if xs.Done? {
        PrimRel(funcs, op, xs.value, EvalTSeq(funcs, RebindSeq(view, GoSeq(args, n).terms, depth), env, caps, fuel).value);
      }
  }

  lemma {:induction false} SimApp(
    funcs: seq<Func>, c: Cir, n: nat, view: View, depth: nat,
    senv: seq<SVal>, env: seq<TVal>, caps: seq<TVal>, fuel: nat)
    requires c.App? && IsSource(c) && Incl(Go(c, n).funcs, funcs) && UniqueNames(funcs)
    requires EnvRel(funcs, c, view, depth, senv, env, caps)
    ensures RelOutcome(funcs, EvalS(c, senv, fuel), EvalT(funcs, Rebind(view, Go(c, n).term, depth), env, caps, fuel))
    decreases fuel, 1, c, 0
  {
    hide Rel, Lifted;
    var cf := Go(c.f, n);
    Simulation(funcs, c.f, n, view, depth, senv, env, caps, fuel);
    Simulation(funcs, c.a, cf.next, view, depth, senv, env, caps, fuel);
    var fv, av := EvalS(c.f, senv, fuel), EvalS(c.a, senv, fuel);
    if fv.Done? {
      RelShape(funcs, fv.value, EvalT(funcs, Rebind(view, cf.term, depth), env, caps, fuel).value);
    }
    if fv.Done? && av.Done? && fv.value.Clo? && fuel > 0 {
      var ft := EvalT(funcs, Rebind(view, cf.term, depth), env, caps, fuel);
      var at := EvalT(funcs, Rebind(view, Go(c.a, cf.next).term, depth), env, caps, fuel);
      SimApply(funcs, fv.value, ft.value, av.value, at.value, fuel);
    }
  }

  lemma {:induction false} SimLet(
    funcs: seq<Func>, c: Cir, n: nat, view: View, depth: nat,
    senv: seq<SVal>, env: seq<TVal>, caps: seq<TVal>, fuel: nat)
    requires c.Let? && IsSource(c) && Incl(Go(c, n).funcs, funcs) && UniqueNames(funcs)
    requires EnvRel(funcs, c, view, depth, senv, env, caps)
    ensures RelOutcome(funcs, EvalS(c, senv, fuel), EvalT(funcs, Rebind(view, Go(c, n).term, depth), env, caps, fuel))
    decreases fuel, 1, c, 0
  {
    hide Rel, Lifted, VarRel, Denotes, RebindVar;
    var cv := Go(c.v, n);
    Simulation(funcs, c.v, n, view, depth, senv, env, caps, fuel);
    var x := EvalS(c.v, senv, fuel);
    if x.Done? {
      var y := EvalT(funcs, Rebind(view, cv.term, depth), env, caps, fuel).value;
      EnvRelBinders(funcs, c, c.b, view, depth, senv, env, caps, [x.value], [y]);
      Simulation(funcs, c.b, cv.next, view, depth + 1, [x.value] + senv, [y] + env, caps, fuel);
    }
  }

  /** Related values have the same outermost shape. */
  lemma RelShape(funcs: seq<Func>, s: SVal, t: TVal)
    requires Rel(funcs, s, t)
    ensures IsInt(s) == IsInt(t) && (IsInt(s) ==> s.lit == t.lit)
    ensures s.Con? == t.Con? && (s.Con? ==> s.con == t.con && RelSeq(funcs, s.args, t.args))
    ensures s.Clo? == t.Clo?
  {}

  lemma {:induction false} SimIfZero(
    funcs: seq<Func>, c: Cir, n: nat, view: View, depth: nat,
    senv: seq<SVal>, env: seq<TVal>, caps: seq<TVal>, fuel: nat)
    requires c.IfZero? && IsSource(c) && Incl(Go(c, n).funcs, funcs) && UniqueNames(funcs)
    requires EnvRel(funcs, c, view, depth, senv, env, caps)
    ensures RelOutcome(funcs, EvalS(c, senv, fuel), EvalT(funcs, Rebind(view, Go(c, n).term, depth), env, caps, fuel))
    decreases fuel, 1, c, 0
  {
    hide Rel, Lifted;
    var cs := Go(c.scrut, n);
    var ct := Go(c.then_, cs.next);
    Simulation(funcs, c.scrut, n, view, depth, senv, env, caps, fuel);
    Simulation(funcs, c.then_, cs.next, view, depth, senv, env, caps, fuel);
    Simulation(funcs, c.else_, ct.next, view, depth, senv, env, caps, fuel);
    var x := EvalS(c.scrut, senv, fuel);
    if x.Done? { RelShape(funcs, x.value, EvalT(funcs, Rebind(view, cs.term, depth), env, caps, fuel).value); }
  }

  /** What running a source closure on an argument does. */
  function ApplyS(f: SVal, x: SVal, fuel: nat): Outcome<SVal>
    requires f.Clo?
  {
    match f.code
    case LamCode(b) => EvalS(b, [x] + f.env, fuel)
    case RecCode(inner) => EvalS(inner, [x, f] + f.env, fuel)
  }

  lemma RelClo(funcs: seq<Func>, f: SVal, g: TVal)
    requires f.Clo? && Rel(funcs, f, g)
    ensures g.Clo? && g == Clo(g.code, g.env)
    ensures Lifted(funcs, f.code, g.code) && |g.env| == |CodeFreeVars(f.code)|
  {
    hide Lifted, Free, CodeFreeVars;
  }

  lemma RelCapture(funcs: seq<Func>, f: SVal, g: TVal, i: nat)
    requires f.Clo? && Rel(funcs, f, g) && i in CodeFreeVars(f.code)
    ensures g.Clo?
    ensures Position(CodeFreeVars(f.code), i).value < |g.env| && Binders(f.code) <= i < Binders(f.code) + |f.env|
    ensures Rel(funcs, f.env[i - Binders(f.code)], g.env[Position(CodeFreeVars(f.code), i).value]) == true
  {
    hide Lifted, Free, CodeFreeVars;
    var k := Position(CodeFreeVars(f.code), i).value;
    assert Rel(funcs, f.env[CodeFreeVars(f.code)[k] - Binders(f.code)], g.env[k]);
  }

  lemma LamBodyVar(funcs: seq<Func>, f: SVal, g: TVal, x: SVal, y: TVal, i: nat)
    requires f.Clo? && f.code.LamCode? && Rel(funcs, f, g) && Rel(funcs, x, y) && Free(f.code.body, i)
    ensures g.Clo? && VarRel(funcs, LamView(FreeVars(f.code.body, 1)), i, 0, [x] + f.env, [y], g.env)
  {
    hide Rel, Free, Lifted;
    RelClo(funcs, f, g);
    if i >= 1 {
      FreeOfBody(f.code.body, 1, i);
      RelCapture(funcs, f, g, i);
      var k := Position(FreeVars(f.code.body, 1), i).value;
      assert Denotes(LamView(FreeVars(f.code.body, 1)), i, 0, [y], g.env) == Some(g.env[k]);
    }
  }

  lemma RecBodyVar(funcs: seq<Func>, f: SVal, g: TVal, x: SVal, y: TVal, i: nat)
    requires f.Clo? && f.code.RecCode? && Rel(funcs, f, g) && Rel(funcs, x, y) && Free(f.code.inner, i)
    ensures g.Clo? && VarRel(funcs, RecView(FreeVars(f.code.inner, 2), g.code), i, 0, [x, f] + f.env, [y], g.env)
  {
    hide Rel, Free, Lifted;
    RelClo(funcs, f, g);
    var fvs := FreeVars(f.code.inner, 2);
    if i >= 2 {
      FreeOfBody(f.code.inner, 2, i);
      RelCapture(funcs, f, g, i);
      assert Denotes(RecView(fvs, g.code), i, 0, [y], g.env) == Some(g.env[Position(fvs, i).value]);
    } else if i == 1 {
      assert Denotes(RecView(fvs, g.code), i, 0, [y], g.env) == Some(g);
    }
  }

  /** Applying related closures to related arguments. */
  lemma {:induction false} SimApply(funcs: seq<Func>, f: SVal, g: TVal, x: SVal, y: TVal, fuel: nat)
    requires UniqueNames(funcs)
    requires f.Clo? && Rel(funcs, f, g) && Rel(funcs, x, y) && fuel > 0
    ensures g.Clo? && Lookup(funcs, g.code).Some?
    ensures RelOutcome(funcs, ApplyS(f, x, fuel - 1), EvalT(funcs, Lookup(funcs, g.code).value.body, [y], g.env, fuel - 1))
    decreases fuel, 0
  {
    hide Rel, EvalS, EvalT, Go, Rebind, Free;
    RelClo(funcs, f, g);
    match f.code {
      case LamCode(b) =>
        var n: nat :| LiftedLamAt(funcs, b, g.code, n);
        var view := LamView(FreeVars(b, 1));
        LookupFinds(funcs, Func(g.code, false, Rebind(view, Go(b, n).term, 0)));
        forall i: nat | Free(b, i) ensures VarRel(funcs, view, i, 0, [x] + f.env, [y], g.env) {
          LamBodyVar(funcs, f, g, x, y, i);
        }
        Simulation(funcs, b, n, view, 0, [x] + f.env, [y], g.env, fuel - 1);
      case RecCode(inner) =>
        var n: nat :| LiftedRecAt(funcs, inner, g.code, n);
        var view := RecView(FreeVars(inner, 2), g.code);
        LookupFinds(funcs, Func(g.code, true, Rebind(view, Go(inner, n).term, 0)));
        forall i: nat | Free(inner, i) ensures VarRel(funcs, view, i, 0, [x, f] + f.env, [y], g.env) {
          RecBodyVar(funcs, f, g, x, y, i);
        }
        Simulation(funcs, inner, n, view, 0, [x, f] + f.env, [y], g.env, fuel - 1);
    }
  }

  lemma LookupFinds(funcs: seq<Func>, f: Func)
    requires UniqueNames(funcs) && f in funcs
    ensures Lookup(funcs, f.name) == Some(f)
  {}

  /** The capture list of a lifted function evaluates to values that stand for its free variables. */
  lemma CapturesEval(
    funcs: seq<Func>, c: Cir, fvs: seq<nat>, binders: nat, view: View, depth: nat,
    senv: seq<SVal>, env: seq<TVal>, caps: seq<TVal>, fuel: nat)
    requires EnvRel(funcs, c, view, depth, senv, env, caps)
    requires forall k :: 0 <= k < |fvs| ==> fvs[k] >= binders && Free(c, fvs[k] - binders)
    ensures var r := EvalTSeq(funcs, RebindSeq(view, Captures(fvs, binders), depth), env, caps, fuel);
      r.Done? && |r.value| == |fvs|
      && forall k :: 0 <= k < |fvs| ==>
           fvs[k] - binders < |senv| && Rel(funcs, senv[fvs[k] - binders], r.value[k])
  {
    hide Rel, Free, EvalT;
    assert forall k :: 0 <= k < |fvs| ==> VarRel(funcs, view, fvs[k] - binders, depth, senv, env, caps);
    var vs := seq(|fvs|, k requires 0 <= k < |fvs| => Denotes(view, fvs[k] - binders, depth, env, caps).value);
    var terms := RebindSeq(view, Captures(fvs, binders), depth);
    forall k | 0 <= k < |fvs| ensures EvalT(funcs, terms[k], env, caps, fuel) == Done(vs[k]) {
      ReboundVarEval(funcs, view, fvs[k] - binders, depth, env, caps, fuel);
    }
    EvalPointwise(funcs, terms, vs, env, caps, fuel);
  }

  /** A closure built where its free variables are in scope stands for the source closure. */
  lemma SimSite(
    funcs: seq<Func>, c: Cir, code: SCode, name: FName, view: View, depth: nat,
    senv: seq<SVal>, env: seq<TVal>, caps: seq<TVal>, fuel: nat)
    requires EnvRel(funcs, c, view, depth, senv, env, caps)
    requires Lifted(funcs, code, name)
    requires forall k :: 0 <= k < |CodeFreeVars(code)| ==> Free(c, CodeFreeVars(code)[k] - Binders(code))
    ensures RelOutcome(funcs, Done(Clo(code, senv)),
      EvalT(funcs, MkClosure(name, RebindSeq(view, Captures(CodeFreeVars(code), Binders(code)), depth)), env, caps, fuel))
  {
    hide Free, Lifted, CodeFreeVars, Denotes;
    CapturesEval(funcs, c, CodeFreeVars(code), Binders(code), view, depth, senv, env, caps, fuel);
  }

  lemma LamLifted(funcs: seq<Func>, c: Cir, n: nat, view: View, depth: nat)
    requires c.Lam? && IsSource(c) && Incl(Go(c, n).funcs, funcs)
    ensures var r := Rebind(view, Go(c, n).term, depth);
      r.MkClosure? && r.caps == RebindSeq(view, Captures(CodeFreeVars(LamCode(c.body)), 1), depth)
      && Lifted(funcs, LamCode(c.body), r.name)
  {
    var name := FName("lam", Go(c.body, n).next);
    assert Go(c, n) == Lift(c.body, false, "lam", n);
    assert LiftedLamAt(funcs, c.body, name, n);
  }

  lemma LamFreeVars(c: Cir, k: nat)
    requires c.Lam? && k < |FreeVars(c.body, 1)|
    ensures Free(c, FreeVars(c.body, 1)[k] - 1)
  {
    FreeVarsAreFree(c.body, 1, k);
  }

  lemma FixLifted(funcs: seq<Func>, c: Cir, n: nat, view: View, depth: nat)
    requires c.Fix? && IsSource(c) && Incl(Go(c, n).funcs, funcs)
    ensures var r := Rebind(view, Go(c, n).term, depth);
      r.MkClosure? && r.caps == RebindSeq(view, Captures(CodeFreeVars(RecCode(c.body.body)), 2), depth)
      && Lifted(funcs, RecCode(c.body.body), r.name)
  {
    var name := FName("rec", n);
    assert Go(c, n) == LiftRec(c.body.body, n);
    assert LiftedRecAt(funcs, c.body.body, name, n + 1);
  }

  lemma FixFreeVars(c: Cir, k: nat)
    requires c.Fix? && c.body.Lam? && k < |FreeVars(c.body.body, 2)|
    ensures Free(c, FreeVars(c.body.body, 2)[k] - 2)
  {
    FreeVarsAreFree(c.body.body, 2, k);
    assert Free(c.body, FreeVars(c.body.body, 2)[k] - 1);
  }

  lemma SimLam(
    funcs: seq<Func>, c: Cir, n: nat, view: View, depth: nat,
    senv: seq<SVal>, env: seq<TVal>, caps: seq<TVal>, fuel: nat)
    requires (c.Lam? || c.Fix?) && IsSource(c) && Incl(Go(c, n).funcs, funcs)
    requires EnvRel(funcs, c, view, depth, senv, env, caps)
    ensures RelOutcome(funcs, EvalS(c, senv, fuel), EvalT(funcs, Rebind(view, Go(c, n).term, depth), env, caps, fuel))
  {
    hide Free, Lifted, Go, Rel, EvalT;
    var code := if c.Lam? then LamCode(c.body) else RecCode(c.body.body);
    forall k | 0 <= k < |CodeFreeVars(code)| ensures Free(c, CodeFreeVars(code)[k] - Binders(code)) {
      if c.Lam? { LamFreeVars(c, k); } else { FixFreeVars(c, k); }
    }
    if c.Lam? { LamLifted(funcs, c, n, view, depth); } else { FixLifted(funcs, c, n, view, depth); }
    var site := Rebind(view, Go(c, n).term, depth);
    assert site == MkClosure(site.name, RebindSeq(view, Captures(CodeFreeVars(code), Binders(code)), depth));
    SimSite(funcs, c, code, site.name, view, depth, senv, env, caps, fuel);
  }

  lemma {:induction false} SimSeq(
    funcs: seq<Func>, cs: seq<Cir>, n: nat, view: View, depth: nat,
    senv: seq<SVal>, env: seq<TVal>, caps: seq<TVal>, fuel: nat)
    requires forall k :: 0 <= k < |cs| ==> IsSource(cs[k]) && EnvRel(funcs, cs[k], view, depth, senv, env, caps)
    requires Incl(GoSeq(cs, n).funcs, funcs) && UniqueNames(funcs)
    ensures RelOutcomeSeq(funcs, EvalSSeq(cs, senv, fuel),
      EvalTSeq(funcs, RebindSeq(view, GoSeq(cs, n).terms, depth), env, caps, fuel))
    decreases fuel, 1, cs, 0
  {
    hide Rel, Free, Go, Rebind, EvalS, EvalT, Lifted, EnvRel, IsSource;
    if cs != [] {
      var m := |cs| - 1;
      var front := GoSeq(cs[..m], n);
      assert forall k :: 0 <= k < m ==> cs[..m][k] == cs[k];
      SimSeq(funcs, cs[..m], n, view, depth, senv, env, caps, fuel);
      Simulation(funcs, cs[m], front.next, view, depth, senv, env, caps, fuel);
      var terms := RebindSeq(view, GoSeq(cs, n).terms, depth);
      assert terms[..m] == RebindSeq(view, front.terms, depth);
      assert terms[m] == Rebind(view, Go(cs[m], front.next).term, depth);
    }
  }

  /** The counter value at which arm `k` is converted. */
  function ArmStart(arms: seq<Arm>, n: nat, k: nat): nat
    requires k < |arms|
  {
    GoArms(arms[..k], n).next
  }

  lemma {:induction false} GoArmsAt(arms: seq<Arm>, n: nat, k: nat)
    requires k < |arms|
    ensures var cb := Go(arms[k].body, ArmStart(arms, n, k));
      GoArms(arms, n).arms[k] == Arm(arms[k].con, arms[k].binders, cb.term)
      && Incl(cb.funcs, GoArms(arms, n).funcs)
  {
    var m := |arms| - 1;
    if k < m {
      GoArmsAt(arms[..m], n, k);
      assert arms[..m][..k] == arms[..k];
    }
  }

  /** Arm `k` of a converted and rebound case. */
  lemma CaseArm(funcs: seq<Func>, c: Cir, n: nat, view: View, depth: nat, k: nat)
    requires c.Case? && k < |c.arms| && Incl(Go(c, n).funcs, funcs)
    ensures Rebind(view, Go(c, n).term, depth).Case?
    ensures var arms := Rebind(view, Go(c, n).term, depth).arms;
      var cb := Go(c.arms[k].body, ArmStart(c.arms, Go(c.scrut, n).next, k));
      && |arms| == |c.arms|
      && arms[k] == Arm(c.arms[k].con, c.arms[k].binders, Rebind(view, cb.term, depth + c.arms[k].binders))
      && Incl(cb.funcs, funcs)
  {
    GoArmsAt(c.arms, Go(c.scrut, n).next, k);
  }

  lemma CaseSelects(funcs: seq<Func>, c: Cir, n: nat, view: View, depth: nat, con: string)
    requires c.Case? && Incl(Go(c, n).funcs, funcs)
    ensures FindArm(Rebind(view, Go(c, n).term, depth).arms, con) == FindArm(c.arms, con)
  {
    var arms := Rebind(view, Go(c, n).term, depth).arms;
    forall k | 0 <= k < |c.arms| ensures arms[k].con == c.arms[k].con {
      CaseArm(funcs, c, n, view, depth, k);
    }
    SameArm(arms, c.arms, con);
  }

  lemma FreeUnderArm(c: Cir, k: nat, i: nat)
    requires c.Case? && k < |c.arms| && Free(c.arms[k].body, i + c.arms[k].binders)
    ensures Free(c, i)
  {}

  lemma RelReversePrefix(funcs: seq<Func>, xs: seq<SVal>, ys: seq<TVal>, m: nat)
    requires RelSeq(funcs, xs, ys) && m <= |xs|
    ensures RelSeq(funcs, Reverse(xs[..m]), Reverse(ys[..m]))
  {}

  lemma {:induction false} SimCase(
    funcs: seq<Func>, c: Cir, n: nat, view: View, depth: nat,
    senv: seq<SVal>, env: seq<TVal>, caps: seq<TVal>, fuel: nat)
    requires c.Case? && IsSource(c) && Incl(Go(c, n).funcs, funcs) && UniqueNames(funcs)
    requires EnvRel(funcs, c, view, depth, senv, env, caps)
    ensures RelOutcome(funcs, EvalS(c, senv, fuel), EvalT(funcs, Rebind(view, Go(c, n).term, depth), env, caps, fuel))
    decreases fuel, 1, c, 0
  {
    hide Rel, Lifted;
    var arms, cs := c.arms, Go(c.scrut, n);
    Simulation(funcs, c.scrut, n, view, depth, senv, env, caps, fuel);
    var x := EvalS(c.scrut, senv, fuel);
    if x.Done? {
      RelShape(funcs, x.value, EvalT(funcs, Rebind(view, cs.term, depth), env, caps, fuel).value);
    }
    if x.Done? && x.value.Con? {
      CaseSelects(funcs, c, n, view, depth, x.value.con);
    }
    if x.Done? && x.value.Con? && FindArm(arms, x.value.con).Some? {
      var y := EvalT(funcs, Rebind(view, cs.term, depth), env, caps, fuel).value;
      var k := FindArm(arms, x.value.con).value;
      CaseArm(funcs, c, n, view, depth, k);
      SimArm(funcs, c, k, ArmStart(arms, cs.next, k), view, depth, senv, env, caps, x.value.args, y.args, fuel);
    }
  }

  lemma {:induction false} SimArm(
    funcs: seq<Func>, c: Cir, k: nat, n: nat, view: View, depth: nat,
    senv: seq<SVal>, env: seq<TVal>, caps: seq<TVal>, xs: seq<SVal>, ys: seq<TVal>, fuel: nat)
    requires c.Case? && IsSource(c) && k < |c.arms| && UniqueNames(funcs)
    requires Incl(Go(c.arms[k].body, n).funcs, funcs)
    requires EnvRel(funcs, c, view, depth, senv, env, caps)
    requires RelSeq(funcs, xs, ys)
    ensures var m := c.arms[k].binders;
      m <= |xs| ==>
        RelOutcome(funcs, EvalS(c.arms[k].body, Reverse(xs[..m]) + senv, fuel),
          EvalT(funcs, Rebind(view, Go(c.arms[k].body, n).term, depth + m), Reverse(ys[..m]) + env, caps, fuel))
    decreases fuel, 1, c, 0, k
  {
    hide Rel, Go, Rebind, Free, EvalS, EvalT;
    var arm := c.arms[k];
    if arm.binders <= |xs| {
      var svs, tvs := Reverse(xs[..arm.binders]), Reverse(ys[..arm.binders]);
      RelReversePrefix(funcs, xs, ys, arm.binders);
      forall i: nat | Free(arm.body, i + |svs|) ensures Free(c, i) {
        FreeUnderArm(c, k, i);
      }
      EnvRelBinders(funcs, c, arm.body, view, depth, senv, env, caps, svs, tvs);
      Simulation(funcs, arm.body, n, view, depth + arm.binders, svs + senv, tvs + env, caps, fuel);
    }
  }
}
