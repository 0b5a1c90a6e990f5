/** What every converted program satisfies, and the whole-program meaning theorem. */
module ClosureWf {
  import opened Values
  import opened CirLang
  import opened Closure
  import opened ClosureSim

  // ---- names ----

  /** Every function of `fs` has its own counter value, all of them in `[lo, hi)`. */
  ghost predicate NamedFrom(fs: seq<Func>, lo: nat, hi: nat) {
    && lo <= hi
    && (forall i :: 0 <= i < |fs| ==> fs[i].name.FName? && lo <= fs[i].name.id < hi)
    && (forall i, j :: 0 <= i < j < |fs| ==> fs[i].name != fs[j].name)
  }

  lemma NamedAppend(fs: seq<Func>, gs: seq<Func>, lo: nat, mid: nat, hi: nat)
    requires NamedFrom(fs, lo, mid) && NamedFrom(gs, mid, hi)
    ensures NamedFrom(fs + gs, lo, hi)
  {}

  lemma {:induction false} GoNames(c: Cir, n: nat)
    ensures NamedFrom(Go(c, n).funcs, n, Go(c, n).next)
    decreases c, 1
  {
    hide NamedFrom;
    NamedNone(n);
    match c
    case Var(_) =>
    case EnvRef(_) =>
    case Global(_) =>
    case Erased =>
    case Lam(b) => LiftNames(b, false, "lam", n);
    case Fix(b) => if b.Lam? { LiftRecNames(b.body, n); } else { LiftNames(b, true, "fix", n); }
    case App(f, a) => GoNames(f, n); GoNames(a, Go(f, n).next); Named2(f, a, n);
    case CallClosure(f, a) => GoNames(f, n); GoNames(a, Go(f, n).next); Named2(f, a, n);
    case Let(v, b) => GoNames(v, n); GoNames(b, Go(v, n).next); Named2(v, b, n);
    case Case(s, arms) =>
      var m := Go(s, n).next;
      GoNames(s, n);
      GoArmsNames(arms, m);
      NamedAppend(Go(s, n).funcs, GoArms(arms, m).funcs, n, m, GoArms(arms, m).next);
    case IfZero(s, t, e) =>
      var m := Go(s, n).next;
      GoNames(s, n);
      GoNames(t, m);
      Named2(s, t, n);
      GoNames(e, Go(t, m).next);
      NamedAppend(Go(s, n).funcs + Go(t, m).funcs, Go(e, Go(t, m).next).funcs, n, Go(t, m).next, Go(c, n).next);
    case MkClosure(_, caps) => GoSeqNames(caps, n);
    case Prim(_, args) => GoSeqNames(args, n);
  }

  lemma NamedNone(n: nat)
    ensures NamedFrom([], n, n)
  {}

  lemma Named2(a: Cir, b: Cir, n: nat)
    requires NamedFrom(Go(a, n).funcs, n, Go(a, n).next)
    requires NamedFrom(Go(b, Go(a, n).next).funcs, Go(a, n).next, Go(b, Go(a, n).next).next)
    ensures NamedFrom(Go(a, n).funcs + Go(b, Go(a, n).next).funcs, n, Go(b, Go(a, n).next).next)
  {
    NamedAppend(Go(a, n).funcs, Go(b, Go(a, n).next).funcs, n, Go(a, n).next, Go(b, Go(a, n).next).next);
  }

  lemma {:induction false} LiftRecNames(inner: Cir, n: nat)
    ensures NamedFrom(LiftRec(inner, n).funcs, n, LiftRec(inner, n).next)
    decreases inner, 2
  {
    GoNames(inner, n + 1);
  }

  lemma {:induction false} LiftNames(b: Cir, recursive: bool, hint: string, n: nat)
    ensures NamedFrom(Lift(b, recursive, hint, n).funcs, n, Lift(b, recursive, hint, n).next)
    decreases b, 2
  {
    GoNames(b, n);
  }

  lemma {:induction false} GoSeqNames(cs: seq<Cir>, n: nat)
    ensures NamedFrom(GoSeq(cs, n).funcs, n, GoSeq(cs, n).next)
    decreases cs, 0
  {
    if cs != [] {
      GoSeqNames(cs[..|cs| - 1], n);
      GoNames(cs[|cs| - 1], GoSeq(cs[..|cs| - 1], n).next);
    }
  }

  lemma {:induction false} GoArmsNames(arms: seq<Arm>, n: nat)
    ensures NamedFrom(GoArms(arms, n).funcs, n, GoArms(arms, n).next)
    decreases arms, 0
  {
    if arms != [] {
      GoArmsNames(arms[..|arms| - 1], n);
      GoNames(arms[|arms| - 1].body, GoArms(arms[..|arms| - 1], n).next);
    }
  }

  lemma ConvertNamesUnique(entry: Cir)
    ensures UniqueNames(Convert(entry).funcs)
  {
    GoNames(entry, 0);
  }

  // ---- meaning ----

  /** Converting a closed program changes no outcome: it ends, gets stuck or runs on exactly when the
      source does, and its value stands for the source value. */
  lemma ConvertPreserves(entry: Cir, fuel: nat)
    requires IsSource(entry) && forall i: nat :: !Free(entry, i)
    ensures var p := Convert(entry);
      RelOutcome(p.funcs, EvalS(entry, [], fuel), EvalT(p.funcs, p.entry, [], [], fuel))
  {
    var p := Convert(entry);
    ConvertNamesUnique(entry);
    Simulation(p.funcs, entry, 0, EntryView, 0, [], [], [], fuel);
    EntryUnchanged(p.entry, 0);
  }

  lemma {:induction false} EntryUnchanged(c: Cir, depth: nat)
    ensures Rebind(EntryView, c, depth) == c
    decreases c
  {
    match c
    case Var(_) =>
    case EnvRef(_) =>
    case Global(_) =>
    case Erased =>
    case Lam(b) => EntryUnchanged(b, depth + 1);
    case Fix(b) => EntryUnchanged(b, depth + 1);
    case App(f, a) => EntryUnchanged(f, depth); EntryUnchanged(a, depth);
    case CallClosure(f, a) => EntryUnchanged(f, depth); EntryUnchanged(a, depth);
    case Let(v, b) => EntryUnchanged(v, depth); EntryUnchanged(b, depth + 1);
    case Case(s, arms) =>
      EntryUnchanged(s, depth);
      forall k | 0 <= k < |arms| ensures Rebind(EntryView, arms[k].body, depth + arms[k].binders) == arms[k].body {
        EntryUnchanged(arms[k].body, depth + arms[k].binders);
      }
      assert Rebind(EntryView, c, depth).arms == arms;
    case IfZero(s, t, e) => EntryUnchanged(s, depth); EntryUnchanged(t, depth); EntryUnchanged(e, depth);
    case MkClosure(_, caps) =>
      forall k | 0 <= k < |caps| ensures Rebind(EntryView, caps[k], depth) == caps[k] {
        EntryUnchanged(caps[k], depth);
      }
      assert Rebind(EntryView, c, depth).caps == caps;
    case Prim(_, args) =>
      forall k | 0 <= k < |args| ensures Rebind(EntryView, args[k], depth) == args[k] {
        EntryUnchanged(args[k], depth);
      }
      assert Rebind(EntryView, c, depth).args == args;
  }

  /** A machine literal is the result of one program exactly when it is the result of the other. */
  lemma ConvertPreservesLiterals(entry: Cir, fuel: nat, lit: Lit)
    requires IsSource(entry) && forall i: nat :: !Free(entry, i)
    ensures var p := Convert(entry);
      EvalS(entry, [], fuel) == Done(Scalar(lit)) <==> EvalT(p.funcs, p.entry, [], [], fuel) == Done(Scalar(lit))
  {
    ConvertPreserves(entry, fuel);
  }

  // ---- well-formedness ----

  /** `c` is converted code with `locals` variables and `ncaps` captures in scope: no lambda remains
      and every closure of a function carries the number of captures `ar` gives it. */
  ghost predicate BodyOk(c: Cir, ar: map<FName, nat>, locals: nat, ncaps: nat) {
    match c
    case Var(i) => i < locals
    case EnvRef(k) => k < ncaps
    case Global(g) => g in ar && ar[g] == 0
    case Erased => true
    case Lam(_) => false
    case Fix(_) => false
    case App(_, _) => false
    case CallClosure(f, a) => BodyOk(f, ar, locals, ncaps) && BodyOk(a, ar, locals, ncaps)
    case Let(v, b) => BodyOk(v, ar, locals, ncaps) && BodyOk(b, ar, locals + 1, ncaps)
    case Case(s, arms) => BodyOk(s, ar, locals, ncaps)
      && forall k :: 0 <= k < |arms| ==> BodyOk(arms[k].body, ar, locals + arms[k].binders, ncaps)
    case IfZero(s, t, e) =>
      BodyOk(s, ar, locals, ncaps) && BodyOk(t, ar, locals, ncaps) && BodyOk(e, ar, locals, ncaps)
    case MkClosure(name, caps) => name in ar && |caps| == ar[name]
      && forall k :: 0 <= k < |caps| ==> BodyOk(caps[k], ar, locals, ncaps)
    case Prim(_, args) => forall k :: 0 <= k < |args| ==> BodyOk(args[k], ar, locals, ncaps)
  }

  ghost predicate FuncsOk(funcs: seq<Func>, ar: map<FName, nat>) {
    forall f :: f in funcs ==> f.name in ar && BodyOk(f.body, ar, 1, ar[f.name])
  }

  ghost predicate ProgramOk(p: Program, ar: map<FName, nat>) {
    UniqueNames(p.funcs) && FuncsOk(p.funcs, ar) && BodyOk(p.entry, ar, 0, 0)
  }

  ghost predicate HasArity(ar: map<FName, nat>, name: FName, n: nat) {
    name in ar && ar[name] == n
  }

  /** `ar` gives every function lifted from `c` its number of captures. */
  ghost predicate Arities(c: Cir, n: nat, ar: map<FName, nat>)
    requires IsSource(c)
  {
    match c
    case Var(_) => true
    case Erased => true
    case Lam(b) => Arities(b, n, ar) && HasArity(ar, FName("lam", Go(b, n).next), |FreeVars(b, 1)|)
    case Fix(b) => Arities(b.body, n + 1, ar) && HasArity(ar, FName("rec", n), |FreeVars(b.body, 2)|)
    case App(f, a) => Arities(f, n, ar) && Arities(a, Go(f, n).next, ar)
    case Let(v, b) => Arities(v, n, ar) && Arities(b, Go(v, n).next, ar)
    case Case(s, arms) => Arities(s, n, ar)
      && forall k :: 0 <= k < |arms| ==> Arities(arms[k].body, ArmStart(arms, Go(s, n).next, k), ar)
    case IfZero(s, t, e) =>
      var m := Go(s, n).next;
      Arities(s, n, ar) && Arities(t, m, ar) && Arities(e, Go(t, m).next, ar)
    case Prim(_, args) => forall k :: 0 <= k < |args| ==> Arities(args[k], ArgStart(args, n, k), ar)
  }

  /** The counter value at which operand `k` is converted. */
  function ArgStart(args: seq<Cir>, n: nat, k: nat): nat
    requires k < |args|
  {
    GoSeq(args[..k], n).next
  }

  // ---- an arity for every lifted function ----

  ghost predicate Extends(ar: map<FName, nat>, ar': map<FName, nat>) {
    forall name :: name in ar ==> name in ar' && ar'[name] == ar[name]
  }

  ghost predicate NamesBelow(ar: map<FName, nat>, n: nat) {
    forall name :: name in ar ==> name.FName? && name.id < n
  }

  lemma {:induction false} AritiesExtend(c: Cir, n: nat, ar: map<FName, nat>, ar': map<FName, nat>)
    requires IsSource(c) && Arities(c, n, ar) && Extends(ar, ar')
    ensures Arities(c, n, ar')
    decreases c
  {
    match c
    case Var(_) =>
    case Erased =>
    case Lam(b) => AritiesExtend(b, n, ar, ar');
    case Fix(b) => AritiesExtend(b.body, n + 1, ar, ar');
    case App(f, a) =>
      AritiesExtend(f, n, ar, ar');
      AritiesExtend(a, Go(f, n).next, ar, ar');
    case Let(v, b) =>
      AritiesExtend(v, n, ar, ar');
      AritiesExtend(b, Go(v, n).next, ar, ar');
    case Case(s, arms) =>
      AritiesExtend(s, n, ar, ar');
      forall k | 0 <= k < |arms| ensures Arities(arms[k].body, ArmStart(arms, Go(s, n).next, k), ar') {
        AritiesExtend(arms[k].body, ArmStart(arms, Go(s, n).next, k), ar, ar');
      }
    case IfZero(s, t, e) =>
      var m := Go(s, n).next;
      AritiesExtend(s, n, ar, ar');
      AritiesExtend(t, m, ar, ar');
      AritiesExtend(e, Go(t, m).next, ar, ar');
    case Prim(_, args) =>
      forall k | 0 <= k < |args| ensures Arities(args[k], ArgStart(args, n, k), ar') {
        AritiesExtend(args[k], ArgStart(args, n, k), ar, ar');
      }
  }

  ghost predicate GrowsTo(c: Cir, n: nat, ar0: map<FName, nat>, ar: map<FName, nat>)
    requires IsSource(c)
  {
    Extends(ar0, ar) && NamesBelow(ar, Go(c, n).next) && Arities(c, n, ar)
  }

  lemma {:induction false} ArityMap(c: Cir, n: nat, ar0: map<FName, nat>) returns (ar: map<FName, nat>)
    requires IsSource(c) && NamesBelow(ar0, n)
    ensures GrowsTo(c, n, ar0, ar)
    decreases c, 1
  {
    match c
    case Var(_) => ar := ar0;
    case Erased => ar := ar0;
    case Lam(b) =>
      var ar1 := ArityMap(b, n, ar0);
      ar := ar1[FName("lam", Go(b, n).next) := |FreeVars(b, 1)|];
      AritiesExtend(b, n, ar1, ar);
      assert Go(c, n) == Lift(b, false, "lam", n);
    case Fix(b) =>
      var ar1 := ar0[FName("rec", n) := |FreeVars(b.body, 2)|];
      ar := ArityMap(b.body, n + 1, ar1);
      assert Go(c, n) == LiftRec(b.body, n);
    case App(f, a) =>
      var ar1 := ArityMap(f, n, ar0);
      ar := ArityMap(a, Go(f, n).next, ar1);
      AritiesExtend(f, n, ar1, ar);
    case Let(v, b) =>
      var ar1 := ArityMap(v, n, ar0);
      ar := ArityMap(b, Go(v, n).next, ar1);
      AritiesExtend(v, n, ar1, ar);
    case Case(s, arms) =>
      var ar1 := ArityMap(s, n, ar0);
      ar := ArityMapArms(arms, Go(s, n).next, ar1);
      AritiesExtend(s, n, ar1, ar);
    case IfZero(s, t, e) => ar := ArityMapIfZero(c, n, ar0);
    case Prim(_, args) => ar := ArityMapSeq(args, n, ar0);
  }

  lemma {:induction false} ArityMapIfZero(c: Cir, n: nat, ar0: map<FName, nat>) returns (ar: map<FName, nat>)
    requires c.IfZero? && IsSource(c) && NamesBelow(ar0, n)
    ensures GrowsTo(c, n, ar0, ar)
    decreases c, 0
  {
    var m := Go(c.scrut, n).next;
    var ar1 := ArityMap(c.scrut, n, ar0);
    var ar2 := ArityMap(c.then_, m, ar1);
    ar := ArityMap(c.else_, Go(c.then_, m).next, ar2);
    AritiesExtend(c.scrut, n, ar1, ar);
    AritiesExtend(c.then_, m, ar2, ar);
  }

  lemma {:induction false} ArityMapSeq(args: seq<Cir>, n: nat, ar0: map<FName, nat>) returns (ar: map<FName, nat>)
    requires (forall k :: 0 <= k < |args| ==> IsSource(args[k])) && NamesBelow(ar0, n)
    ensures Extends(ar0, ar) && NamesBelow(ar, GoSeq(args, n).next)
    ensures forall k :: 0 <= k < |args| ==> Arities(args[k], ArgStart(args, n, k), ar)
    decreases args, 0
  {
    ar := ar0;
    if args != [] {
      var m := |args| - 1;
      var front := args[..m];
      var ar1 := ArityMapSeq(front, n, ar0);
      ar := ArityMap(args[m], GoSeq(front, n).next, ar1);
      forall k | 0 <= k < m ensures Arities(args[k], ArgStart(args, n, k), ar) {
        assert front[..k] == args[..k] && front[k] == args[k];
        AritiesExtend(front[k], ArgStart(front, n, k), ar1, ar);
      }
    }
  }

  lemma {:induction false} ArityMapArms(arms: seq<Arm>, n: nat, ar0: map<FName, nat>) returns (ar: map<FName, nat>)
    requires (forall k :: 0 <= k < |arms| ==> IsSource(arms[k].body)) && NamesBelow(ar0, n)
    ensures Extends(ar0, ar) && NamesBelow(ar, GoArms(arms, n).next)
    ensures forall k :: 0 <= k < |arms| ==> Arities(arms[k].body, ArmStart(arms, n, k), ar)
    decreases arms, 0
  {
    ar := ar0;
    if arms != [] {
      var m := |arms| - 1;
      var front := arms[..m];
      var ar1 := ArityMapArms(front, n, ar0);
      ar := ArityMap(arms[m].body, GoArms(front, n).next, ar1);
      forall k | 0 <= k < m ensures Arities(arms[k].body, ArmStart(arms, n, k), ar) {
        assert front[..k] == arms[..k] && front[k] == arms[k];
        AritiesExtend(front[k].body, ArmStart(front, n, k), ar1, ar);
      }
    }
  }

  // ---- conversion produces well-formed code ----

  /** Every free variable of `c` is rebound to something in scope. */
  ghost predicate ScopeOk(c: Cir, view: View, depth: nat, ar: map<FName, nat>, locals: nat, ncaps: nat) {
    forall i: nat :: Free(c, i) ==> BodyOk(RebindVar(view, i, depth), ar, locals, ncaps) == true
  }

  lemma VarOkUnderBinders(view: View, i: nat, depth: nat, m: nat, ar: map<FName, nat>, locals: nat, ncaps: nat)
    requires BodyOk(RebindVar(view, i, depth), ar, locals, ncaps)
    ensures BodyOk(RebindVar(view, i + m, depth + m), ar, locals + m, ncaps)
  {}

  lemma ScopeOkBinders(c: Cir, b: Cir, m: nat, view: View, depth: nat, ar: map<FName, nat>, locals: nat, ncaps: nat)
    requires ScopeOk(c, view, depth, ar, locals, ncaps)
    requires forall i: nat :: Free(b, i + m) ==> Free(c, i)
    requires depth < locals || view.EntryView?
    ensures ScopeOk(b, view, depth + m, ar, locals + m, ncaps)
  {
    forall i: nat | Free(b, i) ensures BodyOk(RebindVar(view, i, depth + m), ar, locals + m, ncaps) {
      if i >= m {
        assert Free(b, (i - m) + m);
        VarOkUnderBinders(view, i - m, depth, m, ar, locals, ncaps);
      }
    }
  }

  ghost predicate ConvOk(c: Cir, n: nat, view: View, depth: nat, ar: map<FName, nat>, locals: nat, ncaps: nat) {
    FuncsOk(Go(c, n).funcs, ar) && BodyOk(Rebind(view, Go(c, n).term, depth), ar, locals, ncaps) == true
  }

  lemma {:induction false} ConvertedOk(
    c: Cir, n: nat, view: View, depth: nat, ar: map<FName, nat>, locals: nat, ncaps: nat)
    requires IsSource(c) && Arities(c, n, ar)
    requires ScopeOk(c, view, depth, ar, locals, ncaps)
    requires depth < locals || view.EntryView?
    ensures ConvOk(c, n, view, depth, ar, locals, ncaps)
    decreases c, 1
  {
    hide ScopeOk, RebindVar, Free, GoSeq, GoArms;
    match c
    case Var(i) => VarScope(c, view, depth, ar, locals, ncaps);
    case Erased =>
    case Lam(b) => LamOk(c, n, view, depth, ar, locals, ncaps);
    case Fix(b) => FixOk(c, n, view, depth, ar, locals, ncaps);
    case App(f, a) =>
      SubScopes(c, view, depth, ar, locals, ncaps);
      ConvertedOk(f, n, view, depth, ar, locals, ncaps);
      ConvertedOk(a, Go(f, n).next, view, depth, ar, locals, ncaps);
    case Let(v, b) =>
      LetScopes(c, view, depth, ar, locals, ncaps);
      ConvertedOk(v, n, view, depth, ar, locals, ncaps);
      ConvertedOk(b, Go(v, n).next, view, depth + 1, ar, locals + 1, ncaps);
    case Case(s, arms) => CaseOk(c, n, view, depth, ar, locals, ncaps);
    case IfZero(s, t, e) =>
      SubScopes(c, view, depth, ar, locals, ncaps);
      var m := Go(s, n).next;
      ConvertedOk(s, n, view, depth, ar, locals, ncaps);
      ConvertedOk(t, m, view, depth, ar, locals, ncaps);
      ConvertedOk(e, Go(t, m).next, view, depth, ar, locals, ncaps);
    case Prim(_, args) => PrimOk(c, n, view, depth, ar, locals, ncaps);
  }

  lemma LetScopes(c: Cir, view: View, depth: nat, ar: map<FName, nat>, locals: nat, ncaps: nat)
    requires c.Let? && ScopeOk(c, view, depth, ar, locals, ncaps)
    requires depth < locals || view.EntryView?
    ensures ScopeOk(c.v, view, depth, ar, locals, ncaps) && ScopeOk(c.b, view, depth + 1, ar, locals + 1, ncaps)
  {
    SubScopes(c, view, depth, ar, locals, ncaps);
    ScopeOkBinders(c, c.b, 1, view, depth, ar, locals, ncaps);
  }

  lemma VarScope(c: Cir, view: View, depth: nat, ar: map<FName, nat>, locals: nat, ncaps: nat)
    requires c.Var? && ScopeOk(c, view, depth, ar, locals, ncaps)
    ensures BodyOk(RebindVar(view, c.i, depth), ar, locals, ncaps)
  {
    assert Free(c, c.i);
  }

  /** The subterms that are not under a binder are in scope too. */
  lemma SubScopes(c: Cir, view: View, depth: nat, ar: map<FName, nat>, locals: nat, ncaps: nat)
    requires ScopeOk(c, view, depth, ar, locals, ncaps)
    ensures c.App? ==> ScopeOk(c.f, view, depth, ar, locals, ncaps) && ScopeOk(c.a, view, depth, ar, locals, ncaps)
    ensures c.Let? ==> ScopeOk(c.v, view, depth, ar, locals, ncaps)
    ensures c.Case? ==> ScopeOk(c.scrut, view, depth, ar, locals, ncaps)
    ensures c.IfZero? ==> ScopeOk(c.scrut, view, depth, ar, locals, ncaps)
    ensures c.IfZero? ==> ScopeOk(c.then_, view, depth, ar, locals, ncaps)
    ensures c.IfZero? ==> ScopeOk(c.else_, view, depth, ar, locals, ncaps)
    ensures c.Prim? ==> forall k :: 0 <= k < |c.args| ==> ScopeOk(c.args[k], view, depth, ar, locals, ncaps)
  {
    hide BodyOk, RebindVar;
  }

  lemma CapturesOk(c: Cir, fvs: seq<nat>, binders: nat, view: View, depth: nat, ar: map<FName, nat>, locals: nat, ncaps: nat)
    requires ScopeOk(c, view, depth, ar, locals, ncaps)
    requires forall k :: 0 <= k < |fvs| ==> fvs[k] >= binders && Free(c, fvs[k] - binders)
    ensures forall k :: 0 <= k < |fvs| ==>
      BodyOk(RebindSeq(view, Captures(fvs, binders), depth)[k], ar, locals, ncaps)
  {}

  lemma {:induction false} LamOk(
    c: Cir, n: nat, view: View, depth: nat, ar: map<FName, nat>, locals: nat, ncaps: nat)
    requires c.Lam? && IsSource(c) && Arities(c, n, ar)
    requires ScopeOk(c, view, depth, ar, locals, ncaps)
    ensures ConvOk(c, n, view, depth, ar, locals, ncaps)
    decreases c, 0
  {
    hide RebindVar, FuncsOk;
    var b, fvs := c.body, FreeVars(c.body, 1);
    LamScope(c, ar);
    ConvertedOk(b, n, LamView(fvs), 0, ar, 1, |fvs|);
    forall k | 0 <= k < |fvs| ensures Free(c, fvs[k] - 1) { LamFreeVars(c, k); }
    CapturesOk(c, fvs, 1, view, depth, ar, locals, ncaps);
    assert Go(c, n) == Lift(b, false, "lam", n);
    FuncsOkAppend(Go(b, n).funcs, Func(FName("lam", Go(b, n).next), false, Rebind(LamView(fvs), Go(b, n).term, 0)), ar);
    assert Rebind(view, Go(c, n).term, depth).caps == RebindSeq(view, Captures(fvs, 1), depth);
  }

  lemma FuncsOkAppend(fs: seq<Func>, f: Func, ar: map<FName, nat>)
    requires FuncsOk(fs, ar) && f.name in ar && BodyOk(f.body, ar, 1, ar[f.name])
    ensures FuncsOk(fs + [f], ar)
  {
    hide BodyOk;
  }

  lemma LamScope(c: Cir, ar: map<FName, nat>)
    requires c.Lam?
    ensures ScopeOk(c.body, LamView(FreeVars(c.body, 1)), 0, ar, 1, |FreeVars(c.body, 1)|)
  {
    forall i: nat | Free(c.body, i)
      ensures BodyOk(RebindVar(LamView(FreeVars(c.body, 1)), i, 0), ar, 1, |FreeVars(c.body, 1)|)
    {
      if i >= 1 { FreeOfBody(c.body, 1, i); }
    }
  }

  lemma FixScope(c: Cir, name: FName, ar: map<FName, nat>)
    requires c.Fix? && c.body.Lam? && HasArity(ar, name, |FreeVars(c.body.body, 2)|)
    ensures ScopeOk(c.body.body, RecView(FreeVars(c.body.body, 2), name), 0, ar, 1, |FreeVars(c.body.body, 2)|)
  {
    var b, fvs := c.body.body, FreeVars(c.body.body, 2);
    forall i: nat | Free(b, i) ensures BodyOk(RebindVar(RecView(fvs, name), i, 0), ar, 1, |fvs|) {
      if i >= 2 { FreeOfBody(b, 2, i); }
    }
  }

  lemma {:induction false} FixOk(
    c: Cir, n: nat, view: View, depth: nat, ar: map<FName, nat>, locals: nat, ncaps: nat)
    requires c.Fix? && IsSource(c) && Arities(c, n, ar)
    requires ScopeOk(c, view, depth, ar, locals, ncaps)
    ensures ConvOk(c, n, view, depth, ar, locals, ncaps)
    decreases c, 0
  {
    hide RebindVar, FuncsOk;
    var b, fvs, name := c.body.body, FreeVars(c.body.body, 2), FName("rec", n);
    FixScope(c, name, ar);
    ConvertedOk(b, n + 1, RecView(fvs, name), 0, ar, 1, |fvs|);
    forall k | 0 <= k < |fvs| ensures Free(c, fvs[k] - 2) { FixFreeVars(c, k); }
    CapturesOk(c, fvs, 2, view, depth, ar, locals, ncaps);
    assert Go(c, n) == LiftRec(b, n);
    FuncsOkAppend(Go(b, n + 1).funcs, Func(name, true, Rebind(RecView(fvs, name), Go(b, n + 1).term, 0)), ar);
    assert Rebind(view, Go(c, n).term, depth).caps == RebindSeq(view, Captures(fvs, 2), depth);
  }

  lemma {:induction false} PrimOk(
    c: Cir, n: nat, view: View, depth: nat, ar: map<FName, nat>, locals: nat, ncaps: nat)
    requires c.Prim? && IsSource(c) && Arities(c, n, ar)
    requires ScopeOk(c, view, depth, ar, locals, ncaps)
    requires depth < locals || view.EntryView?
    ensures ConvOk(c, n, view, depth, ar, locals, ncaps)
    decreases c, 0
  {
    SubScopes(c, view, depth, ar, locals, ncaps);
    SeqOk(c.args, n, view, depth, ar, locals, ncaps);
    assert Rebind(view, Go(c, n).term, depth).args == RebindSeq(view, GoSeq(c.args, n).terms, depth);
  }

  lemma {:induction false} SeqOk(
    args: seq<Cir>, n: nat, view: View, depth: nat, ar: map<FName, nat>, locals: nat, ncaps: nat)
    requires forall k :: 0 <= k < |args| ==> IsSource(args[k]) && ScopeOk(args[k], view, depth, ar, locals, ncaps)
    requires forall k :: 0 <= k < |args| ==> Arities(args[k], ArgStart(args, n, k), ar)
    requires depth < locals || view.EntryView?
    ensures FuncsOk(GoSeq(args, n).funcs, ar)
    ensures forall k :: 0 <= k < |args| ==> BodyOk(RebindSeq(view, GoSeq(args, n).terms, depth)[k], ar, locals, ncaps)
    decreases args, 0
  {
    hide ScopeOk, BodyOk, IsSource, Arities, Go, Rebind;
    if args != [] {
      var m := |args| - 1;
      var front := args[..m];
      assert forall k :: 0 <= k < m ==> front[..k] == args[..k] && front[k] == args[k];
      assert forall k :: 0 <= k < m ==> ArgStart(front, n, k) == ArgStart(args, n, k);
      SeqOk(front, n, view, depth, ar, locals, ncaps);
      ConvertedOk(args[m], GoSeq(front, n).next, view, depth, ar, locals, ncaps);
      SeqTerms(args, n, view, depth);
    }
  }

  lemma SeqTerms(args: seq<Cir>, n: nat, view: View, depth: nat)
    requires args != []
    ensures var m := |args| - 1;
      && RebindSeq(view, GoSeq(args, n).terms, depth)
        == RebindSeq(view, GoSeq(args[..m], n).terms, depth) + [Rebind(view, Go(args[m], GoSeq(args[..m], n).next).term, depth)]
      && GoSeq(args, n).funcs == GoSeq(args[..m], n).funcs + Go(args[m], GoSeq(args[..m], n).next).funcs
  {}

  lemma {:induction false} CaseOk(
    c: Cir, n: nat, view: View, depth: nat, ar: map<FName, nat>, locals: nat, ncaps: nat)
    requires c.Case? && IsSource(c) && Arities(c, n, ar)
    requires ScopeOk(c, view, depth, ar, locals, ncaps)
    requires depth < locals || view.EntryView?
    ensures ConvOk(c, n, view, depth, ar, locals, ncaps)
    decreases c, 0
  {
    hide ScopeOk, BodyOk, IsSource, Go;
    SubScopes(c, view, depth, ar, locals, ncaps);
    var m := Go(c.scrut, n).next;
    CaseParts(c, n, ar);
    ConvertedOk(c.scrut, n, view, depth, ar, locals, ncaps);
    forall k | 0 <= k < |c.arms|
      ensures ConvOk(c.arms[k].body, ArmStart(c.arms, m, k), view, depth + c.arms[k].binders, ar, locals + c.arms[k].binders, ncaps)
    {
      forall i: nat | Free(c.arms[k].body, i + c.arms[k].binders) ensures Free(c, i) { FreeUnderArm(c, k, i); }
      ScopeOkBinders(c, c.arms[k].body, c.arms[k].binders, view, depth, ar, locals, ncaps);
      ConvertedOk(c.arms[k].body, ArmStart(c.arms, m, k), view, depth + c.arms[k].binders, ar, locals + c.arms[k].binders, ncaps);
    }
    CaseOkFromArms(c, n, view, depth, ar, locals, ncaps);
  }

  lemma CaseParts(c: Cir, n: nat, ar: map<FName, nat>)
    requires c.Case? && IsSource(c) && Arities(c, n, ar)
    ensures IsSource(c.scrut) && Arities(c.scrut, n, ar)
    ensures forall k :: 0 <= k < |c.arms| ==>
      IsSource(c.arms[k].body) && Arities(c.arms[k].body, ArmStart(c.arms, Go(c.scrut, n).next, k), ar)
  {
    hide Go;
  }

  lemma CaseOkFromArms(c: Cir, n: nat, view: View, depth: nat, ar: map<FName, nat>, locals: nat, ncaps: nat)
    requires c.Case?
    requires ConvOk(c.scrut, n, view, depth, ar, locals, ncaps)
    requires forall k :: 0 <= k < |c.arms| ==>
      ConvOk(c.arms[k].body, ArmStart(c.arms, Go(c.scrut, n).next, k), view, depth + c.arms[k].binders,
             ar, locals + c.arms[k].binders, ncaps)
    ensures ConvOk(c, n, view, depth, ar, locals, ncaps)
  {
    hide Go, GoArms, Rebind, IsSource, FuncsOk, BodyOk;
    CaseFuncsOk(c, n, ar);
    CaseBodiesOk(c, n, view, depth, ar, locals, ncaps);
  }

  lemma CaseBodiesOk(c: Cir, n: nat, view: View, depth: nat, ar: map<FName, nat>, locals: nat, ncaps: nat)
    requires c.Case?
    requires BodyOk(Rebind(view, Go(c.scrut, n).term, depth), ar, locals, ncaps) == true
    requires forall k :: 0 <= k < |c.arms| ==>
      ConvOk(c.arms[k].body, ArmStart(c.arms, Go(c.scrut, n).next, k), view, depth + c.arms[k].binders,
             ar, locals + c.arms[k].binders, ncaps)
    ensures BodyOk(Rebind(view, Go(c, n).term, depth), ar, locals, ncaps) == true
  {
    hide Go, GoArms, Rebind, IsSource, FuncsOk, BodyOk, ConvOk;
    CaseArm0(c, n, view, depth);
    var r := Rebind(view, Go(c, n).term, depth);
    forall k | 0 <= k < |c.arms|
      ensures BodyOk(r.arms[k].body, ar, locals + r.arms[k].binders, ncaps) == true
    {
      ArmBodyOk(c, n, view, depth, ar, locals, ncaps, k);
    }
    CaseBodyOk(r, ar, locals, ncaps);
  }

  lemma CaseArm0(c: Cir, n: nat, view: View, depth: nat)
    requires c.Case?
    ensures var r := Rebind(view, Go(c, n).term, depth);
      r.Case? && r.scrut == Rebind(view, Go(c.scrut, n).term, depth) && |r.arms| == |c.arms|
  {}

  lemma ArmBodyOk(c: Cir, n: nat, view: View, depth: nat, ar: map<FName, nat>, locals: nat, ncaps: nat, k: nat)
    requires c.Case? && k < |c.arms|
    requires ConvOk(c.arms[k].body, ArmStart(c.arms, Go(c.scrut, n).next, k), view, depth + c.arms[k].binders,
                    ar, locals + c.arms[k].binders, ncaps)
    ensures Rebind(view, Go(c, n).term, depth).Case? && |Rebind(view, Go(c, n).term, depth).arms| == |c.arms|
    ensures var arm := Rebind(view, Go(c, n).term, depth).arms[k];
      BodyOk(arm.body, ar, locals + arm.binders, ncaps) == true
  {
    hide Go, GoArms, Rebind, IsSource, FuncsOk, BodyOk;
    CaseArm(Go(c, n).funcs, c, n, view, depth, k);
  }

  lemma CaseBodyOk(r: Cir, ar: map<FName, nat>, locals: nat, ncaps: nat)
    requires r.Case? && BodyOk(r.scrut, ar, locals, ncaps) == true
    requires forall k :: 0 <= k < |r.arms| ==> BodyOk(r.arms[k].body, ar, locals + r.arms[k].binders, ncaps) == true
    ensures BodyOk(r, ar, locals, ncaps) == true
  {}

  lemma CaseFuncsOk(c: Cir, n: nat, ar: map<FName, nat>)
    requires c.Case? && FuncsOk(Go(c.scrut, n).funcs, ar)
    requires forall k :: 0 <= k < |c.arms| ==>
      FuncsOk(Go(c.arms[k].body, ArmStart(c.arms, Go(c.scrut, n).next, k)).funcs, ar)
    ensures FuncsOk(Go(c, n).funcs, ar)
  {
    hide BodyOk;
    ArmsFuncsOk(c.arms, Go(c.scrut, n).next, ar);
  }

  lemma {:induction false} ArmsFuncsOk(arms: seq<Arm>, n: nat, ar: map<FName, nat>)
    requires forall k :: 0 <= k < |arms| ==> FuncsOk(Go(arms[k].body, ArmStart(arms, n, k)).funcs, ar)
    ensures FuncsOk(GoArms(arms, n).funcs, ar)
  {
    hide BodyOk;
    if arms != [] {
      var m := |arms| - 1;
      assert forall k :: 0 <= k < m ==> arms[..m][..k] == arms[..k] && arms[..m][k] == arms[k];
      ArmsFuncsOk(arms[..m], n, ar);
    }
  }

  /** A converted program has no lambda left, every body is closed apart from its parameter and its
      captures, and all closures of one function carry equally many captures. */
  lemma ConvertWellFormed(entry: Cir) returns (ar: map<FName, nat>)
    requires IsSource(entry) && forall i: nat :: !Free(entry, i)
    ensures ProgramOk(Convert(entry), ar)
  {
    ar := ArityMap(entry, 0, map[]);
    ConvertedOk(entry, 0, EntryView, 0, ar, 0, 0);
    EntryUnchanged(Go(entry, 0).term, 0);
    ConvertNamesUnique(entry);
  }
}
