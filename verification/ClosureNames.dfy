/** What a converted program refers to: only the functions lifted from it, and no bare global. */
module ClosureNames {
  import opened Basics
  import opened Values
  import opened CirLang
  import opened Closure

  function NamesOf(funcs: seq<Func>): set<FName> {
    set f | f in funcs :: f.name
  }

  /** Every closure in `c` is of a known function, and no global is used as a value. */
  predicate Refers(c: Cir, known: set<FName>) {
    match c
    case Global(_) => false
    case Lam(b) => Refers(b, known)
    case Fix(b) => Refers(b, known)
    case App(f, a) => Refers(f, known) && Refers(a, known)
    case CallClosure(f, a) => Refers(f, known) && Refers(a, known)
    case Let(v, b) => Refers(v, known) && Refers(b, known)
    case Case(s, arms) => Refers(s, known) && forall k :: 0 <= k < |arms| ==> Refers(arms[k].body, known)
    case IfZero(s, t, e) => Refers(s, known) && Refers(t, known) && Refers(e, known)
    case MkClosure(name, caps) => name in known && forall k :: 0 <= k < |caps| ==> Refers(caps[k], known)
    case Prim(_, args) => forall k :: 0 <= k < |args| ==> Refers(args[k], known)
    case _ => true
  }

  predicate AllRefer(funcs: seq<Func>, known: set<FName>) {
    forall k :: 0 <= k < |funcs| ==> Refers(funcs[k].body, known) == true
  }

  predicate ViewRefers(view: View, known: set<FName>) {
    view.RecView? ==> view.name in known
  }

  lemma VarRefers(view: View, i: nat, depth: nat, known: set<FName>)
    requires ViewRefers(view, known)
    ensures Refers(RebindVar(view, i, depth), known)
  {}

  lemma {:induction false} RebindRefers(view: View, c: Cir, depth: nat, known: set<FName>)
    requires Refers(c, known) && ViewRefers(view, known)
    ensures Refers(Rebind(view, c, depth), known)
    decreases c
  {
    hide RebindVar;
    match c
    case Var(i) => VarRefers(view, i, depth, known);
    case Lam(b) => RebindRefers(view, b, depth + 1, known);
    case Fix(b) => RebindRefers(view, b, depth + 1, known);
    case App(f, a) => RebindRefers(view, f, depth, known); RebindRefers(view, a, depth, known);
    case CallClosure(f, a) => RebindRefers(view, f, depth, known); RebindRefers(view, a, depth, known);
    case Let(v, b) => RebindRefers(view, v, depth, known); RebindRefers(view, b, depth + 1, known);
    case Case(s, arms) =>
      RebindRefers(view, s, depth, known);
      forall k | 0 <= k < |arms| ensures Refers(Rebind(view, arms[k].body, depth + arms[k].binders), known) {
        RebindRefers(view, arms[k].body, depth + arms[k].binders, known);
      }
    case IfZero(s, t, e) =>
      RebindRefers(view, s, depth, known);
      RebindRefers(view, t, depth, known);
      RebindRefers(view, e, depth, known);
    case MkClosure(_, caps) =>
      forall k | 0 <= k < |caps| ensures Refers(Rebind(view, caps[k], depth), known) {
        RebindRefers(view, caps[k], depth, known);
      }
    case Prim(_, args) =>
      forall k | 0 <= k < |args| ensures Refers(Rebind(view, args[k], depth), known) {
        RebindRefers(view, args[k], depth, known);
      }
    case _ =>
  }

  /** A converted term and the functions lifted from it. */
  ghost predicate ConvRefers(r: Conv, known: set<FName>) {
    NamesOf(r.funcs) <= known ==> Refers(r.term, known) == true && AllRefer(r.funcs, known)
  }

  lemma {:induction false} GoRefers(c: Cir, n: nat, known: set<FName>)
    requires IsSource(c)
    ensures ConvRefers(Go(c, n), known)
    decreases c, 1
  {
    hide Rebind;
    match c
    case Var(_) =>
    case Erased =>
    case Lam(b) => LamRefers(b, n, known);
    case Fix(b) => RecRefers(b.body, n, known);
    case App(f, a) =>
      GoRefers(f, n, known);
      GoRefers(a, Go(f, n).next, known);
    case Let(v, b) =>
      GoRefers(v, n, known);
      GoRefers(b, Go(v, n).next, known);
    case Case(s, arms) =>
      GoRefers(s, n, known);
      ArmsRefer(arms, Go(s, n).next, known);
    case IfZero(s, t, e) =>
      GoRefers(s, n, known);
      GoRefers(t, Go(s, n).next, known);
      GoRefers(e, Go(t, Go(s, n).next).next, known);
    case Prim(_, args) => SeqRefers(args, n, known);
  }

  lemma LastNamed(front: seq<Func>, last: Func)
    ensures NamesOf(front) <= NamesOf(front + [last]) && last.name in NamesOf(front + [last])
  {
    var all := front + [last];
    assert all[|front|] == last;
    forall f | f in front ensures f.name in NamesOf(all) { assert f in all; }
  }

  lemma CapturesRefer(name: FName, fvs: seq<nat>, binders: nat, known: set<FName>)
    requires name in known && forall k :: 0 <= k < |fvs| ==> fvs[k] >= binders
    ensures Refers(MkClosure(name, Closure.Captures(fvs, binders)), known) == true
  {}

  lemma {:induction false} LamRefers(b: Cir, n: nat, known: set<FName>)
    requires IsSource(b)
    ensures ConvRefers(Lift(b, false, "lam", n), known)
    decreases b, 2
  {
    hide Go, Rebind;
    GoRefers(b, n, known);
    var r, fvs := Lift(b, false, "lam", n), FreeVars(b, 1);
    LastNamed(Go(b, n).funcs, r.funcs[|r.funcs| - 1]);
    if NamesOf(r.funcs) <= known {
      RebindRefers(LamView(fvs), Go(b, n).term, 0, known);
      CapturesRefer(r.term.name, fvs, 1, known);
      assert AllRefer(Go(b, n).funcs, known);
    }
  }

  lemma {:induction false} RecRefers(inner: Cir, n: nat, known: set<FName>)
    requires IsSource(inner)
    ensures ConvRefers(LiftRec(inner, n), known)
    decreases inner, 2
  {
    hide Go, Rebind;
    GoRefers(inner, n + 1, known);
    var r, fvs := LiftRec(inner, n), FreeVars(inner, 2);
    LastNamed(Go(inner, n + 1).funcs, r.funcs[|r.funcs| - 1]);
    if NamesOf(r.funcs) <= known {
      RebindRefers(RecView(fvs, FName("rec", n)), Go(inner, n + 1).term, 0, known);
      CapturesRefer(r.term.name, fvs, 2, known);
      assert AllRefer(Go(inner, n + 1).funcs, known);
    }
  }

  lemma {:induction false} SeqRefers(cs: seq<Cir>, n: nat, known: set<FName>)
    requires forall k :: 0 <= k < |cs| ==> IsSource(cs[k]) == true
    ensures var r := GoSeq(cs, n);
      NamesOf(r.funcs) <= known ==> (forall k :: 0 <= k < |cs| ==> Refers(r.terms[k], known) == true) && AllRefer(r.funcs, known)
    decreases cs, 0
  {
    hide Go, Refers, IsSource;
    if cs != [] {
      SeqRefers(cs[..|cs| - 1], n, known);
      GoRefers(cs[|cs| - 1], GoSeq(cs[..|cs| - 1], n).next, known);
    }
  }

  lemma {:induction false} ArmsRefer(arms: seq<Arm>, n: nat, known: set<FName>)
    requires forall k :: 0 <= k < |arms| ==> IsSource(arms[k].body) == true
    ensures var r := GoArms(arms, n);
      NamesOf(r.funcs) <= known ==> (forall k :: 0 <= k < |arms| ==> Refers(r.arms[k].body, known) == true) && AllRefer(r.funcs, known)
    decreases arms, 0
  {
    hide Go, Refers, IsSource;
    if arms != [] {
      ArmsRefer(arms[..|arms| - 1], n, known);
      GoRefers(arms[|arms| - 1].body, GoArms(arms[..|arms| - 1], n).next, known);
    }
  }

  /** A converted program refers to its own functions only. */
  lemma ConvertRefers(entry: Cir)
    requires IsSource(entry)
    ensures var p := Convert(entry);
      Refers(p.entry, NamesOf(p.funcs)) && AllRefer(p.funcs, NamesOf(p.funcs))
  {
    hide Go, Refers, IsSource;
    GoRefers(entry, 0, NamesOf(Go(entry, 0).funcs));
  }
}
