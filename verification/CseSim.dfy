/** When two source values are the same up to weakening: the same data, and closures of the same code
    whose variables stand for the same values, wherever those sit in the environment. */
module CseSim {
  import opened Basics
  import opened Values
  import opened CirLang
  import opened CseHoist

  ghost predicate VSim(v: SVal, w: SVal)
    decreases v, 1, 0
  {
    match v
    case Null => w.Null?
    case Scalar(_) => w == v
    case Con(c, xs) => w.Con? && w.con == c && |w.args| == |xs| && forall k :: 0 <= k < |xs| ==> VSim(xs[k], w.args[k])
    case Tuple(xs) => w.Tuple? && |w.fields| == |xs| && forall k :: 0 <= k < |xs| ==> VSim(xs[k], w.fields[k])
    case Clo(code, env) =>
      w.Clo? && w.code.LamCode? == code.LamCode?
      && TermSim(CodeBody(code), CodeBody(w.code), Params(code), env, w.env)
  }

  function CodeBody(code: SCode): Cir {
    match code case LamCode(b) => b case RecCode(b) => b
  }

  /** A recursive function binds itself beside its parameter. */
  function Params(code: SCode): nat {
    if code.LamCode? then 1 else 2
  }

  /** Terms of one shape, whose free variables (those beyond the innermost `d`) stand for the same values. */
  ghost predicate TermSim(c: Cir, c': Cir, d: nat, env: seq<SVal>, env': seq<SVal>)
    decreases env, 0, c
  {
    match c
    case Var(i) =>
      c'.Var? && (if i < d then c'.i == i
                  else c'.i >= d
                       && (i - d < |env| <==> c'.i - d < |env'|)
                       && (i - d < |env| ==> VSim(env[i - d], env'[c'.i - d])))
    case EnvRef(_) => c' == c
    case Global(_) => c' == c
    case Erased => c' == c
    case Lam(b) => c'.Lam? && TermSim(b, c'.body, d + 1, env, env')
    case Fix(b) => c'.Fix? && TermSim(b, c'.body, d + 1, env, env')
    case App(f, a) => c'.App? && TermSim(f, c'.f, d, env, env') && TermSim(a, c'.a, d, env, env')
    case CallClosure(f, a) => c'.CallClosure? && TermSim(f, c'.f, d, env, env') && TermSim(a, c'.a, d, env, env')
    case Let(v, b) => c'.Let? && TermSim(v, c'.v, d, env, env') && TermSim(b, c'.b, d + 1, env, env')
    case Case(s, arms) =>
      c'.Case? && TermSim(s, c'.scrut, d, env, env') && |c'.arms| == |arms|
      && forall k :: 0 <= k < |arms| ==>
           c'.arms[k].con == arms[k].con && c'.arms[k].binders == arms[k].binders
           && TermSim(arms[k].body, c'.arms[k].body, d + arms[k].binders, env, env')
    case IfZero(s, t, e) =>
      c'.IfZero? && TermSim(s, c'.scrut, d, env, env') && TermSim(t, c'.then_, d, env, env')
      && TermSim(e, c'.else_, d, env, env')
    case MkClosure(name, caps) =>
      c'.MkClosure? && c'.name == name && |c'.caps| == |caps|
      && forall k :: 0 <= k < |caps| ==> TermSim(caps[k], c'.caps[k], d, env, env')
    case Prim(op, args) =>
      c'.Prim? && c'.op == op && |c'.args| == |args|
      && forall k :: 0 <= k < |args| ==> TermSim(args[k], c'.args[k], d, env, env')
  }

  ghost predicate AllSim(vs: seq<SVal>, ws: seq<SVal>) {
    |ws| == |vs| && forall k :: 0 <= k < |vs| ==> VSim(vs[k], ws[k])
  }

  /** Outcomes agree: both are values, and the same up to weakening, or neither is. */
  ghost predicate OSim(o: Outcome<SVal>, o': Outcome<SVal>) {
    (o.Done? <==> o'.Done?) && (o.Done? ==> VSim(o.value, o'.value))
  }

  ghost predicate OSimAll(o: Outcome<seq<SVal>>, o': Outcome<seq<SVal>>) {
    (o.Done? <==> o'.Done?) && (o.Done? ==> AllSim(o.value, o'.value))
  }

  // ---- an equivalence ----

  lemma {:induction false} VSimRefl(v: SVal)
    ensures VSim(v, v)
    decreases v, 1, 0
  {
    match v
    case Null =>
    case Scalar(_) =>
    case Con(_, xs) => forall k | 0 <= k < |xs| ensures VSim(xs[k], xs[k]) { VSimRefl(xs[k]); }
    case Tuple(xs) => forall k | 0 <= k < |xs| ensures VSim(xs[k], xs[k]) { VSimRefl(xs[k]); }
    case Clo(code, env) => TermSimRefl(CodeBody(code), Params(code), env);
  }

  lemma {:induction false} TermSimRefl(c: Cir, d: nat, env: seq<SVal>)
    ensures TermSim(c, c, d, env, env)
    decreases env, 0, c
  {
    hide VSim;
    match c
    case Var(i) => if i >= d && i - d < |env| { VSimRefl(env[i - d]); }
    case Lam(b) => TermSimRefl(b, d + 1, env);
    case Fix(b) => TermSimRefl(b, d + 1, env);
    case App(f, a) => TermSimRefl(f, d, env); TermSimRefl(a, d, env);
    case CallClosure(f, a) => TermSimRefl(f, d, env); TermSimRefl(a, d, env);
    case Let(v, b) => TermSimRefl(v, d, env); TermSimRefl(b, d + 1, env);
    case Case(s, arms) =>
      TermSimRefl(s, d, env);
      forall k | 0 <= k < |arms| ensures TermSim(arms[k].body, arms[k].body, d + arms[k].binders, env, env) {
        TermSimRefl(arms[k].body, d + arms[k].binders, env);
      }
    case IfZero(s, t, e) => TermSimRefl(s, d, env); TermSimRefl(t, d, env); TermSimRefl(e, d, env);
    case MkClosure(_, caps) =>
      forall k | 0 <= k < |caps| ensures TermSim(caps[k], caps[k], d, env, env) { TermSimRefl(caps[k], d, env); }
    case Prim(_, args) =>
      forall k | 0 <= k < |args| ensures TermSim(args[k], args[k], d, env, env) { TermSimRefl(args[k], d, env); }
    case _ =>
  }

  lemma {:induction false} VSimTrans(u: SVal, v: SVal, w: SVal)
    requires VSim(u, v) && VSim(v, w)
    ensures VSim(u, w)
    decreases u, 1, 0
  {
    match u
    case Null =>
    case Scalar(_) =>
    case Con(_, xs) =>
      forall k | 0 <= k < |xs| ensures VSim(xs[k], w.args[k]) { VSimTrans(xs[k], v.args[k], w.args[k]); }
    case Tuple(xs) =>
      forall k | 0 <= k < |xs| ensures VSim(xs[k], w.fields[k]) { VSimTrans(xs[k], v.fields[k], w.fields[k]); }
    case Clo(code, env) =>
      TermSimTrans(CodeBody(code), CodeBody(v.code), CodeBody(w.code), Params(code), env, v.env, w.env);
  }

  lemma {:induction false} TermSimTrans(a: Cir, b: Cir, c: Cir, d: nat, ea: seq<SVal>, eb: seq<SVal>, ec: seq<SVal>)
    requires TermSim(a, b, d, ea, eb) && TermSim(b, c, d, eb, ec)
    ensures TermSim(a, c, d, ea, ec)
    decreases ea, 0, a
  {
    hide TermSim;
    match a
    case Lam(_) => BodySimTrans(a, b, c, d, ea, eb, ec);
    case Fix(_) => BodySimTrans(a, b, c, d, ea, eb, ec);
    case Let(_, _) => BodySimTrans(a, b, c, d, ea, eb, ec);
    case App(_, _) => PairSimTrans(a, b, c, d, ea, eb, ec);
    case CallClosure(_, _) => PairSimTrans(a, b, c, d, ea, eb, ec);
    case Case(_, _) => BranchSimTrans(a, b, c, d, ea, eb, ec);
    case IfZero(_, _, _) => BranchSimTrans(a, b, c, d, ea, eb, ec);
    case MkClosure(_, _) => ManySimTrans(a, b, c, d, ea, eb, ec);
    case Prim(_, _) => ManySimTrans(a, b, c, d, ea, eb, ec);
    case _ => LeafSimTrans(a, b, c, d, ea, eb, ec);
  }

  lemma {:induction false} LeafSimTrans(a: Cir, b: Cir, c: Cir, d: nat, ea: seq<SVal>, eb: seq<SVal>, ec: seq<SVal>)
    requires a.Var? || a.EnvRef? || a.Global? || a.Erased?
    requires TermSim(a, b, d, ea, eb) && TermSim(b, c, d, eb, ec)
    ensures TermSim(a, c, d, ea, ec)
    decreases ea, 0, a, 0
  {
    hide VSim;
    if a.Var? && a.i >= d && a.i - d < |ea| { VSimTrans(ea[a.i - d], eb[b.i - d], ec[c.i - d]); }
  }

  lemma {:induction false} BodySimTrans(a: Cir, b: Cir, c: Cir, d: nat, ea: seq<SVal>, eb: seq<SVal>, ec: seq<SVal>)
    requires a.Lam? || a.Fix? || a.Let?
    requires TermSim(a, b, d, ea, eb) && TermSim(b, c, d, eb, ec)
    ensures TermSim(a, c, d, ea, ec)
    decreases ea, 0, a, 0
  {
    hide VSim;
    if a.Let? {
      TermSimTrans(a.v, b.v, c.v, d, ea, eb, ec);
      TermSimTrans(a.b, b.b, c.b, d + 1, ea, eb, ec);
    } else {
      TermSimTrans(a.body, b.body, c.body, d + 1, ea, eb, ec);
    }
  }

  lemma {:induction false} PairSimTrans(a: Cir, b: Cir, c: Cir, d: nat, ea: seq<SVal>, eb: seq<SVal>, ec: seq<SVal>)
    requires a.App? || a.CallClosure?
    requires TermSim(a, b, d, ea, eb) && TermSim(b, c, d, eb, ec)
    ensures TermSim(a, c, d, ea, ec)
    decreases ea, 0, a, 0
  {
    hide VSim;
    TermSimTrans(a.f, b.f, c.f, d, ea, eb, ec);
    TermSimTrans(a.a, b.a, c.a, d, ea, eb, ec);
  }

  lemma {:induction false} BranchSimTrans(a: Cir, b: Cir, c: Cir, d: nat, ea: seq<SVal>, eb: seq<SVal>, ec: seq<SVal>)
    requires a.Case? || a.IfZero?
    requires TermSim(a, b, d, ea, eb) && TermSim(b, c, d, eb, ec)
    ensures TermSim(a, c, d, ea, ec)
    decreases ea, 0, a, 0
  {
    hide VSim;
    TermSimTrans(a.scrut, b.scrut, c.scrut, d, ea, eb, ec);
    if a.Case? {
      ArmsSimTrans(a.arms, b.arms, c.arms, d, ea, eb, ec);
    } else {
      TermSimTrans(a.then_, b.then_, c.then_, d, ea, eb, ec);
      TermSimTrans(a.else_, b.else_, c.else_, d, ea, eb, ec);
    }
  }

  lemma {:induction false} ManySimTrans(a: Cir, b: Cir, c: Cir, d: nat, ea: seq<SVal>, eb: seq<SVal>, ec: seq<SVal>)
    requires a.MkClosure? || a.Prim?
    requires TermSim(a, b, d, ea, eb) && TermSim(b, c, d, eb, ec)
    ensures TermSim(a, c, d, ea, ec)
    decreases ea, 0, a, 0
  {
    hide VSim;
    if a.Prim? {
      TermsSimTrans(a.args, b.args, c.args, d, ea, eb, ec);
    } else {
      TermsSimTrans(a.caps, b.caps, c.caps, d, ea, eb, ec);
    }
  }

  lemma {:induction false} TermsSimTrans(
    a: seq<Cir>, b: seq<Cir>, c: seq<Cir>, d: nat, ea: seq<SVal>, eb: seq<SVal>, ec: seq<SVal>)
    requires |a| == |b| == |c|
    requires forall k :: 0 <= k < |a| ==> TermSim(a[k], b[k], d, ea, eb) == true
    requires forall k :: 0 <= k < |b| ==> TermSim(b[k], c[k], d, eb, ec) == true
    ensures forall k :: 0 <= k < |a| ==> TermSim(a[k], c[k], d, ea, ec)
    decreases ea, 0, a
  {
    hide TermSim;
    forall k | 0 <= k < |a| ensures TermSim(a[k], c[k], d, ea, ec) {
      TermSimTrans(a[k], b[k], c[k], d, ea, eb, ec);
    }
  }

  lemma {:induction false} ArmsSimTrans(
    a: seq<Arm>, b: seq<Arm>, c: seq<Arm>, d: nat, ea: seq<SVal>, eb: seq<SVal>, ec: seq<SVal>)
    requires |a| == |b| == |c|
    requires forall k :: 0 <= k < |a| ==>
      b[k].binders == a[k].binders && TermSim(a[k].body, b[k].body, d + a[k].binders, ea, eb) == true
    requires forall k :: 0 <= k < |b| ==> TermSim(b[k].body, c[k].body, d + b[k].binders, eb, ec) == true
    ensures forall k :: 0 <= k < |a| ==> TermSim(a[k].body, c[k].body, d + a[k].binders, ea, ec)
    decreases ea, 0, a
  {
    hide TermSim;
    forall k | 0 <= k < |a| ensures TermSim(a[k].body, c[k].body, d + a[k].binders, ea, ec) {
      TermSimTrans(a[k].body, b[k].body, c[k].body, d + a[k].binders, ea, eb, ec);
    }
  }

  lemma OSimTrans(o: Outcome<SVal>, p: Outcome<SVal>, q: Outcome<SVal>)
    requires OSim(o, p) && OSim(p, q)
    ensures OSim(o, q)
  {
    hide VSim;
    if o.Done? { VSimTrans(o.value, p.value, q.value); }
  }

  // ---- binding more variables ----

  /** Bound variables, given the same values, become variables of the environment. */
  lemma {:induction false} Plug(c: Cir, c': Cir, d: nat, xs: seq<SVal>, xs': seq<SVal>, env: seq<SVal>, env': seq<SVal>)
    requires AllSim(xs, xs') && TermSim(c, c', d + |xs|, env, env')
    ensures TermSim(c, c', d, xs + env, xs' + env')
    decreases c
  {
    hide VSim;
    match c
    case Var(i) =>
      if i >= d && i - d < |xs| {
        assert VSim(xs[i - d], xs'[i - d]);
      } else if i >= d + |xs| {
        assert i - d < |xs + env| ==> (xs + env)[i - d] == env[i - d - |xs|];
        assert c'.i - d < |xs' + env'| ==> (xs' + env')[c'.i - d] == env'[c'.i - d - |xs|];
      }
    case Lam(b) => Plug(b, c'.body, d + 1, xs, xs', env, env');
    case Fix(b) => Plug(b, c'.body, d + 1, xs, xs', env, env');
    case App(f, a) =>
      Plug(f, c'.f, d, xs, xs', env, env');
      Plug(a, c'.a, d, xs, xs', env, env');
    case CallClosure(f, a) =>
      Plug(f, c'.f, d, xs, xs', env, env');
      Plug(a, c'.a, d, xs, xs', env, env');
    case Let(v, b) =>
      Plug(v, c'.v, d, xs, xs', env, env');
      Plug(b, c'.b, d + 1, xs, xs', env, env');
    case Case(s, arms) =>
      Plug(s, c'.scrut, d, xs, xs', env, env');
      forall k | 0 <= k < |arms|
        ensures TermSim(arms[k].body, c'.arms[k].body, d + arms[k].binders, xs + env, xs' + env')
      {
        Plug(arms[k].body, c'.arms[k].body, d + arms[k].binders, xs, xs', env, env');
      }
    case IfZero(s, t, e) =>
      Plug(s, c'.scrut, d, xs, xs', env, env');
      Plug(t, c'.then_, d, xs, xs', env, env');
      Plug(e, c'.else_, d, xs, xs', env, env');
    case MkClosure(_, caps) =>
      forall k | 0 <= k < |caps| ensures TermSim(caps[k], c'.caps[k], d, xs + env, xs' + env') {
        Plug(caps[k], c'.caps[k], d, xs, xs', env, env');
      }
    case Prim(_, args) =>
      forall k | 0 <= k < |args| ensures TermSim(args[k], c'.args[k], d, xs + env, xs' + env') {
        Plug(args[k], c'.args[k], d, xs, xs', env, env');
      }
    case _ =>
  }

  /** A term and its renumbering under more binders. */
  lemma {:induction false} ShiftSim(c: Cir, more: seq<SVal>, d: nat, env: seq<SVal>)
    ensures TermSim(c, ShiftFree(c, |more|, d), d, env, more + env)
    decreases c
  {
    hide VSim;
    match c
    case Var(i) => if i >= d && i - d < |env| { VSimRefl(env[i - d]); }
    case Lam(b) => ShiftSim(b, more, d + 1, env);
    case Fix(b) => ShiftSim(b, more, d + 1, env);
    case App(f, a) => ShiftSim(f, more, d, env); ShiftSim(a, more, d, env);
    case CallClosure(f, a) => ShiftSim(f, more, d, env); ShiftSim(a, more, d, env);
    case Let(v, b) => ShiftSim(v, more, d, env); ShiftSim(b, more, d + 1, env);
    case Case(s, arms) =>
      ShiftSim(s, more, d, env);
      forall k | 0 <= k < |arms|
        ensures TermSim(arms[k].body, ShiftFree(arms[k].body, |more|, d + arms[k].binders), d + arms[k].binders, env, more + env)
      {
        ShiftSim(arms[k].body, more, d + arms[k].binders, env);
      }
    case IfZero(s, t, e) => ShiftSim(s, more, d, env); ShiftSim(t, more, d, env); ShiftSim(e, more, d, env);
    case MkClosure(_, caps) =>
      forall k | 0 <= k < |caps| ensures TermSim(caps[k], ShiftFree(caps[k], |more|, d), d, env, more + env) {
        ShiftSim(caps[k], more, d, env);
      }
    case Prim(_, args) =>
      forall k | 0 <= k < |args| ensures TermSim(args[k], ShiftFree(args[k], |more|, d), d, env, more + env) {
        ShiftSim(args[k], more, d, env);
      }
    case _ =>
  }
}
