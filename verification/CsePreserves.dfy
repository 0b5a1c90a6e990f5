/** The whole pass keeps every result: the same first-order values, and closures that are weakenings of
    closures whose bodies the pass has rewritten. */
module CsePreserves {
  import opened Basics
  import opened Values
  import opened CirLang
  import opened CseHoist
  import opened CseSim
  import opened CseProof

  function CseCode(code: SCode): SCode {
    match code case LamCode(b) => LamCode(Cse(b)) case RecCode(b) => RecCode(Cse(b))
  }

  /** The same data; closures with their bodies rewritten. */
  ghost predicate Rewritten(v: SVal, w: SVal) {
    match v
    case Null => w.Null?
    case Scalar(_) => w == v
    case Con(c, xs) =>
      w.Con? && w.con == c && |w.args| == |xs| && forall k :: 0 <= k < |xs| ==> Rewritten(xs[k], w.args[k])
    case Tuple(xs) => w.Tuple? && |w.fields| == |xs| && forall k :: 0 <= k < |xs| ==> Rewritten(xs[k], w.fields[k])
    case Clo(code, env) =>
      w.Clo? && w.code == CseCode(code) && |w.env| == |env| && forall k :: 0 <= k < |env| ==> Rewritten(env[k], w.env[k])
  }

  ghost predicate AllRewritten(vs: seq<SVal>, ws: seq<SVal>) {
    |ws| == |vs| && forall k :: 0 <= k < |vs| ==> Rewritten(vs[k], ws[k])
  }

  /** The result of the rewritten program for a result of the original. */
  ghost predicate Kept(v: SVal, w: SVal) {
    exists u :: VSim(v, u) && Rewritten(u, w)
  }

  ghost predicate AllKept(vs: seq<SVal>, ws: seq<SVal>) {
    exists us :: AllSim(vs, us) && AllRewritten(us, ws)
  }

  ghost predicate OKept(o: Outcome<SVal>, o': Outcome<SVal>) {
    (o.Done? <==> o'.Done?) && (o.Done? ==> Kept(o.value, o'.value))
  }

  ghost predicate OAllKept(o: Outcome<seq<SVal>>, o': Outcome<seq<SVal>>) {
    (o.Done? <==> o'.Done?) && (o.Done? ==> AllKept(o.value, o'.value))
  }

  lemma Keep(v: SVal, w: SVal)
    requires Rewritten(v, w)
    ensures Kept(v, w)
  {
    VSimRefl(v);
  }

  lemma SimThenKept(o: Outcome<SVal>, p: Outcome<SVal>, q: Outcome<SVal>)
    requires OSim(o, p) && OKept(p, q)
    ensures OKept(o, q)
  {
    hide VSim, Rewritten;
    if o.Done? {
      var u :| VSim(p.value, u) && Rewritten(u, q.value);
      VSimTrans(o.value, p.value, u);
    }
  }

  // ---- the pass, constructor by constructor ----

  lemma LamStays(c: Cir)
    requires c.Lam?
    ensures Cse(c) == Lam(Cse(c.body))
  {
    BestIsLargestRepeat(c);
    assert Visits(c) == [];
    assert BestCandidate(c) == None;
  }

  lemma OnlyLam(c: Cir)
    requires !c.Lam?
    ensures !Cse(c).Lam?
  {
    var h := LocalHoist(c);
    assert !h.Lam?;
  }

  // ---- values ----

  lemma SimEnv(c: Cir, xs: seq<SVal>, us: seq<SVal>, env: seq<SVal>, fuel: nat)
    requires AllSim(xs, us)
    ensures OSim(EvalS(c, xs + env, fuel), EvalS(c, us + env, fuel))
  {
    hide VSim, TermSim, EvalS;
    TermSimRefl(c, |xs|, env);
    Plug(c, c, 0, xs, us, env, env);
    EvalSim(c, c, xs + env, us + env, fuel);
  }

  lemma PrimKept(op: PrimOp, o: Outcome<seq<SVal>>, o': Outcome<seq<SVal>>)
    requires OAllKept(o, o')
    ensures OKept(if o.Done? then EvalPrim(op, o.value) else Stuck, if o'.Done? then EvalPrim(op, o'.value) else Stuck)
  {
    hide VSim, Rewritten;
    if o.Done? {
      var us :| AllSim(o.value, us) && AllRewritten(us, o'.value);
      PrimSim(op, o, Done(us));
      PrimRewritten(op, us, o'.value);
      SimThenKept(EvalPrim(op, o.value), EvalPrim(op, us), EvalPrim(op, o'.value));
    }
  }

  lemma PrimRewritten(op: PrimOp, us: seq<SVal>, ws: seq<SVal>)
    requires AllRewritten(us, ws)
    ensures OKept(EvalPrim(op, us), EvalPrim(op, ws))
  {
    hide VSim;
    if op.IntOp? && |us| == 2 { assert Rewritten(us[0], ws[0]) && Rewritten(us[1], ws[1]); }
    if EvalPrim(op, us).Done? { Keep(EvalPrim(op, us).value, EvalPrim(op, ws).value); }
  }

  // ---- main result ----

  /** Similar, then rewritten, function values and arguments give kept results. */
  lemma {:induction false} CallKept(f: SVal, a: SVal, f': SVal, a': SVal, fuel: nat)
    requires Kept(f, f') && Kept(a, a')
    ensures OKept(Call(f, a, fuel + 1), Call(f', a', fuel + 1))
    decreases fuel
  {
    hide VSim, EvalS, Cse, Rewritten;
    var g :| VSim(f, g) && Rewritten(g, f');
    var b :| VSim(a, b) && Rewritten(b, a');
    CallSim(f, a, g, b, fuel);
    CloRewritten(g, f');
    if g.Clo? {
      if g.code.LamCode? {
        CseKept(g.code.body, [b] + g.env, [a'] + f'.env, fuel);
      } else {
        CseKept(g.code.inner, [b, g] + g.env, [a', f'] + f'.env, fuel);
      }
    }
    SimThenKept(Call(f, a, fuel + 1), Call(g, b, fuel + 1), Call(f', a', fuel + 1));
  }

  lemma CloRewritten(g: SVal, f': SVal)
    requires Rewritten(g, f')
    ensures g.Clo? <==> f'.Clo?
    ensures g.Clo? ==> f'.code == CseCode(g.code) && AllRewritten(g.env, f'.env)
  {}

  /** The pass keeps the outcome in every environment. */
  lemma {:induction false} CseKept(c: Cir, env: seq<SVal>, env': seq<SVal>, fuel: nat)
    requires AllRewritten(env, env')
    ensures OKept(EvalS(c, env, fuel), EvalS(Cse(c), env', fuel))
    decreases fuel, Work(c), c, 2
  {
    hide EvalS, Kept, OSim, LocalHoist, AllRewritten;
    LocalHoistSim(c, env, fuel);
    HoistLess(c);
    ChildrenKept(LocalHoist(c), env, env', fuel);
    SimThenKept(EvalS(c, env, fuel), EvalS(LocalHoist(c), env, fuel), EvalS(Cse(c), env', fuel));
  }

  lemma HoistLess(c: Cir)
    ensures LocalHoist(c) != c ==> Work(LocalHoist(c)) < Work(c)
  {}

  lemma {:induction false} ChildrenKept(c: Cir, env: seq<SVal>, env': seq<SVal>, fuel: nat)
    requires AllRewritten(env, env')
    ensures OKept(EvalS(c, env, fuel), EvalS(CseChildren(c), env', fuel))
    decreases fuel, Work(c), c, 1
  {
    hide VSim, Cse, Kept, Rewritten;
    match c
    case Var(i) => if i < |env| { Keep(env[i], env'[i]); }
    case EnvRef(_) =>
    case Global(_) =>
    case Erased => NullKept();
    case Lam(b) => LamKept(b, env, env');
    case Fix(b) => FixKept(b, env, env', fuel);
    case App(f, a) =>
      CseKept(f, env, env', fuel);
      CseKept(a, env, env', fuel);
      var fv, av := EvalS(f, env, fuel), EvalS(a, env, fuel);
      if fv.Done? && av.Done? && fuel > 0 {
        CallKept(fv.value, av.value, EvalS(Cse(f), env', fuel).value, EvalS(Cse(a), env', fuel).value, fuel - 1);
      }
      AppKept(f, a, Cse(f), Cse(a), env, env', fuel);
    case CallClosure(_, _) =>
    case Let(v, b) =>
      CseKept(v, env, env', fuel);
      LetKept(v, b, env, env', fuel);
    case Case(s, arms) =>
      CseKept(s, env, env', fuel);
      CaseKept(s, arms, env, env', fuel);
    case IfZero(s, t, e) =>
      CseKept(s, env, env', fuel);
      CseKept(t, env, env', fuel);
      CseKept(e, env, env', fuel);
      IfZeroKept(c, CseChildren(c), env, env', fuel);
    case MkClosure(_, _) =>
    case Prim(op, args) =>
      AllKeptBy(args, env, env', fuel);
      PrimKept(op, EvalSSeq(args, env, fuel), EvalSSeq(CseAll(args), env', fuel));
  }

  lemma NullKept()
    ensures Kept(Null, Null)
  {
    Keep(Null, Null);
  }

  lemma LamKept(b: Cir, env: seq<SVal>, env': seq<SVal>)
    requires AllRewritten(env, env')
    ensures Kept(Clo(LamCode(b), env), Clo(LamCode(Cse(b)), env'))
  {
    Keep(Clo(LamCode(b), env), Clo(LamCode(Cse(b)), env'));
  }

  lemma FixKept(b: Cir, env: seq<SVal>, env': seq<SVal>, fuel: nat)
    requires AllRewritten(env, env')
    ensures OKept(EvalS(Fix(b), env, fuel), EvalS(Fix(Cse(b)), env', fuel))
  {
    hide Cse;
    if b.Lam? {
      LamStays(b);
      Keep(Clo(RecCode(b.body), env), Clo(RecCode(Cse(b.body)), env'));
    } else {
      OnlyLam(b);
    }
  }

  lemma AppKept(f: Cir, a: Cir, f': Cir, a': Cir, env: seq<SVal>, env': seq<SVal>, fuel: nat)
    requires OKept(EvalS(f, env, fuel), EvalS(f', env', fuel)) && OKept(EvalS(a, env, fuel), EvalS(a', env', fuel))
    requires var fv, av := EvalS(f, env, fuel), EvalS(a, env, fuel);
      fv.Done? && av.Done? && fuel > 0 ==>
        OKept(Call(fv.value, av.value, fuel), Call(EvalS(f', env', fuel).value, EvalS(a', env', fuel).value, fuel))
    ensures OKept(EvalS(App(f, a), env, fuel), EvalS(App(f', a'), env', fuel))
  {
    hide EvalS, Kept;
    AppIsCall(f, a, env, fuel);
    AppIsCall(f', a', env', fuel);
  }

  lemma {:induction false} LetKept(v: Cir, b: Cir, env: seq<SVal>, env': seq<SVal>, fuel: nat)
    requires AllRewritten(env, env') && OKept(EvalS(v, env, fuel), EvalS(Cse(v), env', fuel))
    ensures OKept(EvalS(Let(v, b), env, fuel), EvalS(Let(Cse(v), Cse(b)), env', fuel))
    decreases fuel, Work(Let(v, b)), Let(v, b), 0
  {
    hide VSim, Cse, Rewritten;
    var x, x' := EvalS(v, env, fuel), EvalS(Cse(v), env', fuel);
    if x.Done? {
      var u :| VSim(x.value, u) && Rewritten(u, x'.value);
      SimEnv(b, [x.value], [u], env, fuel);
      CseKept(b, [u] + env, [x'.value] + env', fuel);
      SimThenKept(EvalS(b, [x.value] + env, fuel), EvalS(b, [u] + env, fuel), EvalS(Cse(b), [x'.value] + env', fuel));
    }
  }

  lemma CaseIs(s: Cir, arms: seq<Arm>, env: seq<SVal>, fuel: nat)
    ensures var x, o := EvalS(s, env, fuel), EvalS(Case(s, arms), env, fuel);
      if x.Done? && x.value.Con? then
        var k := FindArm(arms, x.value.con);
        o == if k.None? || arms[k.value].binders > |x.value.args| then Stuck
             else EvalS(arms[k.value].body, Bound(x.value.args, arms[k.value].binders) + env, fuel)
      else !o.Done?
  {}

  lemma {:induction false} CaseKept(s: Cir, arms: seq<Arm>, env: seq<SVal>, env': seq<SVal>, fuel: nat)
    requires AllRewritten(env, env') && OKept(EvalS(s, env, fuel), EvalS(Cse(s), env', fuel))
    ensures OKept(EvalS(Case(s, arms), env, fuel), EvalS(Case(Cse(s), CseArms(arms)), env', fuel))
    decreases fuel, Work(Case(s, arms)), Case(s, arms), 0, 1
  {
    hide VSim, Cse, CseArms, Rewritten, Kept, EvalS, FindArm;
    CseArmsAt(arms);
    CaseIs(s, arms, env, fuel);
    CaseIs(Cse(s), CseArms(arms), env', fuel);
    var x, x' := EvalS(s, env, fuel), EvalS(Cse(s), env', fuel);
    if x.Done? {
      var us := ConKept(x.value, x'.value);
      if x.value.Con? {
        SameArm(arms, CseArms(arms), x.value.con);
        var k := FindArm(arms, x.value.con);
        if k.Some? && arms[k.value].binders <= |x.value.args| {
          ArmKept(s, arms, k.value, x.value.args, us, x'.value.args, env, env', fuel);
        }
      }
    }
  }

  lemma {:induction false} ArmKept(
    s: Cir, arms: seq<Arm>, k: nat, xs: seq<SVal>, us: seq<SVal>, xs': seq<SVal>, env: seq<SVal>, env': seq<SVal>, fuel: nat)
    requires AllRewritten(env, env') && k < |arms| && arms[k].binders <= |xs| && AllSim(xs, us) && AllRewritten(us, xs')
    ensures OKept(EvalS(arms[k].body, Bound(xs, arms[k].binders) + env, fuel),
                  EvalS(Cse(arms[k].body), Bound(xs', arms[k].binders) + env', fuel))
    decreases fuel, Work(Case(s, arms)), Case(s, arms), 0, 0
  {
    hide VSim, Cse, Rewritten, Kept, EvalS;
    var arm := arms[k];
    var bs, cs, bs' := Bound(xs, arm.binders), Bound(us, arm.binders), Bound(xs', arm.binders);
    BoundSim(xs, us, arm.binders);
    SimEnv(arm.body, bs, cs, env, fuel);
    ArmWork(s, arms, k);
    CseKept(arm.body, cs + env, bs' + env', fuel);
    SimThenKept(EvalS(arm.body, bs + env, fuel), EvalS(arm.body, cs + env, fuel), EvalS(Cse(arm.body), bs' + env', fuel));
  }

  lemma ConKept(v: SVal, w: SVal) returns (us: seq<SVal>)
    requires Kept(v, w)
    ensures v.Con? <==> w.Con?
    ensures v.Con? ==> w.con == v.con && AllSim(v.args, us) && AllRewritten(us, w.args)
  {
    var u :| VSim(v, u) && Rewritten(u, w);
    us := if u.Con? then u.args else [];
  }

  lemma {:induction false} ArmWork(s: Cir, arms: seq<Arm>, k: nat)
    requires k < |arms|
    ensures Work(arms[k].body) <= WorkArms(arms) < Work(Case(s, arms))
    decreases |arms|
  {
    hide Work;
    ArmsWork(arms, k);
    CaseWork(s, arms);
  }

  lemma CaseWork(s: Cir, arms: seq<Arm>)
    ensures WorkArms(arms) < Work(Case(s, arms))
  {}

  lemma {:induction false} ArmsWork(arms: seq<Arm>, k: nat)
    requires k < |arms|
    ensures Work(arms[k].body) <= WorkArms(arms)
    decreases |arms|
  {
    hide Work;
    if k < |arms| - 1 { ArmsWork(arms[..|arms| - 1], k); }
  }

  lemma IfZeroKept(c: Cir, c': Cir, env: seq<SVal>, env': seq<SVal>, fuel: nat)
    requires c.IfZero? && c'.IfZero?
    requires OKept(EvalS(c.scrut, env, fuel), EvalS(c'.scrut, env', fuel))
    requires OKept(EvalS(c.then_, env, fuel), EvalS(c'.then_, env', fuel))
    requires OKept(EvalS(c.else_, env, fuel), EvalS(c'.else_, env', fuel))
    ensures OKept(EvalS(c, env, fuel), EvalS(c', env', fuel))
  {
    hide Kept;
    var x := EvalS(c.scrut, env, fuel);
    if x.Done? { ScalarKept(x.value, EvalS(c'.scrut, env', fuel).value); }
  }

  lemma ScalarKept(v: SVal, w: SVal)
    requires Kept(v, w)
    ensures v.Scalar? <==> w.Scalar?
    ensures v.Scalar? ==> w == v
  {}

  lemma {:induction false} AllKeptBy(cs: seq<Cir>, env: seq<SVal>, env': seq<SVal>, fuel: nat)
    requires AllRewritten(env, env')
    ensures OAllKept(EvalSSeq(cs, env, fuel), EvalSSeq(CseAll(cs), env', fuel))
    decreases fuel, WorkAll(cs), cs, 0
  {
    hide VSim, Cse, Rewritten, EvalS, Work;
    if cs == [] {
      assert AllSim([], []) && AllRewritten([], []);
    } else {
      var n := |cs| - 1;
      AllKeptBy(cs[..n], env, env', fuel);
      CseKept(cs[n], env, env', fuel);
      assert CseAll(cs)[..n] == CseAll(cs[..n]);
      var xs, xs' := EvalSSeq(cs[..n], env, fuel), EvalSSeq(CseAll(cs[..n]), env', fuel);
      var x, x' := EvalS(cs[n], env, fuel), EvalS(Cse(cs[n]), env', fuel);
      if xs.Done? && x.Done? { AllKeptPlus(xs.value, xs'.value, x.value, x'.value); }
    }
  }

  lemma AllKeptPlus(vs: seq<SVal>, ws: seq<SVal>, v: SVal, w: SVal)
    requires AllKept(vs, ws) && Kept(v, w)
    ensures AllKept(vs + [v], ws + [w])
  {
    hide VSim, Rewritten;
    var us :| AllSim(vs, us) && AllRewritten(us, ws);
    var u :| VSim(v, u) && Rewritten(u, w);
    assert AllSim(vs + [v], us + [u]) && AllRewritten(us + [u], ws + [w]);
  }

  // ---- first-order results ----

  predicate FirstOrder(v: SVal) {
    match v
    case Null => true
    case Scalar(_) => true
    case Con(_, xs) => forall k :: 0 <= k < |xs| ==> FirstOrder(xs[k])
    case Tuple(xs) => forall k :: 0 <= k < |xs| ==> FirstOrder(xs[k])
    case Clo(_, _) => false
  }

  lemma {:induction false} SimFirstOrder(v: SVal, u: SVal)
    requires VSim(v, u) && (FirstOrder(v) || FirstOrder(u))
    ensures u == v
    decreases v
  {
    match v
    case Con(_, xs) => forall k | 0 <= k < |xs| ensures xs[k] == u.args[k] { SimFirstOrder(xs[k], u.args[k]); }
    case Tuple(xs) => forall k | 0 <= k < |xs| ensures xs[k] == u.fields[k] { SimFirstOrder(xs[k], u.fields[k]); }
    case _ =>
  }

  lemma {:induction false} RewrittenFirstOrder(v: SVal, u: SVal)
    requires Rewritten(v, u) && (FirstOrder(v) || FirstOrder(u))
    ensures u == v
    decreases v
  {
    match v
    case Con(_, xs) => forall k | 0 <= k < |xs| ensures xs[k] == u.args[k] { RewrittenFirstOrder(xs[k], u.args[k]); }
    case Tuple(xs) => forall k | 0 <= k < |xs| ensures xs[k] == u.fields[k] { RewrittenFirstOrder(xs[k], u.fields[k]); }
    case _ =>
  }

  /** A closed program and its rewriting give the same first-order results, and one gives a result
      exactly when the other does. */
  lemma CsePreserves(c: Cir, fuel: nat)
    ensures EvalS(c, [], fuel).Done? <==> EvalS(Cse(c), [], fuel).Done?
    ensures forall v :: FirstOrder(v) ==> (EvalS(c, [], fuel) == Done(v) <==> EvalS(Cse(c), [], fuel) == Done(v))
  {
    hide EvalS, Cse, VSim, Rewritten, FirstOrder;
    CseKept(c, [], [], fuel);
    var o, o' := EvalS(c, [], fuel), EvalS(Cse(c), [], fuel);
    if o.Done? && (FirstOrder(o.value) || FirstOrder(o'.value)) {
      var u :| VSim(o.value, u) && Rewritten(u, o'.value);
      if FirstOrder(o.value) {
        SimFirstOrder(o.value, u);
        RewrittenFirstOrder(u, o'.value);
      } else {
        RewrittenFirstOrder(u, o'.value);
        SimFirstOrder(o.value, u);
      }
    }
  }
}
