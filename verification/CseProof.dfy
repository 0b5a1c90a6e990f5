/** Sharing a repeated subterm changes no result, and neither does the whole pass. */
module CseProof {
  import opened Basics
  import opened Values
  import opened CirLang
  import opened CseHoist
  import opened CseSim

  // ---- evaluation agrees on similar terms ----

  /** Calling a function value: what an application does once both operands are values. */
  function Call(f: SVal, a: SVal, fuel: nat): Outcome<SVal> {
    if !f.Clo? then Stuck
    else if fuel == 0 then Timeout
    else
      match f.code
      case LamCode(b) => EvalS(b, [a] + f.env, fuel - 1)
      case RecCode(inner) => EvalS(inner, [a, f] + f.env, fuel - 1)
  }

  /** Similar function values, called with similar arguments. */
  lemma CallSim(f: SVal, a: SVal, f': SVal, a': SVal, fuel: nat)
    requires VSim(f, f') && VSim(a, a')
    ensures OSim(Call(f, a, fuel + 1), Call(f', a', fuel + 1))
    decreases fuel
  {
    hide VSim, TermSim, EvalS;
    SameCall(f, f');
    if f.Clo? {
      if f.code.LamCode? {
        Plug(f.code.body, f'.code.body, 0, [a], [a'], f.env, f'.env);
        EvalSim(f.code.body, f'.code.body, [a] + f.env, [a'] + f'.env, fuel);
      } else {
        Plug(f.code.inner, f'.code.inner, 0, [a, f], [a', f'], f.env, f'.env);
        EvalSim(f.code.inner, f'.code.inner, [a, f] + f.env, [a', f'] + f'.env, fuel);
      }
    }
  }

  lemma SameCall(f: SVal, f': SVal)
    requires VSim(f, f')
    ensures f.Clo? <==> f'.Clo?
    ensures f.Clo? ==> f'.code.LamCode? == f.code.LamCode?
    ensures f.Clo? ==> TermSim(CodeBody(f.code), CodeBody(f'.code), Params(f.code), f.env, f'.env)
  {}

  lemma {:induction false} EvalSim(c: Cir, c': Cir, env: seq<SVal>, env': seq<SVal>, fuel: nat)
    requires TermSim(c, c', 0, env, env')
    ensures OSim(EvalS(c, env, fuel), EvalS(c', env', fuel))
    decreases fuel, c, 1
  {
    hide VSim;
    match c
    case Var(i) =>
    case EnvRef(_) =>
    case Global(_) =>
    case Erased => VSimRefl(Null);
    case Lam(b) => LamSim(b, c'.body, env, env');
    case Fix(b) => FixSim(b, c'.body, env, env');
    case App(f, a) =>
      EvalSim(f, c'.f, env, env', fuel);
      EvalSim(a, c'.a, env, env', fuel);
      ApplySim(f, a, c'.f, c'.a, env, env', fuel);
    case CallClosure(_, _) =>
    case Let(v, b) =>
      EvalSim(v, c'.v, env, env', fuel);
      LetSim(v, b, c'.v, c'.b, env, env', fuel);
    case Case(s, arms) =>
      EvalSim(s, c'.scrut, env, env', fuel);
      CaseSim(c, c', env, env', fuel);
    case IfZero(s, t, e) =>
      EvalSim(s, c'.scrut, env, env', fuel);
      EvalSim(t, c'.then_, env, env', fuel);
      EvalSim(e, c'.else_, env, env', fuel);
      IfZeroSim(c, c', env, env', fuel);
    case MkClosure(_, _) =>
    case Prim(op, args) =>
      EvalSimAll(args, c'.args, env, env', fuel);
      PrimSim(op, EvalSSeq(args, env, fuel), EvalSSeq(c'.args, env', fuel));
  }

  lemma {:induction false} ApplySim(f: Cir, a: Cir, f': Cir, a': Cir, env: seq<SVal>, env': seq<SVal>, fuel: nat)
    requires OSim(EvalS(f, env, fuel), EvalS(f', env', fuel)) && OSim(EvalS(a, env, fuel), EvalS(a', env', fuel))
    ensures OSim(EvalS(App(f, a), env, fuel), EvalS(App(f', a'), env', fuel))
    decreases fuel, App(f, a), 0
  {
    hide VSim, EvalS, Call;
    var fv, av := EvalS(f, env, fuel), EvalS(a, env, fuel);
    if fv.Done? && av.Done? && fuel > 0 {
      CallSim(fv.value, av.value, EvalS(f', env', fuel).value, EvalS(a', env', fuel).value, fuel - 1);
    }
    AppSim(f, a, f', a', env, env', fuel);
  }

  lemma LamSim(b: Cir, b': Cir, env: seq<SVal>, env': seq<SVal>)
    requires TermSim(b, b', 1, env, env')
    ensures VSim(Clo(LamCode(b), env), Clo(LamCode(b'), env'))
  {}

  lemma FixSim(b: Cir, b': Cir, env: seq<SVal>, env': seq<SVal>)
    requires TermSim(b, b', 1, env, env')
    ensures b.Lam? <==> b'.Lam?
    ensures b.Lam? ==> VSim(Clo(RecCode(b.body), env), Clo(RecCode(b'.body), env'))
  {}

  lemma AppSim(f: Cir, a: Cir, f': Cir, a': Cir, env: seq<SVal>, env': seq<SVal>, fuel: nat)
    requires OSim(EvalS(f, env, fuel), EvalS(f', env', fuel)) && OSim(EvalS(a, env, fuel), EvalS(a', env', fuel))
    requires var fv, av := EvalS(f, env, fuel), EvalS(a, env, fuel);
      fv.Done? && av.Done? && fuel > 0 ==>
        OSim(Call(fv.value, av.value, fuel), Call(EvalS(f', env', fuel).value, EvalS(a', env', fuel).value, fuel))
    ensures OSim(EvalS(App(f, a), env, fuel), EvalS(App(f', a'), env', fuel))
  {
    var fv, av := EvalS(f, env, fuel), EvalS(a, env, fuel);
    AppIsCall(f, a, env, fuel);
    AppIsCall(f', a', env', fuel);
    hide VSim, EvalS;
    if fv.Done? && av.Done? && fuel == 0 { SameCall(fv.value, EvalS(f', env', fuel).value); }
  }

  lemma AppIsCall(f: Cir, a: Cir, env: seq<SVal>, fuel: nat)
    ensures var fv, av := EvalS(f, env, fuel), EvalS(a, env, fuel);
      EvalS(App(f, a), env, fuel)
      == if !fv.Done? then fv else if !av.Done? then av else Call(fv.value, av.value, fuel)
  {}

  /** The fields a matched arm binds. */
  function Bound(xs: seq<SVal>, n: nat): seq<SVal>
    requires n <= |xs|
  {
    Reverse(xs[..n])
  }

  lemma BoundSim(xs: seq<SVal>, xs': seq<SVal>, n: nat)
    requires AllSim(xs, xs') && n <= |xs|
    ensures AllSim(Bound(xs, n), Bound(xs', n)) && |Bound(xs, n)| == n
  {
    hide VSim;
  }

  lemma {:induction false} CaseSim(c: Cir, c': Cir, env: seq<SVal>, env': seq<SVal>, fuel: nat)
    requires c.Case? && TermSim(c, c', 0, env, env')
    requires OSim(EvalS(c.scrut, env, fuel), EvalS(c'.scrut, env', fuel))
    ensures OSim(EvalS(c, env, fuel), EvalS(c', env', fuel))
    decreases fuel, c, 0
  {
    hide TermSim;
    CaseParts(c, c', env, env');
    var x := EvalS(c.scrut, env, fuel);
    if x.Done? && x.value.Con? {
      var x' := EvalS(c'.scrut, env', fuel).value;
      SameArm(c.arms, c'.arms, x.value.con);
      var k := FindArm(c.arms, x.value.con);
      if k.Some? && c.arms[k.value].binders <= |x.value.args| {
        var arm, arm' := c.arms[k.value], c'.arms[k.value];
        BoundSim(x.value.args, x'.args, arm.binders);
        var bs, bs' := Bound(x.value.args, arm.binders), Bound(x'.args, arm.binders);
        Plug(arm.body, arm'.body, 0, bs, bs', env, env');
        EvalSim(arm.body, arm'.body, bs + env, bs' + env', fuel);
      }
    }
  }

  lemma CaseParts(c: Cir, c': Cir, env: seq<SVal>, env': seq<SVal>)
    requires c.Case? && TermSim(c, c', 0, env, env')
    ensures c'.Case? && |c'.arms| == |c.arms|
    ensures forall k :: 0 <= k < |c.arms| ==>
      c'.arms[k].con == c.arms[k].con && c'.arms[k].binders == c.arms[k].binders
      && TermSim(c.arms[k].body, c'.arms[k].body, c.arms[k].binders, env, env') == true
  {}

  lemma IfZeroSim(c: Cir, c': Cir, env: seq<SVal>, env': seq<SVal>, fuel: nat)
    requires c.IfZero? && c'.IfZero?
    requires OSim(EvalS(c.scrut, env, fuel), EvalS(c'.scrut, env', fuel))
    requires OSim(EvalS(c.then_, env, fuel), EvalS(c'.then_, env', fuel))
    requires OSim(EvalS(c.else_, env, fuel), EvalS(c'.else_, env', fuel))
    ensures OSim(EvalS(c, env, fuel), EvalS(c', env', fuel))
  {
    hide TermSim;
  }

  lemma {:induction false} EvalSimAll(cs: seq<Cir>, cs': seq<Cir>, env: seq<SVal>, env': seq<SVal>, fuel: nat)
    requires |cs'| == |cs| && forall k :: 0 <= k < |cs| ==> TermSim(cs[k], cs'[k], 0, env, env') == true
    ensures OSimAll(EvalSSeq(cs, env, fuel), EvalSSeq(cs', env', fuel))
    decreases fuel, cs, 0
  {
    hide VSim, TermSim, EvalS;
    if cs != [] {
      var n := |cs| - 1;
      EvalSimAll(cs[..n], cs'[..n], env, env', fuel);
      EvalSim(cs[n], cs'[n], env, env', fuel);
    }
  }

  lemma PrimSim(op: PrimOp, o: Outcome<seq<SVal>>, o': Outcome<seq<SVal>>)
    requires OSimAll(o, o')
    ensures OSim(if o.Done? then EvalPrim(op, o.value) else Stuck, if o'.Done? then EvalPrim(op, o'.value) else Stuck)
  {
    hide TermSim;
    if o.Done? && op.IntOp? && |o.value| == 2 {
      assert VSim(o.value[0], o'.value[0]) && VSim(o.value[1], o'.value[1]);
    }
  }

  // ---- one hoist ----

  /** What the region evaluates, the term evaluates. */
  lemma {:induction false} RegionIsEager(c: Cir, t: Cir, env: seq<SVal>, fuel: nat)
    requires t in Visits(c) && EvalS(c, env, fuel).Done?
    ensures EvalS(t, env, fuel).Done?
    decreases c, 1
  {
    match c
    case App(f, a) =>
      if t in Visits(f) { RegionIsEager(f, t, env, fuel); } else if t in Visits(a) { RegionIsEager(a, t, env, fuel); }
    case Let(v, _) => if t in Visits(v) { RegionIsEager(v, t, env, fuel); }
    case Case(s, _) => if t in Visits(s) { RegionIsEager(s, t, env, fuel); }
    case Prim(_, args) => AllAreEager(args, t, env, fuel);
    case _ =>
  }

  lemma {:induction false} AllAreEager(cs: seq<Cir>, t: Cir, env: seq<SVal>, fuel: nat)
    requires t in VisitsAll(cs) && EvalSSeq(cs, env, fuel).Done?
    ensures EvalS(t, env, fuel).Done?
    decreases cs, 0
  {
    var front, last := cs[..|cs| - 1], cs[|cs| - 1];
    if t in VisitsAll(front) {
      AllAreEager(front, t, env, fuel);
    } else if t in Visits(last) {
      RegionIsEager(last, t, env, fuel);
    }
  }

  function HoistedAll(cs: seq<Cir>, t: Cir): (r: seq<Cir>)
    ensures |r| == |cs|
  {
    ReplaceAll(ShiftAll(cs, 1, 0), ShiftFree(t, 1, 0))
  }

  /** The rewritten term, constructor by constructor. */
  function HoistedParts(c: Cir, t: Cir): Cir {
    if c == t then Var(0)
    else
      match c
      case App(f, a) => App(Hoisted(f, t), Hoisted(a, t))
      case CallClosure(f, a) => CallClosure(Hoisted(f, t), Hoisted(a, t))
      case Let(v, b) => Let(Hoisted(v, t), ShiftFree(b, 1, 1))
      case Case(s, arms) => Case(Hoisted(s, t), ShiftArms(arms, 1, 0))
      case MkClosure(name, caps) => MkClosure(name, HoistedAll(caps, t))
      case Prim(op, args) => Prim(op, HoistedAll(args, t))
      case _ => ShiftFree(c, 1, 0)
  }

  lemma HoistedIs(c: Cir, t: Cir)
    ensures Hoisted(c, t) == HoistedParts(c, t)
  {
    hide ShiftAll, ShiftArms, ReplaceAll;
    if ShiftFree(c, 1, 0) == ShiftFree(t, 1, 0) { ShiftInjective(c, t, 1, 0); }
  }

  /** With the shared subterm's value bound in front, the rewritten term evaluates as before. */
  lemma {:induction false} ReplaceSim(c: Cir, t: Cir, x: SVal, env: seq<SVal>, fuel: nat)
    requires EvalS(t, env, fuel) == Done(x)
    ensures OSim(EvalS(c, env, fuel), EvalS(Hoisted(c, t), [x] + env, fuel))
    decreases c, 1
  {
    hide VSim, Hoisted, HoistedAll, ShiftFree, ShiftArms, TermSim;
    HoistedIs(c, t);
    if c == t {
      VSimRefl(x);
    } else {
      match c
      case App(f, a) =>
        ReplaceSim(f, t, x, env, fuel);
        ReplaceSim(a, t, x, env, fuel);
        ApplySim(f, a, Hoisted(f, t), Hoisted(a, t), env, [x] + env, fuel);
      case CallClosure(_, _) =>
      case Let(v, b) =>
        ReplaceSim(v, t, x, env, fuel);
        ShiftSim(b, [x], 1, env);
        LetSim(v, b, Hoisted(v, t), ShiftFree(b, 1, 1), env, [x] + env, fuel);
      case Case(s, arms) =>
        ReplaceSim(s, t, x, env, fuel);
        ArmsShiftSim(arms, x, env);
        ArmsSim(s, arms, Hoisted(s, t), ShiftArms(arms, 1, 0), env, [x] + env, fuel);
      case MkClosure(_, _) =>
      case Prim(op, args) =>
        ReplaceSimAll(args, t, x, env, fuel);
        PrimSim(op, EvalSSeq(args, env, fuel), EvalSSeq(HoistedAll(args, t), [x] + env, fuel));
      case _ =>
        ShiftSim(c, [x], 0, env);
        EvalSim(c, ShiftFree(c, 1, 0), env, [x] + env, fuel);
    }
  }

  lemma LetSim(v: Cir, b: Cir, v': Cir, b': Cir, env: seq<SVal>, env': seq<SVal>, fuel: nat)
    requires OSim(EvalS(v, env, fuel), EvalS(v', env', fuel)) && TermSim(b, b', 1, env, env')
    ensures OSim(EvalS(Let(v, b), env, fuel), EvalS(Let(v', b'), env', fuel))
    decreases fuel, Let(v, b), 0
  {
    hide VSim, TermSim;
    var x, x' := EvalS(v, env, fuel), EvalS(v', env', fuel);
    if x.Done? {
      Plug(b, b', 0, [x.value], [x'.value], env, env');
      EvalSim(b, b', [x.value] + env, [x'.value] + env', fuel);
    }
  }

  ghost predicate SameArms(arms: seq<Arm>, arms': seq<Arm>, env: seq<SVal>, env': seq<SVal>) {
    |arms'| == |arms|
    && forall k :: 0 <= k < |arms| ==>
         arms'[k].con == arms[k].con && arms'[k].binders == arms[k].binders
         && TermSim(arms[k].body, arms'[k].body, arms[k].binders, env, env')
  }

  lemma ArmsShiftSim(arms: seq<Arm>, x: SVal, env: seq<SVal>)
    ensures SameArms(arms, ShiftArms(arms, 1, 0), env, [x] + env)
  {
    hide TermSim, ShiftFree;
    forall k | 0 <= k < |arms|
      ensures TermSim(arms[k].body, ShiftFree(arms[k].body, 1, 0 + arms[k].binders), arms[k].binders, env, [x] + env)
    {
      ShiftSim(arms[k].body, [x], arms[k].binders, env);
    }
  }

  lemma ArmsSim(s: Cir, arms: seq<Arm>, s': Cir, arms': seq<Arm>, env: seq<SVal>, env': seq<SVal>, fuel: nat)
    requires OSim(EvalS(s, env, fuel), EvalS(s', env', fuel)) && SameArms(arms, arms', env, env')
    ensures OSim(EvalS(Case(s, arms), env, fuel), EvalS(Case(s', arms'), env', fuel))
  {
    hide TermSim;
    var x := EvalS(s, env, fuel);
    if x.Done? && x.value.Con? {
      var x' := EvalS(s', env', fuel).value;
      SameArm(arms, arms', x.value.con);
      var k := FindArm(arms, x.value.con);
      if k.Some? && arms[k.value].binders <= |x.value.args| {
        var arm, arm' := arms[k.value], arms'[k.value];
        BoundSim(x.value.args, x'.args, arm.binders);
        var bs, bs' := Bound(x.value.args, arm.binders), Bound(x'.args, arm.binders);
        Plug(arm.body, arm'.body, 0, bs, bs', env, env');
        EvalSim(arm.body, arm'.body, bs + env, bs' + env', fuel);
      }
    }
  }

  lemma {:induction false} ReplaceSimAll(cs: seq<Cir>, t: Cir, x: SVal, env: seq<SVal>, fuel: nat)
    requires EvalS(t, env, fuel) == Done(x)
    ensures OSimAll(EvalSSeq(cs, env, fuel), EvalSSeq(HoistedAll(cs, t), [x] + env, fuel))
    decreases cs, 0
  {
    hide VSim, EvalS, ShiftFree, Replace;
    if cs != [] {
      var n := |cs| - 1;
      ReplaceSimAll(cs[..n], t, x, env, fuel);
      ReplaceSim(cs[n], t, x, env, fuel);
      assert HoistedAll(cs, t)[..n] == HoistedAll(cs[..n], t);
      assert HoistedAll(cs, t)[n] == Hoisted(cs[n], t);
    }
  }

  /** Binding a subterm of the region in front changes no result. */
  lemma HoistSim(c: Cir, t: Cir, env: seq<SVal>, fuel: nat)
    requires t in Visits(c)
    ensures OSim(EvalS(c, env, fuel), EvalS(Let(t, Hoisted(c, t)), env, fuel))
  {
    hide Visits, Hoisted, VSim;
    var x := EvalS(t, env, fuel);
    if x.Done? {
      ReplaceSim(c, t, x.value, env, fuel);
    } else if EvalS(c, env, fuel).Done? {
      RegionIsEager(c, t, env, fuel);
    }
  }

  /** Nor do all the hoists of one node's region. */
  lemma {:induction false} LocalHoistSim(c: Cir, env: seq<SVal>, fuel: nat)
    ensures OSim(EvalS(c, env, fuel), EvalS(LocalHoist(c), env, fuel))
    decreases Work(c)
  {
    hide Visits, Hoisted, VSim, BestCandidate, IsCandidate, Work;
    var best := BestCandidate(c);
    BestIsLargestRepeat(c);
    if best.None? {
      if EvalS(c, env, fuel).Done? { VSimRefl(EvalS(c, env, fuel).value); }
    } else {
      var t := best.value;
      HoistShrinks(c, t);
      MetInRegion(c, t);
      HoistSim(c, t, env, fuel);
      var x := EvalS(t, env, fuel);
      if x.Done? { LocalHoistSim(Hoisted(c, t), [x.value] + env, fuel); }
      LocalHoistIs(c, t);
      LetBodySim(t, Hoisted(c, t), LocalHoist(Hoisted(c, t)), env, fuel);
      OSimTrans(EvalS(c, env, fuel), EvalS(Let(t, Hoisted(c, t)), env, fuel), EvalS(LocalHoist(c), env, fuel));
    }
  }

  lemma LocalHoistIs(c: Cir, t: Cir)
    requires BestCandidate(c) == Some(t)
    ensures LocalHoist(c) == Let(t, LocalHoist(Hoisted(c, t)))
  {
    hide BestCandidate, Hoisted;
  }

  lemma LetBodySim(v: Cir, b: Cir, b': Cir, env: seq<SVal>, fuel: nat)
    requires var x := EvalS(v, env, fuel);
      x.Done? ==> OSim(EvalS(b, [x.value] + env, fuel), EvalS(b', [x.value] + env, fuel))
    ensures OSim(EvalS(Let(v, b), env, fuel), EvalS(Let(v, b'), env, fuel))
  {
    hide VSim;
  }
}
