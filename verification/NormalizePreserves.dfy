/** Normalization computes exactly the converted program's outcome, with fusing and arity raising on
    or off. */
module NormalizePreserves {
  import opened Basics
  import opened Values
  import opened CirLang
  import opened AnfLang
  import opened DeferredShift
  import opened Normalize
  import opened ClosureWf
  import opened NormalizeProof

  /** One normalization: a converted program and the two optimization switches. */
  datatype Setting = Setting(p: Program, ar: map<FName, nat>, fuse: bool, raise: bool)

  ghost predicate Good(x: Setting) {
    ProgramOk(x.p, x.ar) && ProgramInFragment(x.p)
  }

  function Target(x: Setting): seq<AnfFunc> {
    NormalizeFuncs(x.p.funcs, x.fuse, x.raise)
  }

  /** What calling function `name` computes in the converted program. */
  function CallT(funcs: seq<Func>, name: FName, caps: seq<TVal>, arg: TVal, fuel: nat): Outcome<TVal> {
    if fuel == 0 then Timeout
    else
      match Lookup(funcs, name)
      case None => Stuck
      case Some(g) => EvalT(funcs, g.body, [arg], caps, fuel - 1)
  }

  lemma {:induction false} LookupNormalized(funcs: seq<Func>, fuse: bool, raise: bool, name: FName)
    ensures LookupAnf(NormalizeFuncs(funcs, fuse, raise), name)
         == match Lookup(funcs, name) case None => None case Some(f) => Some(NormalizeFunc(f, fuse, raise))
  {
    hide ToTail, Peephole;
    if funcs != [] {
      LookupNormalized(funcs[1..], fuse, raise, name);
      assert NormalizeFuncs(funcs, fuse, raise)[1..] == NormalizeFuncs(funcs[1..], fuse, raise);
    }
  }

  /** The emitted `let`s followed by the atom produce `expected`: the same value, or the same failure. */
  ghost predicate Computes(tf: seq<AnfFunc>, a: Anf, scope: seq<TVal>, caps: seq<TVal>, fuel: nat, expected: Outcome<TVal>) {
    var sc := RunBinds(tf, a.binds, scope, caps, fuel);
    if sc.Done? then expected.Done? && EvalAtom(a.atom, sc.value, caps) == expected
    else expected == sc.PropagateFailure<TVal>()
  }

  ghost predicate ComputesSeq(
    tf: seq<AnfFunc>, a: AnfSeq, scope: seq<TVal>, caps: seq<TVal>, fuel: nat, expected: Outcome<seq<TVal>>)
  {
    var sc := RunBinds(tf, a.binds, scope, caps, fuel);
    if sc.Done? then expected.Done? && EvalAtoms(a.atoms, sc.value, caps) == expected
    else expected == sc.PropagateFailure<seq<TVal>>()
  }

  lemma RunSnoc(tf: seq<AnfFunc>, binds: seq<Comp>, c: Comp, scope: seq<TVal>, caps: seq<TVal>, fuel: nat)
    ensures RunBinds(tf, binds + [c], scope, caps, fuel) ==
      var sc := RunBinds(tf, binds, scope, caps, fuel);
      if !sc.Done? then sc
      else var v := EvalComp(tf, c, sc.value, caps, fuel);
           if v.Done? then Done([v.value] + sc.value) else v.PropagateFailure<seq<TVal>>()
  {
    hide EvalComp;
    RunAppend(tf, binds, [c], scope, caps, fuel);
  }

  // ---- the simulation ----

  lemma {:induction false} AtomizeOk(x: Setting, c: Cir, s: Shift, env: seq<TVal>, scope: seq<TVal>, caps: seq<TVal>, fuel: nat)
    requires Good(x) && Straight(c) && ScopeFits(c, x.ar, env, caps) && Agrees(s, env, scope)
    ensures Computes(Target(x), Atomize(c, s, x.fuse), scope, caps, fuel, EvalT(x.p.funcs, c, env, caps, fuel))
    decreases fuel, 1, c, 2
  {
    hide Good, Target, Agrees, ScopeFits, RunBinds;
    match c
    case Var(i) => VarOk(x, c, s, env, scope, caps, fuel);
    case EnvRef(_) => LeafOk(x, c, s, env, scope, caps, fuel);
    case Global(_) => LeafOk(x, c, s, env, scope, caps, fuel);
    case Erased => LeafOk(x, c, s, env, scope, caps, fuel);
    case CallClosure(f, a) =>
      if x.fuse && f.MkClosure? && f.caps == [] {
        FusedOk(x, c, s, env, scope, caps, fuel);
      } else {
        CallOk(x, c, s, env, scope, caps, fuel);
      }
    case Let(v, b) => LetOk(x, c, s, env, scope, caps, fuel);
    case MkClosure(name, cs) => OperandsOk(x, c, s, env, scope, caps, fuel);
    case Prim(op, args) => OperandsOk(x, c, s, env, scope, caps, fuel);
  }

  lemma VarOk(x: Setting, c: Cir, s: Shift, env: seq<TVal>, scope: seq<TVal>, caps: seq<TVal>, fuel: nat)
    requires c.Var? && ScopeFits(c, x.ar, env, caps) && Agrees(s, env, scope)
    ensures Computes(Target(x), Atomize(c, s, x.fuse), scope, caps, fuel, EvalT(x.p.funcs, c, env, caps, fuel))
  {
    assert Holds(scope, DeferredShift.Apply(s, c.i), env[c.i]);
  }

  lemma LeafOk(x: Setting, c: Cir, s: Shift, env: seq<TVal>, scope: seq<TVal>, caps: seq<TVal>, fuel: nat)
    requires (c.EnvRef? || c.Global? || c.Erased?) && ScopeFits(c, x.ar, env, caps)
    ensures Computes(Target(x), Atomize(c, s, x.fuse), scope, caps, fuel, EvalT(x.p.funcs, c, env, caps, fuel))
  {}

  /** Calling a converted function, and calling its normal form. */
  lemma {:induction false} EnterOk(x: Setting, name: FName, caps: seq<TVal>, arg: TVal, fuel: nat)
    requires Good(x) && ValueOk(Clo(name, caps), x.ar) && ValueOk(arg, x.ar)
    ensures Enter(Target(x), name, caps, arg, fuel) == CallT(x.p.funcs, name, caps, arg, fuel)
    decreases fuel, 0, 0
  {
    hide EvalTail, EvalT, ValueOk, ToTail, Peephole, BranchesInTail, Straight, BodyOk, ProgramOk;
    if fuel > 0 {
      LookupNormalized(x.p.funcs, x.fuse, x.raise, name);
      var f := Lookup(x.p.funcs, name);
      if f.Some? {
        FunctionFits(x, f.value, caps);
        var m := Mode(Some(name), f.value.recursive, x.fuse);
        CloParts(Clo(name, caps), x.ar);
        AgreesIdentity([arg]);
        TailOk(x, f.value.body, IDENTITY, m, [arg], [arg], caps, fuel - 1);
        ToTailSites(f.value.body, IDENTITY, m, x.ar, 1, |caps|);
        PeepholeOk(Target(x), ToTail(f.value.body, IDENTITY, m), Some(name), f.value.recursive, x.raise, x.ar, [arg], caps, fuel - 1);
      }
    }
  }

  lemma FunctionFits(x: Setting, f: Func, caps: seq<TVal>)
    requires Good(x) && f in x.p.funcs && ValueOk(Clo(f.name, caps), x.ar)
    ensures BranchesInTail(f.body) == true && BodyOk(f.body, x.ar, 1, |caps|) == true
    ensures SelfFits(Some(f.name), x.ar, caps)
  {
    hide BranchesInTail, BodyOk;
  }

  // ---- operands ----

  /** The `let`s of a callee and its argument: both atoms name the right values afterwards. */
  ghost predicate PairComputes(x: Setting, c: Cir, s: Shift, env: seq<TVal>, scope: seq<TVal>, caps: seq<TVal>, fuel: nat)
    requires c.CallClosure?
  {
    var f := Atomize(c.f, s, x.fuse);
    var a := Atomize(c.a, Pushed(s, 0, |f.binds|), x.fuse);
    var sc := RunBinds(Target(x), f.binds + a.binds, scope, caps, fuel);
    var fv, av := EvalT(x.p.funcs, c.f, env, caps, fuel), EvalT(x.p.funcs, c.a, env, caps, fuel);
    if sc.Done? then
      && fv.Done? && av.Done? && OutcomeOk(fv, x.ar) && OutcomeOk(av, x.ar)
      && EvalAtom(ShiftAtom(f.atom, 0, |a.binds|), sc.value, caps) == fv
      && EvalAtom(a.atom, sc.value, caps) == av
    else EvalT(x.p.funcs, c, env, caps, fuel) == sc.PropagateFailure<TVal>()
  }

  lemma {:induction false} PairOk(x: Setting, c: Cir, s: Shift, env: seq<TVal>, scope: seq<TVal>, caps: seq<TVal>, fuel: nat)
    requires c.CallClosure? && Good(x) && Straight(c) && ScopeFits(c, x.ar, env, caps) && Agrees(s, env, scope)
    ensures PairComputes(x, c, s, env, scope, caps, fuel)
    decreases fuel, 1, c, 0
  {
    hide Good, Agrees, ScopeFits, RunBinds, Enter, Pushed, ShiftAtom, EvalAtom, ValueOk, Target;
    CallFits(c, x.ar, env, caps);
    var tf := Target(x);
    var f := Atomize(c.f, s, x.fuse);
    var a := Atomize(c.a, Pushed(s, 0, |f.binds|), x.fuse);
    AtomizeOk(x, c.f, s, env, scope, caps, fuel);
    EvalFits(x, c.f, env, caps, fuel);
    RunAppend(tf, f.binds, a.binds, scope, caps, fuel);
    var sc1 := RunBinds(tf, f.binds, scope, caps, fuel);
    if sc1.Done? {
      AgreesPushed(s, env, scope, sc1.value, |f.binds|);
      AtomizeOk(x, c.a, Pushed(s, 0, |f.binds|), env, sc1.value, caps, fuel);
      EvalFits(x, c.a, env, caps, fuel);
      var sc2 := RunBinds(tf, a.binds, sc1.value, caps, fuel);
      if sc2.Done? { ShiftedAtom(f.atom, sc1.value, sc2.value, |a.binds|, caps); }
    }
  }

  lemma {:induction false} CallOk(x: Setting, c: Cir, s: Shift, env: seq<TVal>, scope: seq<TVal>, caps: seq<TVal>, fuel: nat)
    requires c.CallClosure? && !(x.fuse && c.f.MkClosure? && c.f.caps == [])
    requires Good(x) && Straight(c) && ScopeFits(c, x.ar, env, caps) && Agrees(s, env, scope)
    ensures Computes(Target(x), Atomize(c, s, x.fuse), scope, caps, fuel, EvalT(x.p.funcs, c, env, caps, fuel))
    decreases fuel, 1, c, 1
  {
    hide Good, Agrees, ScopeFits, RunBinds, Enter, Pushed, ShiftAtom, EvalAtom, ValueOk, Target;
    var tf := Target(x);
    var f := Atomize(c.f, s, x.fuse);
    var a := Atomize(c.a, Pushed(s, 0, |f.binds|), x.fuse);
    PairOk(x, c, s, env, scope, caps, fuel);
    var call := Call(ShiftAtom(f.atom, 0, |a.binds|), a.atom);
    RunSnoc(tf, f.binds + a.binds, call, scope, caps, fuel);
    var sc := RunBinds(tf, f.binds + a.binds, scope, caps, fuel);
    if sc.Done? {
      var fv, av := EvalT(x.p.funcs, c.f, env, caps, fuel).value, EvalT(x.p.funcs, c.a, env, caps, fuel).value;
      CallValueOk(x, fv, av, fuel);
      CalledT(x.p.funcs, c, env, caps, fuel);
      assert EvalComp(tf, call, sc.value, caps, fuel) == AnfLang.Apply(tf, fv, av, fuel);
      SlotOk(AnfLang.Apply(tf, fv, av, fuel), sc.value, caps);
    }
  }

  /** The freshly bound slot is index 0. */
  lemma SlotOk(v: Outcome<TVal>, scope: seq<TVal>, caps: seq<TVal>)
    ensures v.Done? ==> EvalAtom(Atom.Var(0), [v.value] + scope, caps) == v
  {}

  lemma CallFits(c: Cir, ar: map<FName, nat>, env: seq<TVal>, caps: seq<TVal>)
    requires c.CallClosure? && ScopeFits(c, ar, env, caps)
    ensures ScopeFits(c.f, ar, env, caps) && ScopeFits(c.a, ar, env, caps)
  {
    hide ValueOk;
  }

  lemma EvalFits(x: Setting, c: Cir, env: seq<TVal>, caps: seq<TVal>, fuel: nat)
    requires Good(x) && ScopeFits(c, x.ar, env, caps)
    ensures OutcomeOk(EvalT(x.p.funcs, c, env, caps, fuel), x.ar)
  {
    hide ValueOk, BodyOk, EvalT;
    EvalOk(x.p.funcs, x.ar, c, env, caps, fuel);
  }

  /** A call whose operands evaluate, seen from the converted program. */
  lemma CalledT(funcs: seq<Func>, c: Cir, env: seq<TVal>, caps: seq<TVal>, fuel: nat)
    requires c.CallClosure?
    requires EvalT(funcs, c.f, env, caps, fuel).Done? && EvalT(funcs, c.a, env, caps, fuel).Done?
    ensures var fv, av := EvalT(funcs, c.f, env, caps, fuel).value, EvalT(funcs, c.a, env, caps, fuel).value;
            EvalT(funcs, c, env, caps, fuel) == if fv.Clo? then CallT(funcs, fv.code, fv.env, av, fuel) else Stuck
  {}

  lemma {:induction false} CallValueOk(x: Setting, fv: TVal, av: TVal, fuel: nat)
    requires Good(x) && ValueOk(fv, x.ar) && ValueOk(av, x.ar)
    ensures AnfLang.Apply(Target(x), fv, av, fuel)
         == if fv.Clo? then CallT(x.p.funcs, fv.code, fv.env, av, fuel) else Stuck
    decreases fuel, 0, 1
  {
    hide Enter, ValueOk, CallT, Good, Target;
    if fv.Clo? {
      assert fv == Clo(fv.code, fv.env);
      EnterOk(x, fv.code, fv.env, av, fuel);
    }
  }

  /** A captureless callee called directly. */
  lemma {:induction false} FusedOk(x: Setting, c: Cir, s: Shift, env: seq<TVal>, scope: seq<TVal>, caps: seq<TVal>, fuel: nat)
    requires c.CallClosure? && x.fuse && c.f.MkClosure? && c.f.caps == []
    requires Good(x) && Straight(c) && ScopeFits(c, x.ar, env, caps) && Agrees(s, env, scope)
    ensures Computes(Target(x), Atomize(c, s, x.fuse), scope, caps, fuel, EvalT(x.p.funcs, c, env, caps, fuel))
    decreases fuel, 1, c, 1
  {
    hide Good, Agrees, ScopeFits, RunBinds, Enter, Pushed, ShiftAtom, EvalAtom, ValueOk, Target;
    CallFits(c, x.ar, env, caps);
    var tf := Target(x);
    var a := Atomize(c.a, s, x.fuse);
    var fv := Clo(c.f.name, []);
    CaptureLess(x, c.f, env, caps, fuel);
    EvalFits(x, c.f, env, caps, fuel);
    AtomizeOk(x, c.a, s, env, scope, caps, fuel);
    EvalFits(x, c.a, env, caps, fuel);
    RunSnoc(tf, a.binds, CallGlobal(c.f.name, a.atom), scope, caps, fuel);
    var sc := RunBinds(tf, a.binds, scope, caps, fuel);
    if sc.Done? {
      var av := EvalT(x.p.funcs, c.a, env, caps, fuel).value;
      CallValueOk(x, fv, av, fuel);
      CalledT(x.p.funcs, c, env, caps, fuel);
      assert EvalComp(tf, CallGlobal(c.f.name, a.atom), sc.value, caps, fuel) == AnfLang.Apply(tf, fv, av, fuel);
      SlotOk(AnfLang.Apply(tf, fv, av, fuel), sc.value, caps);
    }
  }

  lemma CaptureLess(x: Setting, f: Cir, env: seq<TVal>, caps: seq<TVal>, fuel: nat)
    requires f.MkClosure? && f.caps == []
    ensures EvalT(x.p.funcs, f, env, caps, fuel) == Done(Clo(f.name, []))
  {}

  lemma {:induction false} LetOk(x: Setting, c: Cir, s: Shift, env: seq<TVal>, scope: seq<TVal>, caps: seq<TVal>, fuel: nat)
    requires c.Let? && Good(x) && Straight(c) && ScopeFits(c, x.ar, env, caps) && Agrees(s, env, scope)
    ensures Computes(Target(x), Atomize(c, s, x.fuse), scope, caps, fuel, EvalT(x.p.funcs, c, env, caps, fuel))
    decreases fuel, 1, c, 1
  {
    hide Good, Agrees, ScopeFits, RunBinds, Target, LetShift, EvalAtom;
    var tf := Target(x);
    var v := Atomize(c.v, s, x.fuse);
    var b := Atomize(c.b, LetShift(s, |v.binds|), x.fuse);
    BoundOk(x, c, s, env, scope, caps, fuel);
    RunAppend(tf, v.binds + [Use(v.atom)], b.binds, scope, caps, fuel);
    var xv := EvalT(x.p.funcs, c.v, env, caps, fuel);
    if xv.Done? {
      var sc := RunBinds(tf, v.binds + [Use(v.atom)], scope, caps, fuel).value;
      AtomizeOk(x, c.b, LetShift(s, |v.binds|), [xv.value] + env, sc, caps, fuel);
    }
  }

  /** After the `let`s of a bound term and its own slot, the body's scopes agree. */
  lemma {:induction false} BoundOk(x: Setting, c: Cir, s: Shift, env: seq<TVal>, scope: seq<TVal>, caps: seq<TVal>, fuel: nat)
    requires c.Let? && Good(x) && Straight(c.v) && ScopeFits(c, x.ar, env, caps) && Agrees(s, env, scope)
    ensures var v := Atomize(c.v, s, x.fuse);
            var sc := RunBinds(Target(x), v.binds + [Use(v.atom)], scope, caps, fuel);
            var xv := EvalT(x.p.funcs, c.v, env, caps, fuel);
            if xv.Done? then sc.Done? && ScopeFits(c.b, x.ar, [xv.value] + env, caps)
              && Agrees(LetShift(s, |v.binds|), [xv.value] + env, sc.value)
            else sc == xv.PropagateFailure<seq<TVal>>()
    decreases fuel, 1, c, 0
  {
    hide Good, Agrees, ScopeFits, RunBinds, EvalAtom, Target, ValueOk;
    var tf := Target(x);
    var v := Atomize(c.v, s, x.fuse);
    LetFits(c, x.ar, env, caps);
    AtomizeOk(x, c.v, s, env, scope, caps, fuel);
    EvalFits(x, c.v, env, caps, fuel);
    RunSnoc(tf, v.binds, Use(v.atom), scope, caps, fuel);
    var sc := RunBinds(tf, v.binds, scope, caps, fuel);
    if sc.Done? {
      var xv := EvalT(x.p.funcs, c.v, env, caps, fuel).value;
      BodyScope(c, x.ar, env, caps, xv);
      AgreesUnder(s, env, scope, sc.value, |v.binds|, [xv]);
    }
  }

  lemma LetFits(c: Cir, ar: map<FName, nat>, env: seq<TVal>, caps: seq<TVal>)
    requires c.Let? && ScopeFits(c, ar, env, caps)
    ensures ScopeFits(c.v, ar, env, caps)
  {
    hide ValueOk;
  }

  lemma BodyScope(c: Cir, ar: map<FName, nat>, env: seq<TVal>, caps: seq<TVal>, v: TVal)
    requires c.Let? && ScopeFits(c, ar, env, caps) && ValueOk(v, ar)
    ensures ScopeFits(c.b, ar, [v] + env, caps)
  {
    hide ValueOk;
  }

  lemma {:induction false} OperandsOk(x: Setting, c: Cir, s: Shift, env: seq<TVal>, scope: seq<TVal>, caps: seq<TVal>, fuel: nat)
    requires (c.MkClosure? || c.Prim?) && Good(x) && Straight(c) && ScopeFits(c, x.ar, env, caps) && Agrees(s, env, scope)
    ensures Computes(Target(x), Atomize(c, s, x.fuse), scope, caps, fuel, EvalT(x.p.funcs, c, env, caps, fuel))
    decreases fuel, 1, c, 1
  {
    hide Good, Agrees, ScopeFits, RunBinds, EvalAtom, EvalAtoms, Target, EvalPrim;
    var tf := Target(x);
    var cs := if c.MkClosure? then c.caps else c.args;
    OperandFits(c, cs, x.ar, env, caps);
    SeqOk(x, cs, s, env, scope, caps, fuel);
    var q := Seq(cs, s, x.fuse);
    var comp := if c.MkClosure? then Comp.MkClosure(c.name, q.atoms) else Comp.Prim(c.op, q.atoms);
    RunSnoc(tf, q.binds, comp, scope, caps, fuel);
    var sc := RunBinds(tf, q.binds, scope, caps, fuel);
    if sc.Done? {
      var v := EvalComp(tf, comp, sc.value, caps, fuel);
      SlotOk(v, sc.value, caps);
    }
  }

  lemma OperandFits(c: Cir, cs: seq<Cir>, ar: map<FName, nat>, env: seq<TVal>, caps: seq<TVal>)
    requires (c.MkClosure? && cs == c.caps) || (c.Prim? && cs == c.args)
    requires Straight(c) && ScopeFits(c, ar, env, caps)
    ensures forall k :: 0 <= k < |cs| ==> OperandFit(cs[k], ar, env, caps)
  {
    hide ValueOk;
  }

  ghost predicate OperandFit(c: Cir, ar: map<FName, nat>, env: seq<TVal>, caps: seq<TVal>) {
    Straight(c) == true && ScopeFits(c, ar, env, caps)
  }

  lemma {:induction false} SeqOk(x: Setting, cs: seq<Cir>, s: Shift, env: seq<TVal>, scope: seq<TVal>, caps: seq<TVal>, fuel: nat)
    requires Good(x) && Agrees(s, env, scope)
    requires forall k :: 0 <= k < |cs| ==> OperandFit(cs[k], x.ar, env, caps)
    ensures ComputesSeq(Target(x), Seq(cs, s, x.fuse), scope, caps, fuel, EvalTSeq(x.p.funcs, cs, env, caps, fuel))
    decreases fuel, 1, cs, 0
  {
    hide Good, Agrees, ScopeFits, Target, Pushed, EvalT, Atomize, Straight;
    if cs != [] {
      var m := |cs| - 1;
      var tf := Target(x);
      var front := Seq(cs[..m], s, x.fuse);
      var last := Atomize(cs[m], Pushed(s, 0, |front.binds|), x.fuse);
      SeqOk(x, cs[..m], s, env, scope, caps, fuel);
      RunAppend(tf, front.binds, last.binds, scope, caps, fuel);
      var sc1 := RunBinds(tf, front.binds, scope, caps, fuel);
      if sc1.Done? {
        AgreesPushed(s, env, scope, sc1.value, |front.binds|);
        assert OperandFit(cs[m], x.ar, env, caps);
        AtomizeOk(x, cs[m], Pushed(s, 0, |front.binds|), env, sc1.value, caps, fuel);
        var sc2 := RunBinds(tf, last.binds, sc1.value, caps, fuel);
        if sc2.Done? {
          ShiftedAtoms(front.atoms, sc1.value, sc2.value, |last.binds|, caps);
          AtomsSnoc(ShiftAtoms(front.atoms, |last.binds|), last.atom, sc2.value, caps);
        }
      }
    }
  }

  lemma AtomsSnoc(atoms: seq<Atom>, a: Atom, scope: seq<TVal>, caps: seq<TVal>)
    requires EvalAtoms(atoms, scope, caps).Done? && EvalAtom(a, scope, caps).Done?
    ensures EvalAtoms(atoms + [a], scope, caps) == Done(EvalAtoms(atoms, scope, caps).value + [EvalAtom(a, scope, caps).value])
  {
    assert (atoms + [a])[..|atoms|] == atoms;
  }

  // ---- tails ----

  lemma {:induction false} TailOk(
    x: Setting, c: Cir, s: Shift, m: Mode, env: seq<TVal>, scope: seq<TVal>, caps: seq<TVal>, fuel: nat)
    requires Good(x) && BranchesInTail(c) && ScopeFits(c, x.ar, env, caps) && Agrees(s, env, scope)
    requires m.fuse == x.fuse && SelfFits(m.self, x.ar, caps)
    ensures EvalTail(Target(x), ToTail(c, s, m), scope, caps, m.self, fuel) == EvalT(x.p.funcs, c, env, caps, fuel)
    decreases fuel, 2, c, 1
  {
    hide Good, Target, Agrees, ScopeFits, EvalTail, EvalT, SelfFits, Straight;
    match c
    case CallClosure(f, a) => TailCallOk(x, c, s, m, env, scope, caps, fuel);
    case Case(_, _) => TailCaseOk(x, c, s, m, env, scope, caps, fuel);
    case IfZero(_, _, _) => TailIfOk(x, c, s, m, env, scope, caps, fuel);
    case Let(_, _) => TailLetOk(x, c, s, m, env, scope, caps, fuel);
    case App(_, _) => NotApp(c);
    case _ =>
      AtomizeOk(x, c, s, env, scope, caps, fuel);
      TailRetOk(x, c, s, m, env, scope, caps, fuel);
  }

  lemma NotApp(c: Cir)
    requires c.App?
    ensures !BranchesInTail(c)
  {}

  lemma TailRetOk(x: Setting, c: Cir, s: Shift, m: Mode, env: seq<TVal>, scope: seq<TVal>, caps: seq<TVal>, fuel: nat)
    requires !c.CallClosure? && !c.App? && !c.Case? && !c.IfZero? && !c.Let? && m.fuse == x.fuse
    requires Computes(Target(x), Atomize(c, s, x.fuse), scope, caps, fuel, EvalT(x.p.funcs, c, env, caps, fuel))
    ensures EvalTail(Target(x), ToTail(c, s, m), scope, caps, m.self, fuel) == EvalT(x.p.funcs, c, env, caps, fuel)
  {
    hide Target, Atomize, EvalT, RunBinds, Wrap;
    var a := Atomize(c, s, x.fuse);
    WrapRuns(Target(x), a.binds, Ret(a.atom), scope, caps, m.self, fuel);
  }

  lemma {:induction false} TailLetOk(
    x: Setting, c: Cir, s: Shift, m: Mode, env: seq<TVal>, scope: seq<TVal>, caps: seq<TVal>, fuel: nat)
    requires c.Let? && Good(x) && BranchesInTail(c) && ScopeFits(c, x.ar, env, caps) && Agrees(s, env, scope)
    requires m.fuse == x.fuse && SelfFits(m.self, x.ar, caps)
    ensures EvalTail(Target(x), ToTail(c, s, m), scope, caps, m.self, fuel) == EvalT(x.p.funcs, c, env, caps, fuel)
    decreases fuel, 2, c, 0
  {
    hide Good, Target, Agrees, ScopeFits, SelfFits, Straight, RunBinds, Atomize, EvalTail, LetShift;
    var v := Atomize(c.v, s, x.fuse);
    var binds := v.binds + [Use(v.atom)];
    BoundOk(x, c, s, env, scope, caps, fuel);
    WrapRuns(Target(x), binds, ToTail(c.b, LetShift(s, |v.binds|), m), scope, caps, m.self, fuel);
    var sc := RunBinds(Target(x), binds, scope, caps, fuel);
    if sc.Done? {
      var xv := EvalT(x.p.funcs, c.v, env, caps, fuel).value;
      TailOk(x, c.b, LetShift(s, |v.binds|), m, [xv] + env, sc.value, caps, fuel);
    }
  }

  lemma {:induction false} TailIfOk(
    x: Setting, c: Cir, s: Shift, m: Mode, env: seq<TVal>, scope: seq<TVal>, caps: seq<TVal>, fuel: nat)
    requires c.IfZero? && Good(x) && BranchesInTail(c) && ScopeFits(c, x.ar, env, caps) && Agrees(s, env, scope)
    requires m.fuse == x.fuse && SelfFits(m.self, x.ar, caps)
    ensures EvalTail(Target(x), ToTail(c, s, m), scope, caps, m.self, fuel) == EvalT(x.p.funcs, c, env, caps, fuel)
    decreases fuel, 2, c, 0
  {
    hide Good, Target, Agrees, ScopeFits, SelfFits, Straight, RunBinds, Atomize, Pushed, EvalAtom;
    IfFits(c, x.ar, env, caps);
    var a := Atomize(c.scrut, s, x.fuse);
    var branch := Pushed(s, 0, |a.binds|);
    AtomizeOk(x, c.scrut, s, env, scope, caps, fuel);
    WrapRuns(Target(x), a.binds, Tail.IfZero(a.atom, ToTail(c.then_, branch, m), ToTail(c.else_, branch, m)), scope, caps, m.self, fuel);
    var sc := RunBinds(Target(x), a.binds, scope, caps, fuel);
    if sc.Done? {
      AgreesPushed(s, env, scope, sc.value, |a.binds|);
      TailOk(x, c.then_, branch, m, env, sc.value, caps, fuel);
      TailOk(x, c.else_, branch, m, env, sc.value, caps, fuel);
    }
  }

  lemma IfFits(c: Cir, ar: map<FName, nat>, env: seq<TVal>, caps: seq<TVal>)
    requires c.IfZero? && ScopeFits(c, ar, env, caps)
    ensures ScopeFits(c.scrut, ar, env, caps) && ScopeFits(c.then_, ar, env, caps) && ScopeFits(c.else_, ar, env, caps)
  {
    hide ValueOk;
  }

  lemma {:induction false} TailCaseOk(
    x: Setting, c: Cir, s: Shift, m: Mode, env: seq<TVal>, scope: seq<TVal>, caps: seq<TVal>, fuel: nat)
    requires c.Case? && Good(x) && BranchesInTail(c) && ScopeFits(c, x.ar, env, caps) && Agrees(s, env, scope)
    requires m.fuse == x.fuse && SelfFits(m.self, x.ar, caps)
    ensures EvalTail(Target(x), ToTail(c, s, m), scope, caps, m.self, fuel) == EvalT(x.p.funcs, c, env, caps, fuel)
    decreases fuel, 2, c, 0
  {
    hide Good, Target, Agrees, ScopeFits, SelfFits, Straight, RunBinds, Atomize, ArmShift, EvalAtom, ValueOk;
    CaseFits(c, x.ar, env, caps);
    var a := Atomize(c.scrut, s, x.fuse);
    var arms := c.arms;
    var arms' := ToTailArms(arms, s, |a.binds|, m);
    AtomizeOk(x, c.scrut, s, env, scope, caps, fuel);
    EvalFits(x, c.scrut, env, caps, fuel);
    WrapRuns(Target(x), a.binds, Tail.Case(a.atom, arms'), scope, caps, m.self, fuel);
    var sc := RunBinds(Target(x), a.binds, scope, caps, fuel);
    if sc.Done? {
      var v := EvalT(x.p.funcs, c.scrut, env, caps, fuel).value;
      if v.Con? {
        SameArm(arms, arms', v.con);
        var found := FindArm(arms, v.con);
        if found.Some? && arms[found.value].binders <= |v.args| {
          var k := found.value;
          var vs := Reverse(v.args[..arms[k].binders]);
          ArmScope(c, k, v, x.ar, env, caps);
          ArmAgrees(s, env, scope, sc.value, |a.binds|, vs);
          TailOk(x, arms[k].body, ArmShift(s, arms[k].binders, |a.binds|), m, vs + env, vs + sc.value, caps, fuel);
        }
      }
    }
  }

  lemma ArmAgrees(s: Shift, env: seq<TVal>, scope: seq<TVal>, scope': seq<TVal>, n: nat, vs: seq<TVal>)
    requires Agrees(s, env, scope) && |scope'| == n + |scope| && scope'[n..] == scope
    ensures Agrees(ArmShift(s, |vs|, n), vs + env, vs + scope')
  {
    hide Agrees, Pushed, UnderBinders;
    AgreesUnder(s, env, scope, scope', n, vs);
  }

  lemma CaseFits(c: Cir, ar: map<FName, nat>, env: seq<TVal>, caps: seq<TVal>)
    requires c.Case? && ScopeFits(c, ar, env, caps)
    ensures ScopeFits(c.scrut, ar, env, caps)
  {
    hide ValueOk;
  }

  lemma ArmScope(c: Cir, k: nat, v: TVal, ar: map<FName, nat>, env: seq<TVal>, caps: seq<TVal>)
    requires c.Case? && k < |c.arms| && ScopeFits(c, ar, env, caps)
    requires v.Con? && ValueOk(v, ar) && c.arms[k].binders <= |v.args|
    ensures ScopeFits(c.arms[k].body, ar, Reverse(v.args[..c.arms[k].binders]) + env, caps)
  {
    hide ValueOk;
    FieldsOk(v, c.arms[k].binders, env, ar);
  }

  lemma {:induction false} SameArm(arms: seq<Arm>, others: seq<TailArm>, con: string)
    requires |arms| == |others|
    requires forall k :: 0 <= k < |arms| ==> arms[k].con == others[k].con
    ensures FindArm(arms, con) == FindTailArm(others, con)
  {
    if arms != [] { SameArm(arms[1..], others[1..], con); }
  }

  lemma {:induction false} TailCallOk(
    x: Setting, c: Cir, s: Shift, m: Mode, env: seq<TVal>, scope: seq<TVal>, caps: seq<TVal>, fuel: nat)
    requires c.CallClosure? && Good(x) && Straight(c) && ScopeFits(c, x.ar, env, caps) && Agrees(s, env, scope)
    requires m.fuse == x.fuse && SelfFits(m.self, x.ar, caps)
    ensures EvalTail(Target(x), ToTail(c, s, m), scope, caps, m.self, fuel) == EvalT(x.p.funcs, c, env, caps, fuel)
    decreases fuel, 2, c, 0
  {
    hide Good, Target, Agrees, ScopeFits, SelfFits, RunBinds, Atomize, Pushed, EvalAtom, ValueOk, Enter, EvalT, ShiftAtom;
    if m.self.Some? && m.recursive && c.f.MkClosure? && c.f.name == m.self.value && c.f.caps == [] {
      SelfTailCallOk(x, c, s, m, env, scope, caps, fuel);
    } else {
      var tf := Target(x);
      var f := Atomize(c.f, s, x.fuse);
      var a := Atomize(c.a, Pushed(s, 0, |f.binds|), x.fuse);
      var fa := ShiftAtom(f.atom, 0, |a.binds|);
      var jump := m.self.Some? && m.recursive && fa == Atom.Global(m.self.value);
      var t := if jump then Jump(a.atom) else TailCall(fa, a.atom);
      PairOk(x, c, s, env, scope, caps, fuel);
      WrapRuns(tf, f.binds + a.binds, t, scope, caps, m.self, fuel);
      assert ToTail(c, s, m) == Wrap(f.binds + a.binds, t);
      var sc := RunBinds(tf, f.binds + a.binds, scope, caps, fuel);
      if sc.Done? {
        var fv, av := EvalT(x.p.funcs, c.f, env, caps, fuel).value, EvalT(x.p.funcs, c.a, env, caps, fuel).value;
        CallValueOk(x, fv, av, fuel);
        CalledT(x.p.funcs, c, env, caps, fuel);
        if jump { GlobalSelf(m.self.value, fv, sc.value, x.ar, caps); }
        assert EvalTail(tf, t, sc.value, caps, m.self, fuel) == AnfLang.Apply(tf, fv, av, fuel);
      }
    }
  }

  /** A global naming the current function is that function with its own, empty environment. */
  lemma GlobalSelf(self: FName, fv: TVal, scope: seq<TVal>, ar: map<FName, nat>, caps: seq<TVal>)
    requires EvalAtom(Atom.Global(self), scope, caps) == Done(fv) && ValueOk(fv, ar) && SelfFits(Some(self), ar, caps)
    ensures fv == Clo(self, caps)
  {
    hide ValueOk;
    CloParts(fv, ar);
  }

  /** A captureless recursive function calling itself re-enters with the environment it has. */
  lemma {:induction false} SelfTailCallOk(
    x: Setting, c: Cir, s: Shift, m: Mode, env: seq<TVal>, scope: seq<TVal>, caps: seq<TVal>, fuel: nat)
    requires c.CallClosure? && Good(x) && Straight(c) && ScopeFits(c, x.ar, env, caps) && Agrees(s, env, scope)
    requires m.fuse == x.fuse && SelfFits(m.self, x.ar, caps)
    requires m.self.Some? && m.recursive && c.f.MkClosure? && c.f.name == m.self.value && c.f.caps == []
    ensures EvalTail(Target(x), ToTail(c, s, m), scope, caps, m.self, fuel) == EvalT(x.p.funcs, c, env, caps, fuel)
    decreases fuel, 2, c, 0, 0
  {
    hide Good, Target, Agrees, ScopeFits, RunBinds, Atomize, EvalAtom, ValueOk, Enter;
    CallFits(c, x.ar, env, caps);
    var tf := Target(x);
    var a := Atomize(c.a, s, x.fuse);
    var fv := Clo(c.f.name, []);
    CaptureLess(x, c.f, env, caps, fuel);
    EvalFits(x, c.f, env, caps, fuel);
    CloParts(fv, x.ar);
    AtomizeOk(x, c.a, s, env, scope, caps, fuel);
    EvalFits(x, c.a, env, caps, fuel);
    WrapRuns(tf, a.binds, Jump(a.atom), scope, caps, m.self, fuel);
    var sc := RunBinds(tf, a.binds, scope, caps, fuel);
    if sc.Done? {
      var av := EvalT(x.p.funcs, c.a, env, caps, fuel).value;
      CallValueOk(x, fv, av, fuel);
      CalledT(x.p.funcs, c, env, caps, fuel);
      assert caps == [];
    }
  }

  // ---- main results ----

  /** Normalizing a well-formed program whose branches are all in tail position changes no outcome:
      the same value, the same failure, and at the same number of calls. */
  lemma NormalizePreserves(p: Program, ar: map<FName, nat>, fuse: bool, raise: bool, fuel: nat)
    requires ProgramOk(p, ar) && ProgramInFragment(p)
    ensures RunProgram(NormalizeProgram(p, fuse, raise), fuel) == EvalT(p.funcs, p.entry, [], [], fuel)
  {
    hide ToTail, Peephole, EvalTail, BranchesInTail, BodyOk;
    var x := Setting(p, ar, fuse, raise);
    var m := Mode(None, false, fuse);
    AgreesIdentity([]);
    TailOk(x, p.entry, IDENTITY, m, [], [], [], fuel);
    ToTailSites(p.entry, IDENTITY, m, ar, 0, 0);
    PeepholeOk(Target(x), ToTail(p.entry, IDENTITY, m), None, false, raise, ar, [], [], fuel);
  }
}
