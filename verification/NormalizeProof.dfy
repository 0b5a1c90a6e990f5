/** Normalization computes exactly the converted program's outcome. */
module NormalizeProof {
  import opened Basics
  import opened Values
  import opened CirLang
  import opened AnfLang
  import opened DeferredShift
  import opened Normalize
  import opened ClosureWf

  // ---- values of a well-formed program ----

  /** Every closure in `v` carries the number of captures of its function. */
  ghost predicate ValueOk(v: TVal, ar: map<FName, nat>) {
    match v
    case Null => true
    case Scalar(_) => true
    case Con(_, xs) => forall k :: 0 <= k < |xs| ==> ValueOk(xs[k], ar)
    case Tuple(xs) => forall k :: 0 <= k < |xs| ==> ValueOk(xs[k], ar)
    case Clo(name, xs) => name in ar && |xs| == ar[name] && forall k :: 0 <= k < |xs| ==> ValueOk(xs[k], ar)
  }

  ghost predicate ValuesOk(vs: seq<TVal>, ar: map<FName, nat>) {
    forall k :: 0 <= k < |vs| ==> ValueOk(vs[k], ar) == true
  }

  ghost predicate OutcomeOk(o: Outcome<TVal>, ar: map<FName, nat>) {
    o.Done? ==> ValueOk(o.value, ar) == true
  }

  ghost predicate ScopeFits(c: Cir, ar: map<FName, nat>, env: seq<TVal>, caps: seq<TVal>) {
    BodyOk(c, ar, |env|, |caps|) == true && ValuesOk(env, ar) && ValuesOk(caps, ar)
  }

  lemma PrimOk(op: PrimOp, xs: seq<TVal>, ar: map<FName, nat>)
    requires ValuesOk(xs, ar)
    ensures OutcomeOk(EvalPrim(op, xs), ar)
  {}

  lemma CloOk(name: FName, xs: seq<TVal>, ar: map<FName, nat>)
    requires ValuesOk(xs, ar) && name in ar && |xs| == ar[name]
    ensures ValueOk(Clo(name, xs), ar) == true
  {}

  lemma CloParts(v: TVal, ar: map<FName, nat>)
    requires v.Clo? && ValueOk(v, ar)
    ensures v.code in ar && |v.env| == ar[v.code] && ValuesOk(v.env, ar)
  {}

  /** A field list of a good value binds good values. */
  lemma FieldsOk(v: TVal, m: nat, env: seq<TVal>, ar: map<FName, nat>)
    requires v.Con? && ValueOk(v, ar) && m <= |v.args| && ValuesOk(env, ar)
    ensures ValuesOk(Reverse(v.args[..m]) + env, ar)
  {}

  /** At run time all closures of one function carry equally many captures. */
  lemma {:induction false} EvalOk(
    funcs: seq<Func>, ar: map<FName, nat>, c: Cir, env: seq<TVal>, caps: seq<TVal>, fuel: nat)
    requires FuncsOk(funcs, ar) && ScopeFits(c, ar, env, caps)
    ensures OutcomeOk(EvalT(funcs, c, env, caps, fuel), ar)
    decreases fuel, c, 1
  {
    hide ValueOk, FuncsOk;
    match c
    case Var(i) =>
    case EnvRef(k) =>
    case Global(g) => CloOk(g, [], ar);
    case Erased => NullOk(ar);
    case CallClosure(f, a) =>
      EvalOk(funcs, ar, f, env, caps, fuel);
      EvalOk(funcs, ar, a, env, caps, fuel);
      var fv, av := EvalT(funcs, f, env, caps, fuel), EvalT(funcs, a, env, caps, fuel);
      if fv.Done? && av.Done? && fv.value.Clo? && fuel > 0 {
        CloParts(fv.value, ar);
        var g := Lookup(funcs, fv.value.code);
        if g.Some? {
          BodyFits(funcs, ar, g.value);
          EvalOk(funcs, ar, g.value.body, [av.value], fv.value.env, fuel - 1);
        }
      }
    case Let(v, b) =>
      EvalOk(funcs, ar, v, env, caps, fuel);
      var x := EvalT(funcs, v, env, caps, fuel);
      if x.Done? { EvalOk(funcs, ar, b, [x.value] + env, caps, fuel); }
    case Case(s, arms) =>
      EvalOk(funcs, ar, s, env, caps, fuel);
      var x := EvalT(funcs, s, env, caps, fuel);
      if x.Done? && x.value.Con? && FindArm(arms, x.value.con).Some? {
        var k := FindArm(arms, x.value.con).value;
        if arms[k].binders <= |x.value.args| {
          FieldsOk(x.value, arms[k].binders, env, ar);
          EvalOk(funcs, ar, arms[k].body, Reverse(x.value.args[..arms[k].binders]) + env, caps, fuel);
        }
      }
    case IfZero(s, t, e) =>
      EvalOk(funcs, ar, t, env, caps, fuel);
      EvalOk(funcs, ar, e, env, caps, fuel);
    case MkClosure(name, cs) =>
      EvalSeqOk(funcs, ar, cs, env, caps, fuel);
      var xs := EvalTSeq(funcs, cs, env, caps, fuel);
      if xs.Done? { CloOk(name, xs.value, ar); }
    case Prim(op, args) =>
      EvalSeqOk(funcs, ar, args, env, caps, fuel);
      var xs := EvalTSeq(funcs, args, env, caps, fuel);
      if xs.Done? { PrimOk(op, xs.value, ar); }
  }

  lemma NullOk(ar: map<FName, nat>)
    ensures ValueOk(Null, ar) == true
  {}

  lemma BodyFits(funcs: seq<Func>, ar: map<FName, nat>, f: Func)
    requires FuncsOk(funcs, ar) && f in funcs
    ensures f.name in ar && BodyOk(f.body, ar, 1, ar[f.name]) == true
  {}

  lemma {:induction false} EvalSeqOk(
    funcs: seq<Func>, ar: map<FName, nat>, cs: seq<Cir>, env: seq<TVal>, caps: seq<TVal>, fuel: nat)
    requires FuncsOk(funcs, ar)
    requires forall k :: 0 <= k < |cs| ==> ScopeFits(cs[k], ar, env, caps)
    ensures var r := EvalTSeq(funcs, cs, env, caps, fuel); r.Done? ==> ValuesOk(r.value, ar)
    decreases fuel, cs, 0
  {
    hide ValueOk, FuncsOk, BodyOk;
    if cs != [] {
      EvalSeqOk(funcs, ar, cs[..|cs| - 1], env, caps, fuel);
      EvalOk(funcs, ar, cs[|cs| - 1], env, caps, fuel);
    }
  }

  // ---- running the emitted lets ----

  /** The scope after running a block of `let`s. */
  function RunBinds(funcs: seq<AnfFunc>, binds: seq<Comp>, scope: seq<TVal>, caps: seq<TVal>, fuel: nat)
    : (r: Outcome<seq<TVal>>)
    ensures r.Done? ==> |r.value| == |binds| + |scope| && r.value[|binds|..] == scope
  {
    if binds == [] then Done(scope)
    else
      var v :- EvalComp(funcs, binds[0], scope, caps, fuel);
      RunBinds(funcs, binds[1..], [v] + scope, caps, fuel)
  }

  lemma {:induction false} RunAppend(
    funcs: seq<AnfFunc>, a: seq<Comp>, b: seq<Comp>, scope: seq<TVal>, caps: seq<TVal>, fuel: nat)
    ensures RunBinds(funcs, a + b, scope, caps, fuel) ==
      var sc := RunBinds(funcs, a, scope, caps, fuel);
      if sc.Done? then RunBinds(funcs, b, sc.value, caps, fuel) else sc
  {
    hide EvalComp;
    if a == [] {
      assert a + b == b;
    } else {
      assert (a + b)[0] == a[0] && (a + b)[1..] == a[1..] + b;
      var v := EvalComp(funcs, a[0], scope, caps, fuel);
      if v.Done? { RunAppend(funcs, a[1..], b, [v.value] + scope, caps, fuel); }
    }
  }

  lemma {:induction false} WrapRuns(
    funcs: seq<AnfFunc>, binds: seq<Comp>, t: Tail, scope: seq<TVal>, caps: seq<TVal>, cur: Option<FName>, fuel: nat)
    ensures EvalTail(funcs, Wrap(binds, t), scope, caps, cur, fuel) ==
      var sc := RunBinds(funcs, binds, scope, caps, fuel);
      if sc.Done? then EvalTail(funcs, t, sc.value, caps, cur, fuel)
      else if sc.Stuck? then Stuck else Timeout
  {
    hide EvalComp;
    if binds != [] {
      var v := EvalComp(funcs, binds[0], scope, caps, fuel);
      if v.Done? { WrapRuns(funcs, binds[1..], t, [v.value] + scope, caps, cur, fuel); }
    }
  }

  // ---- scopes ----

  /** The ANF scope holds, at every shifted index, what the source scope holds at the index. */
  ghost predicate Agrees(s: Shift, env: seq<TVal>, scope: seq<TVal>) {
    forall i: nat :: i < |env| ==> Holds(scope, DeferredShift.Apply(s, i), env[i])
  }

  ghost predicate Holds(scope: seq<TVal>, i: nat, v: TVal) {
    i < |scope| && scope[i] == v
  }

  lemma AgreesIdentity(env: seq<TVal>)
    ensures Agrees(IDENTITY, env, env)
  {}

  /** After `n` more slots, pushing the shift by `n` keeps the scopes in agreement. */
  lemma AgreesPushed(s: Shift, env: seq<TVal>, scope: seq<TVal>, scope': seq<TVal>, n: nat)
    requires Agrees(s, env, scope) && |scope'| == n + |scope| && scope'[n..] == scope
    ensures Agrees(Pushed(s, 0, n), env, scope')
  {
    hide DeferredShift.Apply, Pushed;
    forall i: nat | i < |env| ensures Holds(scope', DeferredShift.Apply(Pushed(s, 0, n), i), env[i]) {
      assert Holds(scope, DeferredShift.Apply(s, i), env[i]);
      PushedLaw(s, 0, n, i);
      assert scope'[n..][DeferredShift.Apply(s, i)] == scope'[DeferredShift.Apply(s, i) + n];
    }
  }

  /** Binding `vs` on top of `n` more slots, with the outer variables made to skip those slots. */
  lemma AgreesUnder(s: Shift, env: seq<TVal>, scope: seq<TVal>, scope': seq<TVal>, n: nat, vs: seq<TVal>)
    requires Agrees(s, env, scope) && |scope'| == n + |scope| && scope'[n..] == scope
    ensures Agrees(Pushed(UnderBinders(s, |vs|), |vs|, n), vs + env, vs + scope')
  {
    hide DeferredShift.Apply, Pushed, UnderBinders;
    var m := |vs|;
    var s' := Pushed(UnderBinders(s, m), m, n);
    forall i: nat | i < |vs + env| ensures Holds(vs + scope', DeferredShift.Apply(s', i), (vs + env)[i]) {
      UnderBindersLaw(s, m, i);
      PushedLaw(UnderBinders(s, m), m, n, i);
      if i >= m {
        var j := DeferredShift.Apply(s, i - m);
        assert Holds(scope, j, env[i - m]);
        assert scope'[n..][j] == scope'[j + n];
        assert (vs + scope')[j + m + n] == scope'[j + n];
      }
    }
  }

  lemma ShiftedAtom(a: Atom, scope: seq<TVal>, scope': seq<TVal>, n: nat, caps: seq<TVal>)
    requires |scope'| == n + |scope| && scope'[n..] == scope
    ensures EvalAtom(ShiftAtom(a, 0, n), scope', caps) == EvalAtom(a, scope, caps)
  {}

  lemma {:induction false} ShiftedAtoms(atoms: seq<Atom>, scope: seq<TVal>, scope': seq<TVal>, n: nat, caps: seq<TVal>)
    requires |scope'| == n + |scope| && scope'[n..] == scope
    ensures EvalAtoms(ShiftAtoms(atoms, n), scope', caps) == EvalAtoms(atoms, scope, caps)
  {
    if atoms != [] {
      var m := |atoms| - 1;
      ShiftedAtoms(atoms[..m], scope, scope', n, caps);
      ShiftedAtom(atoms[m], scope, scope', n, caps);
      assert ShiftAtoms(atoms, n)[..m] == ShiftAtoms(atoms[..m], n);
    }
  }

  // ---- the peephole ----

  ghost predicate CompSite(c: Comp, ar: map<FName, nat>) {
    c.MkClosure? ==> c.name in ar && |c.caps| == ar[c.name]
  }

  ghost predicate CompSites(binds: seq<Comp>, ar: map<FName, nat>) {
    forall k :: 0 <= k < |binds| ==> CompSite(binds[k], ar)
  }

  /** Every closure built in `t` gets the number of captures of its function. */
  ghost predicate TailSites(t: Tail, ar: map<FName, nat>) {
    match t
    case Let(c, rest) => CompSite(c, ar) && TailSites(rest, ar)
    case Case(_, arms) => forall k :: 0 <= k < |arms| ==> TailSites(arms[k].body, ar)
    case IfZero(_, a, b) => TailSites(a, ar) && TailSites(b, ar)
    case _ => true
  }

  ghost predicate SelfFits(self: Option<FName>, ar: map<FName, nat>, caps: seq<TVal>) {
    self.Some? ==> self.value in ar && ar[self.value] == |caps|
  }

  lemma {:induction false} IdentityEval(atoms: seq<Atom>, scope: seq<TVal>, caps: seq<TVal>)
    requires IdentityCaptures(atoms) && |atoms| <= |caps|
    ensures EvalAtoms(atoms, scope, caps) == Done(caps[..|atoms|])
  {
    if atoms != [] {
      var m := |atoms| - 1;
      IdentityEval(atoms[..m], scope, caps);
      assert caps[..|atoms|] == caps[..m] + [caps[m]];
    }
  }

  /** Dropping the binder of the closure leaves the argument's value alone. */
  lemma ShiftedDown(a: Atom, v: TVal, scope: seq<TVal>, caps: seq<TVal>)
    requires a != Atom.Var(0)
    ensures EvalAtom(ShiftAtomDown(a), scope, caps) == EvalAtom(a, [v] + scope, caps)
  {}

  lemma FusedCall(
    tf: seq<AnfFunc>, comp: Comp, arg: Atom, ar: map<FName, nat>, jump: bool,
    scope: seq<TVal>, caps: seq<TVal>, cur: Option<FName>, fuel: nat)
    requires comp.MkClosure? && CompSite(comp, ar) && arg != Atom.Var(0)
    requires SelfFits(cur, ar, caps)
    requires jump ==> cur == Some(comp.name) && IdentityCaptures(comp.caps)
    requires !jump ==> comp.caps == []
    ensures EvalTail(tf, if jump then Jump(ShiftAtomDown(arg)) else TailCallGlobal(comp.name, ShiftAtomDown(arg)),
                     scope, caps, cur, fuel)
         == EvalTail(tf, Tail.Let(comp, TailCall(Atom.Var(0), arg)), scope, caps, cur, fuel)
  {
    hide Enter;
    var t := if jump then Jump(ShiftAtomDown(arg)) else TailCallGlobal(comp.name, ShiftAtomDown(arg));
    var xs := if jump then caps else [];
    if jump {
      IdentityEval(comp.caps, scope, caps);
      assert caps[..|caps|] == caps;
    }
    var v := Clo(comp.name, xs);
    assert EvalComp(tf, comp, scope, caps, fuel) == Done(v);
    var call := TailCall(Atom.Var(0), arg);
    assert EvalTail(tf, Tail.Let(comp, call), scope, caps, cur, fuel) == EvalTail(tf, call, [v] + scope, caps, cur, fuel);
    ShiftedDown(arg, v, scope, caps);
    var av := EvalAtom(arg, [v] + scope, caps);
    if av.Done? {
      assert EvalTail(tf, call, [v] + scope, caps, cur, fuel) == AnfLang.Apply(tf, v, av.value, fuel);
      assert EvalTail(tf, t, scope, caps, cur, fuel) == Enter(tf, comp.name, xs, av.value, fuel);
    } else {
      assert EvalTail(tf, t, scope, caps, cur, fuel) == av;
    }
  }

  /** The peephole changes no outcome. */
  lemma {:induction false} PeepholeOk(
    tf: seq<AnfFunc>, t: Tail, self: Option<FName>, recursive: bool, raise: bool, ar: map<FName, nat>,
    scope: seq<TVal>, caps: seq<TVal>, fuel: nat)
    requires TailSites(t, ar) && SelfFits(self, ar, caps)
    ensures EvalTail(tf, Peephole(t, self, recursive, raise), scope, caps, self, fuel)
         == EvalTail(tf, t, scope, caps, self, fuel)
    decreases t, 1
  {
    hide Enter, EvalComp, CompSite, SelfFits, EvalAtom;
    match t
    case Let(comp, rest) =>
      var t' := Peephole(t, self, recursive, raise);
      if t'.Let? {
        var v := EvalComp(tf, comp, scope, caps, fuel);
        if v.Done? { PeepholeOk(tf, rest, self, recursive, raise, ar, [v.value] + scope, caps, fuel); }
      } else {
        FusedCall(tf, comp, rest.arg, ar, t'.Jump?, scope, caps, self, fuel);
        assert t == Tail.Let(comp, TailCall(Atom.Var(0), rest.arg));
      }
    case Case(_, _) => PeepholeCase(tf, t, self, recursive, raise, ar, scope, caps, fuel);
    case IfZero(_, a, b) =>
      PeepholeOk(tf, a, self, recursive, raise, ar, scope, caps, fuel);
      PeepholeOk(tf, b, self, recursive, raise, ar, scope, caps, fuel);
    case _ =>
  }

  lemma {:induction false} PeepholeCase(
    tf: seq<AnfFunc>, t: Tail, self: Option<FName>, recursive: bool, raise: bool, ar: map<FName, nat>,
    scope: seq<TVal>, caps: seq<TVal>, fuel: nat)
    requires t.Case? && TailSites(t, ar) && SelfFits(self, ar, caps)
    ensures EvalTail(tf, Peephole(t, self, recursive, raise), scope, caps, self, fuel)
         == EvalTail(tf, t, scope, caps, self, fuel)
    decreases t, 0
  {
    hide CompSite, SelfFits, EvalAtom;
    var x := EvalAtom(t.scrut, scope, caps);
    if x.Done? && x.value.Con? {
      SameTailArm(Peephole(t, self, recursive, raise).arms, t.arms, x.value.con);
      var found := FindTailArm(t.arms, x.value.con);
      if found.Some? && t.arms[found.value].binders <= |x.value.args| {
        var arm := t.arms[found.value];
        PeepholeOk(tf, arm.body, self, recursive, raise, ar, Reverse(x.value.args[..arm.binders]) + scope, caps, fuel);
      }
    }
  }

  // ---- emitted closures have the right number of captures ----

  lemma CompSitesAppend(a: seq<Comp>, b: seq<Comp>, ar: map<FName, nat>)
    requires CompSites(a, ar) && CompSites(b, ar)
    ensures CompSites(a + b, ar)
  {}

  lemma {:induction false} AtomizeSites(c: Cir, s: Shift, fuse: bool, ar: map<FName, nat>, locals: nat, ncaps: nat)
    requires Straight(c) && BodyOk(c, ar, locals, ncaps)
    ensures CompSites(Atomize(c, s, fuse).binds, ar)
    decreases c, 1
  {
    match c
    case CallClosure(f, a) => CallSites(c, s, fuse, ar, locals, ncaps);
    case Let(v, b) =>
      var x := Atomize(v, s, fuse);
      var y := Atomize(b, LetShift(s, |x.binds|), fuse);
      AtomizeSites(v, s, fuse, ar, locals, ncaps);
      AtomizeSites(b, LetShift(s, |x.binds|), fuse, ar, locals + 1, ncaps);
      UseSites(x, ar);
      CompSitesAppend(x.binds + [Use(x.atom)], y.binds, ar);
    case MkClosure(_, caps) => SeqSites(caps, s, fuse, ar, locals, ncaps);
    case Prim(_, args) => SeqSites(args, s, fuse, ar, locals, ncaps);
    case _ =>
  }

  lemma {:induction false} CallSites(c: Cir, s: Shift, fuse: bool, ar: map<FName, nat>, locals: nat, ncaps: nat)
    requires c.CallClosure? && Straight(c) && BodyOk(c, ar, locals, ncaps)
    ensures CompSites(AtomizeCall(c, s, fuse).binds, ar)
    decreases c, 0
  {
    hide BodyOk;
    CallParts(c, ar, locals, ncaps);
    AtomizeSites(c.f, s, fuse, ar, locals, ncaps);
    AtomizeSites(c.a, s, fuse, ar, locals, ncaps);
    AtomizeSites(c.a, Pushed(s, 0, |Atomize(c.f, s, fuse).binds|), fuse, ar, locals, ncaps);
  }

  lemma CallParts(c: Cir, ar: map<FName, nat>, locals: nat, ncaps: nat)
    requires c.CallClosure? && BodyOk(c, ar, locals, ncaps)
    ensures BodyOk(c.f, ar, locals, ncaps) == true && BodyOk(c.a, ar, locals, ncaps) == true
  {}

  lemma {:induction false} SeqSites(cs: seq<Cir>, s: Shift, fuse: bool, ar: map<FName, nat>, locals: nat, ncaps: nat)
    requires forall k :: 0 <= k < |cs| ==> Straight(cs[k]) && BodyOk(cs[k], ar, locals, ncaps) == true
    ensures CompSites(Seq(cs, s, fuse).binds, ar)
    decreases cs, 0
  {
    if cs != [] {
      var m := |cs| - 1;
      SeqSites(cs[..m], s, fuse, ar, locals, ncaps);
      AtomizeSites(cs[m], Pushed(s, 0, |Seq(cs[..m], s, fuse).binds|), fuse, ar, locals, ncaps);
    }
  }

  lemma {:induction false} WrapSites(binds: seq<Comp>, t: Tail, ar: map<FName, nat>)
    requires CompSites(binds, ar) && TailSites(t, ar)
    ensures TailSites(Wrap(binds, t), ar) == true
  {
    if binds != [] { WrapSites(binds[1..], t, ar); }
  }

  lemma {:induction false} ToTailSites(c: Cir, s: Shift, m: Mode, ar: map<FName, nat>, locals: nat, ncaps: nat)
    requires BranchesInTail(c) && BodyOk(c, ar, locals, ncaps)
    ensures TailSites(ToTail(c, s, m), ar) == true
    decreases c, 1
  {
    hide CompSites, TailSites, Atomize, Wrap;
    match c
    case CallClosure(f, a) => TailOfCallSites(c, s, m, ar, locals, ncaps);
    case Case(scrut, arms) => CaseSites(c, s, m, ar, locals, ncaps);
    case IfZero(scrut, t, e) => IfSites(c, s, m, ar, locals, ncaps);
    case Let(v, b) =>
      var x := Atomize(v, s, m.fuse);
      AtomizeSites(v, s, m.fuse, ar, locals, ncaps);
      UseSites(x, ar);
      ToTailSites(b, LetShift(s, |x.binds|), m, ar, locals + 1, ncaps);
      WrapSites(x.binds + [Use(x.atom)], ToTail(b, LetShift(s, |x.binds|), m), ar);
    case App(_, _) =>
    case _ =>
      var x := Atomize(c, s, m.fuse);
      AtomizeSites(c, s, m.fuse, ar, locals, ncaps);
      RetSites(x.atom, ar);
      WrapSites(x.binds, Ret(x.atom), ar);
  }

  lemma RetSites(a: Atom, ar: map<FName, nat>)
    ensures TailSites(Ret(a), ar) == true
  {}

  lemma {:induction false} CaseSites(c: Cir, s: Shift, m: Mode, ar: map<FName, nat>, locals: nat, ncaps: nat)
    requires c.Case? && BranchesInTail(c) && BodyOk(c, ar, locals, ncaps)
    ensures TailSites(ToTail(c, s, m), ar) == true
    decreases c, 0
  {
    hide CompSites, Atomize, Straight, ToTailArms, Wrap;
    var x := Atomize(c.scrut, s, m.fuse);
    AtomizeSites(c.scrut, s, m.fuse, ar, locals, ncaps);
    ArmsSites(c.arms, s, |x.binds|, m, ar, locals, ncaps);
    var t := Tail.Case(x.atom, ToTailArms(c.arms, s, |x.binds|, m));
    assert TailSites(t, ar) == true;
    WrapSites(x.binds, t, ar);
  }

  lemma {:induction false} ArmsSites(arms: seq<Arm>, s: Shift, n: nat, m: Mode, ar: map<FName, nat>, locals: nat, ncaps: nat)
    requires forall k :: 0 <= k < |arms| ==>
      BranchesInTail(arms[k].body) == true && BodyOk(arms[k].body, ar, locals + arms[k].binders, ncaps) == true
    ensures forall k :: 0 <= k < |arms| ==> TailSites(ToTailArms(arms, s, n, m)[k].body, ar) == true
    decreases arms, 0
  {
    hide BranchesInTail, BodyOk, TailSites, ToTail;
    forall k | 0 <= k < |arms| ensures TailSites(ToTailArms(arms, s, n, m)[k].body, ar) == true {
      ToTailSites(arms[k].body, ArmShift(s, arms[k].binders, n), m, ar, locals + arms[k].binders, ncaps);
    }
  }

  lemma {:induction false} IfSites(c: Cir, s: Shift, m: Mode, ar: map<FName, nat>, locals: nat, ncaps: nat)
    requires c.IfZero? && BranchesInTail(c) && BodyOk(c, ar, locals, ncaps)
    ensures TailSites(ToTail(c, s, m), ar) == true
    decreases c, 0
  {
    hide CompSites, Atomize, Straight;
    var x := Atomize(c.scrut, s, m.fuse);
    var branch := Pushed(s, 0, |x.binds|);
    AtomizeSites(c.scrut, s, m.fuse, ar, locals, ncaps);
    ToTailSites(c.then_, branch, m, ar, locals, ncaps);
    ToTailSites(c.else_, branch, m, ar, locals, ncaps);
    WrapSites(x.binds, Tail.IfZero(x.atom, ToTail(c.then_, branch, m), ToTail(c.else_, branch, m)), ar);
  }

  lemma UseSites(x: Anf, ar: map<FName, nat>)
    requires CompSites(x.binds, ar)
    ensures CompSites(x.binds + [Use(x.atom)], ar)
  {}

  lemma TailOfCallSites(c: Cir, s: Shift, m: Mode, ar: map<FName, nat>, locals: nat, ncaps: nat)
    requires c.CallClosure? && Straight(c) && BodyOk(c, ar, locals, ncaps)
    ensures TailSites(TailOfCall(c.f, c.a, s, m), ar)
  {
    hide CompSites;
    var x := Atomize(c.f, s, m.fuse);
    var y := Atomize(c.a, Pushed(s, 0, |x.binds|), m.fuse);
    AtomizeSites(c.f, s, m.fuse, ar, locals, ncaps);
    AtomizeSites(c.a, s, m.fuse, ar, locals, ncaps);
    AtomizeSites(c.a, Pushed(s, 0, |x.binds|), m.fuse, ar, locals, ncaps);
    CompSitesAppend(x.binds, y.binds, ar);
    WrapSites(Atomize(c.a, s, m.fuse).binds, Jump(Atomize(c.a, s, m.fuse).atom), ar);
    WrapSites(x.binds + y.binds, Jump(y.atom), ar);
    WrapSites(x.binds + y.binds, TailCall(ShiftAtom(x.atom, 0, |y.binds|), y.atom), ar);
  }
}
