/** What a normal form contains: no bare global, only closures with the right number of captures, only
    captures the function has, and jumps only in recursive functions. */
module NormalizeFits {
  import opened Basics
  import opened Values
  import opened CirLang
  import opened AnfLang
  import opened DeferredShift
  import opened Normalize
  import opened ClosureWf
  import opened ClosureNames

  /** `ar` gives the captures of every known function; the body at hand has `n` captures. */
  predicate Fits(c: Cir, ar: map<FName, nat>, n: nat) {
    match c
    case Var(_) => true
    case EnvRef(k) => k < n
    case Global(_) => false
    case Erased => true
    case Lam(_) => true
    case Fix(_) => true
    case App(f, a) => Fits(f, ar, n) && Fits(a, ar, n)
    case CallClosure(f, a) => Fits(f, ar, n) && Fits(a, ar, n)
    case Let(v, b) => Fits(v, ar, n) && Fits(b, ar, n)
    case Case(s, arms) => Fits(s, ar, n) && forall k :: 0 <= k < |arms| ==> Fits(arms[k].body, ar, n)
    case IfZero(s, t, e) => Fits(s, ar, n) && Fits(t, ar, n) && Fits(e, ar, n)
    case MkClosure(name, caps) =>
      name in ar && |caps| == ar[name] && forall k :: 0 <= k < |caps| ==> Fits(caps[k], ar, n)
    case Prim(_, args) => forall k :: 0 <= k < |args| ==> Fits(args[k], ar, n)
  }

  predicate AtomFits(a: Atom, n: nat) {
    !a.Global? && (a.EnvRef? ==> a.k < n)
  }

  predicate AtomsFit(atoms: seq<Atom>, n: nat) {
    forall k :: 0 <= k < |atoms| ==> AtomFits(atoms[k], n)
  }

  predicate CompFits(c: Comp, ar: map<FName, nat>, n: nat) {
    match c
    case Use(a) => AtomFits(a, n)
    case MkClosure(name, caps) => name in ar && |caps| == ar[name] && AtomsFit(caps, n)
    case Call(f, a) => AtomFits(f, n) && AtomFits(a, n)
    case CallGlobal(name, a) => name in ar && AtomFits(a, n)
    case CallKnown(_, _, _) => false
    case Prim(_, args) => AtomsFit(args, n)
  }

  predicate CompsFit(cs: seq<Comp>, ar: map<FName, nat>, n: nat) {
    forall k :: 0 <= k < |cs| ==> CompFits(cs[k], ar, n)
  }

  predicate TailFits(t: Tail, ar: map<FName, nat>, n: nat, jumps: bool) {
    match t
    case Ret(a) => AtomFits(a, n)
    case Let(c, rest) => CompFits(c, ar, n) && TailFits(rest, ar, n, jumps)
    case TailCall(f, a) => AtomFits(f, n) && AtomFits(a, n)
    case Jump(a) => jumps && AtomFits(a, n)
    case TailCallGlobal(name, a) => name in ar && AtomFits(a, n)
    case TailCallKnown(_, _, _) => false
    case Case(s, arms) => AtomFits(s, n) && forall k :: 0 <= k < |arms| ==> TailFits(arms[k].body, ar, n, jumps)
    case IfZero(s, a, b) => AtomFits(s, n) && TailFits(a, ar, n, jumps) && TailFits(b, ar, n, jumps)
  }

  // ---- converted bodies fit ----

  function Only(ar: map<FName, nat>, known: set<FName>): map<FName, nat> {
    map g | g in ar && g in known :: ar[g]
  }

  lemma {:induction false} BodyFits(c: Cir, ar: map<FName, nat>, known: set<FName>, locals: nat, n: nat)
    requires BodyOk(c, ar, locals, n) && Refers(c, known)
    ensures Fits(c, Only(ar, known), n)
    decreases c
  {
    match c
    case CallClosure(f, a) =>
      BodyFits(f, ar, known, locals, n);
      BodyFits(a, ar, known, locals, n);
    case Let(v, b) =>
      BodyFits(v, ar, known, locals, n);
      BodyFits(b, ar, known, locals + 1, n);
    case Case(s, arms) =>
      BodyFits(s, ar, known, locals, n);
      forall k | 0 <= k < |arms| ensures Fits(arms[k].body, Only(ar, known), n) {
        BodyFits(arms[k].body, ar, known, locals + arms[k].binders, n);
      }
    case IfZero(s, t, e) =>
      BodyFits(s, ar, known, locals, n);
      BodyFits(t, ar, known, locals, n);
      BodyFits(e, ar, known, locals, n);
    case MkClosure(_, caps) =>
      forall k | 0 <= k < |caps| ensures Fits(caps[k], Only(ar, known), n) {
        BodyFits(caps[k], ar, known, locals, n);
      }
    case Prim(_, args) =>
      forall k | 0 <= k < |args| ensures Fits(args[k], Only(ar, known), n) {
        BodyFits(args[k], ar, known, locals, n);
      }
    case _ =>
  }

  // ---- emission ----

  ghost predicate AnfFits(x: Anf, ar: map<FName, nat>, n: nat) {
    CompsFit(x.binds, ar, n) && AtomFits(x.atom, n)
  }

  ghost predicate AnfSeqFits(x: AnfSeq, ar: map<FName, nat>, n: nat) {
    CompsFit(x.binds, ar, n) && AtomsFit(x.atoms, n)
  }

  lemma Plus(a: seq<Comp>, b: seq<Comp>, ar: map<FName, nat>, n: nat)
    requires CompsFit(a, ar, n) && CompsFit(b, ar, n)
    ensures CompsFit(a + b, ar, n)
  {
    hide CompFits;
  }

  lemma Snoc(a: seq<Comp>, c: Comp, ar: map<FName, nat>, n: nat)
    requires CompsFit(a, ar, n) && CompFits(c, ar, n)
    ensures CompsFit(a + [c], ar, n)
  {
    hide CompFits;
  }

  lemma {:induction false} AtomizeFits(c: Cir, s: Shift, fuse: bool, ar: map<FName, nat>, n: nat)
    requires Fits(c, ar, n)
    ensures AnfFits(Atomize(c, s, fuse), ar, n)
    decreases c, 1
  {
    hide AtomizeCall, CompsFit;
    NoneFit(ar, n);
    match c
    case CallClosure(_, _) => CallFits(c, s, fuse, ar, n);
    case App(_, _) => CallFits(c, s, fuse, ar, n);
    case Let(v, b) =>
      AtomizeFits(v, s, fuse, ar, n);
      var x := Atomize(v, s, fuse);
      AtomizeFits(b, LetShift(s, |x.binds|), fuse, ar, n);
      Snoc(x.binds, Use(x.atom), ar, n);
      Plus(x.binds + [Use(x.atom)], Atomize(b, LetShift(s, |x.binds|), fuse).binds, ar, n);
    case MkClosure(name, caps) =>
      SeqFits(caps, s, fuse, ar, n);
      Snoc(Seq(caps, s, fuse).binds, Comp.MkClosure(name, Seq(caps, s, fuse).atoms), ar, n);
    case Prim(op, args) =>
      SeqFits(args, s, fuse, ar, n);
      Snoc(Seq(args, s, fuse).binds, Comp.Prim(op, Seq(args, s, fuse).atoms), ar, n);
    case _ =>
  }

  lemma NoneFit(ar: map<FName, nat>, n: nat)
    ensures CompsFit([], ar, n)
  {}

  lemma {:induction false} CallFits(c: Cir, s: Shift, fuse: bool, ar: map<FName, nat>, n: nat)
    requires (c.CallClosure? || c.App?) && Fits(c, ar, n)
    ensures AnfFits(AtomizeCall(c, s, fuse), ar, n)
    decreases c, 0
  {
    hide Atomize, CompsFit;
    if fuse && c.f.MkClosure? && c.f.caps == [] {
      AtomizeFits(c.a, s, fuse, ar, n);
      var x := Atomize(c.a, s, fuse);
      Snoc(x.binds, CallGlobal(c.f.name, x.atom), ar, n);
    } else {
      AtomizeFits(c.f, s, fuse, ar, n);
      var x := Atomize(c.f, s, fuse);
      AtomizeFits(c.a, Pushed(s, 0, |x.binds|), fuse, ar, n);
      var y := Atomize(c.a, Pushed(s, 0, |x.binds|), fuse);
      Plus(x.binds, y.binds, ar, n);
      Snoc(x.binds + y.binds, Call(ShiftAtom(x.atom, 0, |y.binds|), y.atom), ar, n);
    }
  }

  lemma {:induction false} SeqFits(cs: seq<Cir>, s: Shift, fuse: bool, ar: map<FName, nat>, n: nat)
    requires forall k :: 0 <= k < |cs| ==> Fits(cs[k], ar, n) == true
    ensures AnfSeqFits(Seq(cs, s, fuse), ar, n)
    decreases cs, 0
  {
    hide Atomize, CompsFit, Fits;
    NoneFit(ar, n);
    if cs != [] {
      var front := Seq(cs[..|cs| - 1], s, fuse);
      SeqFits(cs[..|cs| - 1], s, fuse, ar, n);
      AtomizeFits(cs[|cs| - 1], Pushed(s, 0, |front.binds|), fuse, ar, n);
      Plus(front.binds, Atomize(cs[|cs| - 1], Pushed(s, 0, |front.binds|), fuse).binds, ar, n);
    }
  }

  lemma {:induction false} WrapFits(binds: seq<Comp>, t: Tail, ar: map<FName, nat>, n: nat, jumps: bool)
    requires CompsFit(binds, ar, n) && TailFits(t, ar, n, jumps)
    ensures TailFits(Wrap(binds, t), ar, n, jumps) == true
    decreases |binds|
  {
    hide CompFits;
    if binds != [] { WrapFits(binds[1..], t, ar, n, jumps); }
  }

  lemma {:induction false} ToTailFits(c: Cir, s: Shift, m: Mode, ar: map<FName, nat>, n: nat)
    requires Fits(c, ar, n)
    ensures TailFits(ToTail(c, s, m), ar, n, m.recursive) == true
    decreases c, 1
  {
    hide Atomize, CompsFit, Wrap, TailOfCall, ToTailArms;
    match c
    case CallClosure(f, a) => TailCallFits(f, a, s, m, ar, n);
    case App(f, a) => TailCallFits(f, a, s, m, ar, n);
    case Case(scrut, arms) =>
      AtomizeFits(scrut, s, m.fuse, ar, n);
      var x := Atomize(scrut, s, m.fuse);
      ArmsFit(arms, s, |x.binds|, m, ar, n);
      WrapFits(x.binds, Tail.Case(x.atom, ToTailArms(arms, s, |x.binds|, m)), ar, n, m.recursive);
    case IfZero(scrut, t, e) =>
      AtomizeFits(scrut, s, m.fuse, ar, n);
      var x := Atomize(scrut, s, m.fuse);
      var branch := Pushed(s, 0, |x.binds|);
      ToTailFits(t, branch, m, ar, n);
      ToTailFits(e, branch, m, ar, n);
      WrapFits(x.binds, Tail.IfZero(x.atom, ToTail(t, branch, m), ToTail(e, branch, m)), ar, n, m.recursive);
    case Let(v, b) =>
      AtomizeFits(v, s, m.fuse, ar, n);
      var x := Atomize(v, s, m.fuse);
      ToTailFits(b, LetShift(s, |x.binds|), m, ar, n);
      Snoc(x.binds, Use(x.atom), ar, n);
      WrapFits(x.binds + [Use(x.atom)], ToTail(b, LetShift(s, |x.binds|), m), ar, n, m.recursive);
    case _ =>
      AtomizeFits(c, s, m.fuse, ar, n);
      WrapFits(Atomize(c, s, m.fuse).binds, Ret(Atomize(c, s, m.fuse).atom), ar, n, m.recursive);
  }

  lemma {:induction false} ArmsFit(arms: seq<Arm>, s: Shift, pushed: nat, m: Mode, ar: map<FName, nat>, n: nat)
    requires forall k :: 0 <= k < |arms| ==> Fits(arms[k].body, ar, n) == true
    ensures forall k :: 0 <= k < |arms| ==> TailFits(ToTailArms(arms, s, pushed, m)[k].body, ar, n, m.recursive) == true
    decreases arms, 0
  {
    hide ToTail, Fits, TailFits;
    forall k | 0 <= k < |arms| ensures TailFits(ToTailArms(arms, s, pushed, m)[k].body, ar, n, m.recursive) == true {
      ToTailFits(arms[k].body, ArmShift(s, arms[k].binders, pushed), m, ar, n);
    }
  }

  lemma {:induction false} TailCallFits(f: Cir, a: Cir, s: Shift, m: Mode, ar: map<FName, nat>, n: nat)
    requires Fits(f, ar, n) && Fits(a, ar, n)
    ensures TailFits(TailOfCall(f, a, s, m), ar, n, m.recursive) == true
  {
    hide Atomize, CompsFit, Wrap, Fits;
    AtomizeFits(a, s, m.fuse, ar, n);
    var only := Atomize(a, s, m.fuse);
    if m.recursive { WrapFits(only.binds, Jump(only.atom), ar, n, m.recursive); }
    AtomizeFits(f, s, m.fuse, ar, n);
    var x := Atomize(f, s, m.fuse);
    AtomizeFits(a, Pushed(s, 0, |x.binds|), m.fuse, ar, n);
    var y := Atomize(a, Pushed(s, 0, |x.binds|), m.fuse);
    Plus(x.binds, y.binds, ar, n);
    if m.recursive { WrapFits(x.binds + y.binds, Jump(y.atom), ar, n, m.recursive); }
    WrapFits(x.binds + y.binds, TailCall(ShiftAtom(x.atom, 0, |y.binds|), y.atom), ar, n, m.recursive);
  }

  /** The peephole keeps all of it. */
  lemma {:induction false} PeepholeFits(t: Tail, self: Option<FName>, recursive: bool, raise: bool, ar: map<FName, nat>, n: nat)
    requires TailFits(t, ar, n, recursive)
    ensures TailFits(Peephole(t, self, recursive, raise), ar, n, recursive) == true
    decreases t
  {
    hide IdentityCaptures;
    match t
    case Let(_, rest) => PeepholeFits(rest, self, recursive, raise, ar, n);
    case Case(_, arms) =>
      forall k | 0 <= k < |arms| ensures TailFits(Peephole(arms[k].body, self, recursive, raise), ar, n, recursive) == true {
        PeepholeFits(arms[k].body, self, recursive, raise, ar, n);
      }
    case IfZero(_, a, b) =>
      PeepholeFits(a, self, recursive, raise, ar, n);
      PeepholeFits(b, self, recursive, raise, ar, n);
    case _ =>
  }
}
