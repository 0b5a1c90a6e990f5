/** What normalization makes of calls: self tail calls become jumps, captureless callees are called directly,
    and no closure is built only to be tail-called at once. */
module NormalizeCalls {
  import opened Basics
  import opened Values
  import opened CirLang
  import opened AnfLang
  import opened DeferredShift
  import opened Normalize

  // ---- direct calls of captureless callees ----

  /** The direct calls among emitted computations. */
  function Globals(binds: seq<Comp>): nat {
    if binds == [] then 0 else Globals(binds[..|binds| - 1]) + if binds[|binds| - 1].CallGlobal? then 1 else 0
  }

  /** The calls in operand position whose callee is a closure without captures, built on the spot. */
  function SpotCalls(c: Cir): nat
    decreases c, 1
  {
    match c
    case CallClosure(f, a) => if f.MkClosure? && f.caps == [] then 1 + SpotCalls(a) else SpotCalls(f) + SpotCalls(a)
    case App(f, a) => if f.MkClosure? && f.caps == [] then 1 + SpotCalls(a) else SpotCalls(f) + SpotCalls(a)
    case Let(v, b) => SpotCalls(v) + SpotCalls(b)
    case MkClosure(_, caps) => SpotCallsIn(caps)
    case Prim(_, args) => SpotCallsIn(args)
    case _ => 0
  }

  function SpotCallsIn(cs: seq<Cir>): nat
    decreases cs, 0
  {
    if cs == [] then 0 else SpotCallsIn(cs[..|cs| - 1]) + SpotCalls(cs[|cs| - 1])
  }

  lemma {:induction false} GlobalsPlus(a: seq<Comp>, b: seq<Comp>)
    ensures Globals(a + b) == Globals(a) + Globals(b)
    decreases b
  {
    if b == [] {
      assert a + b == a;
    } else {
      assert (a + b)[..|a + b| - 1] == a + b[..|b| - 1];
      GlobalsPlus(a, b[..|b| - 1]);
    }
  }

  lemma GlobalsOne(a: seq<Comp>, c: Comp)
    ensures Globals(a + [c]) == Globals(a) + if c.CallGlobal? then 1 else 0
  {
    assert (a + [c])[..|a|] == a;
  }

  /** When fusing, each such call, and nothing else, becomes a direct call; otherwise none does. */
  lemma {:induction false} SpotCallsFused(c: Cir, s: Shift, fuse: bool)
    ensures Globals(Atomize(c, s, fuse).binds) == if fuse then SpotCalls(c) else 0
    decreases c, 1
  {
    hide Globals, Pushed, LetShift, Seq;
    GlobalsNone();
    match c
    case CallClosure(f, a) => SpotCallFused(c, s, fuse);
    case App(f, a) => SpotCallFused(c, s, fuse);
    case Let(v, b) =>
      var x := Atomize(v, s, fuse);
      var y := Atomize(b, LetShift(s, |x.binds|), fuse);
      SpotCallsFused(v, s, fuse);
      SpotCallsFused(b, LetShift(s, |x.binds|), fuse);
      GlobalsOne(x.binds, Use(x.atom));
      GlobalsPlus(x.binds + [Use(x.atom)], y.binds);
    case MkClosure(name, caps) =>
      SpotCallsInFused(caps, s, fuse);
      GlobalsOne(Seq(caps, s, fuse).binds, Comp.MkClosure(name, Seq(caps, s, fuse).atoms));
    case Prim(op, args) =>
      SpotCallsInFused(args, s, fuse);
      GlobalsOne(Seq(args, s, fuse).binds, Comp.Prim(op, Seq(args, s, fuse).atoms));
    case _ =>
  }

  lemma GlobalsNone()
    ensures Globals([]) == 0
  {}

  lemma {:induction false} SpotCallFused(c: Cir, s: Shift, fuse: bool)
    requires c.CallClosure? || c.App?
    ensures Globals(AtomizeCall(c, s, fuse).binds) == if fuse then SpotCalls(c) else 0
    decreases c, 0
  {
    hide Globals, Pushed, Atomize;
    if fuse && c.f.MkClosure? && c.f.caps == [] {
      var x := Atomize(c.a, s, fuse);
      SpotCallsFused(c.a, s, fuse);
      GlobalsOne(x.binds, CallGlobal(c.f.name, x.atom));
    } else {
      var x := Atomize(c.f, s, fuse);
      var y := Atomize(c.a, Pushed(s, 0, |x.binds|), fuse);
      SpotCallsFused(c.f, s, fuse);
      SpotCallsFused(c.a, Pushed(s, 0, |x.binds|), fuse);
      GlobalsPlus(x.binds, y.binds);
      GlobalsOne(x.binds + y.binds, Call(ShiftAtom(x.atom, 0, |y.binds|), y.atom));
    }
  }

  lemma {:induction false} SpotCallsInFused(cs: seq<Cir>, s: Shift, fuse: bool)
    ensures Globals(Seq(cs, s, fuse).binds) == if fuse then SpotCallsIn(cs) else 0
    decreases cs, 0
  {
    hide Globals, Pushed, Atomize, SpotCalls;
    GlobalsNone();
    if cs != [] {
      var front, last := cs[..|cs| - 1], cs[|cs| - 1];
      var x := Seq(front, s, fuse);
      SpotCallsInFused(front, s, fuse);
      SpotCallsFused(last, Pushed(s, 0, |x.binds|), fuse);
      GlobalsPlus(x.binds, Atomize(last, Pushed(s, 0, |x.binds|), fuse).binds);
    }
  }

  // ---- self tail calls ----

  /** The jumps of a tail. */
  function Jumps(t: Tail): nat
    decreases t, 1
  {
    match t
    case Jump(_) => 1
    case Let(_, rest) => Jumps(rest)
    case Case(_, arms) => JumpsIn(arms)
    case IfZero(_, a, b) => Jumps(a) + Jumps(b)
    case _ => 0
  }

  function JumpsIn(arms: seq<TailArm>): nat
    decreases arms, 0
  {
    if arms == [] then 0 else JumpsIn(arms[..|arms| - 1]) + Jumps(arms[|arms| - 1].body)
  }

  /** A term whose value is the function itself, named as such. */
  predicate NamesSelf(c: Cir, self: FName) {
    match c
    case Global(g) => g == self
    case Let(_, b) => NamesSelf(b, self)
    case _ => false
  }

  /** The calls of `self`, without captures, in tail position. */
  function SelfCalls(c: Cir, self: FName): nat
    decreases c, 1
  {
    match c
    case CallClosure(f, _) => if (f.MkClosure? && f.name == self && f.caps == []) || NamesSelf(f, self) then 1 else 0
    case App(f, _) => if (f.MkClosure? && f.name == self && f.caps == []) || NamesSelf(f, self) then 1 else 0
    case Let(_, b) => SelfCalls(b, self)
    case Case(_, arms) => SelfCallsIn(arms, self)
    case IfZero(_, t, e) => SelfCalls(t, self) + SelfCalls(e, self)
    case _ => 0
  }

  function SelfCallsIn(arms: seq<Arm>, self: FName): nat
    decreases arms, 0
  {
    if arms == [] then 0 else SelfCallsIn(arms[..|arms| - 1], self) + SelfCalls(arms[|arms| - 1].body, self)
  }

  lemma {:induction false} AtomIsSelf(c: Cir, s: Shift, fuse: bool, self: FName)
    ensures Atomize(c, s, fuse).atom == Atom.Global(self) <==> NamesSelf(c, self)
    decreases c
  {
    hide Seq, Pushed, LetShift;
    match c
    case Let(v, b) => AtomIsSelf(b, LetShift(s, |Atomize(v, s, fuse).binds|), fuse, self);
    case _ =>
  }

  lemma {:induction false} WrapJumps(binds: seq<Comp>, t: Tail)
    ensures Jumps(Wrap(binds, t)) == Jumps(t)
  {
    if binds != [] { WrapJumps(binds[1..], t); }
  }

  /** In a recursive function exactly the self tail calls become jumps; elsewhere none is emitted. */
  lemma {:induction false} SelfCallsJump(c: Cir, s: Shift, m: Mode)
    ensures Jumps(ToTail(c, s, m)) == if m.self.Some? && m.recursive then SelfCalls(c, m.self.value) else 0
    decreases c, 1
  {
    hide Atomize, Pushed, LetShift, Wrap, ToTailArms;
    match c
    case CallClosure(f, a) => SelfCallJumps(f, a, s, m);
    case App(f, a) => SelfCallJumps(f, a, s, m);
    case Let(v, b) =>
      var x := Atomize(v, s, m.fuse);
      SelfCallsJump(b, LetShift(s, |x.binds|), m);
      WrapJumps(x.binds + [Use(x.atom)], ToTail(b, LetShift(s, |x.binds|), m));
    case Case(scrut, arms) =>
      var x := Atomize(scrut, s, m.fuse);
      SelfCallsJumpIn(arms, s, |x.binds|, m);
      WrapJumps(x.binds, Tail.Case(x.atom, ToTailArms(arms, s, |x.binds|, m)));
    case IfZero(scrut, t, e) =>
      var x := Atomize(scrut, s, m.fuse);
      var branch := Pushed(s, 0, |x.binds|);
      SelfCallsJump(t, branch, m);
      SelfCallsJump(e, branch, m);
      WrapJumps(x.binds, Tail.IfZero(x.atom, ToTail(t, branch, m), ToTail(e, branch, m)));
    case _ =>
      var x := Atomize(c, s, m.fuse);
      WrapJumps(x.binds, Ret(x.atom));
  }

  lemma SelfCallJumps(f: Cir, a: Cir, s: Shift, m: Mode)
    ensures Jumps(TailOfCall(f, a, s, m)) == if m.self.Some? && m.recursive then SelfCalls(CallClosure(f, a), m.self.value) else 0
  {
    hide Atomize, Pushed, Wrap, NamesSelf;
    var x := Atomize(f, s, m.fuse);
    var y := Atomize(a, Pushed(s, 0, |x.binds|), m.fuse);
    var fa := ShiftAtom(x.atom, 0, |y.binds|);
    WrapJumps(Atomize(a, s, m.fuse).binds, Jump(Atomize(a, s, m.fuse).atom));
    WrapJumps(x.binds + y.binds, Jump(y.atom));
    WrapJumps(x.binds + y.binds, TailCall(fa, y.atom));
    if m.self.Some? { AtomIsSelf(f, s, m.fuse, m.self.value); }
  }

  lemma {:induction false} SelfCallsJumpIn(arms: seq<Arm>, s: Shift, pushed: nat, m: Mode)
    ensures JumpsIn(ToTailArms(arms, s, pushed, m)) == if m.self.Some? && m.recursive then SelfCallsIn(arms, m.self.value) else 0
    decreases arms, 0
  {
    hide ToTail, ArmShift, Jumps, SelfCalls;
    if arms != [] {
      var k := |arms| - 1;
      SelfCallsJumpIn(arms[..k], s, pushed, m);
      SelfCallsJump(arms[k].body, ArmShift(s, arms[k].binders, pushed), m);
      assert ToTailArms(arms, s, pushed, m)[..k] == ToTailArms(arms[..k], s, pushed, m);
    }
  }

  // ---- the peephole ----

  /** A closure built only to be tail-called at once, which could be left out: it has no captures, or, when
      raising, it is the recursive function rebuilt from its own environment. */
  predicate Wasted(c: Comp, rest: Tail, self: Option<FName>, recursive: bool, raise: bool) {
    c.MkClosure? && rest.TailCall? && rest.f == Atom.Var(0) && rest.arg != Atom.Var(0)
    && (c.caps == []
        || (raise && recursive && self == Some(c.name) && forall k :: 0 <= k < |c.caps| ==> c.caps[k] == Atom.EnvRef(k)))
  }

  /** No such closure is built anywhere. */
  predicate NothingWasted(t: Tail, self: Option<FName>, recursive: bool, raise: bool) {
    match t
    case Let(c, rest) => !Wasted(c, rest, self, recursive, raise) && NothingWasted(rest, self, recursive, raise)
    case Case(_, arms) => forall k :: 0 <= k < |arms| ==> NothingWasted(arms[k].body, self, recursive, raise)
    case IfZero(_, a, b) => NothingWasted(a, self, recursive, raise) && NothingWasted(b, self, recursive, raise)
    case _ => true
  }

  /** The peephole makes no tail call that was not one. */
  lemma PeepholeTailCall(t: Tail, self: Option<FName>, recursive: bool, raise: bool)
    ensures Peephole(t, self, recursive, raise).TailCall? ==> Peephole(t, self, recursive, raise) == t
  {}

  /** After the peephole nothing is wasted. */
  lemma {:induction false} PeepholeWastesNothing(t: Tail, self: Option<FName>, recursive: bool, raise: bool)
    ensures NothingWasted(Peephole(t, self, recursive, raise), self, recursive, raise) == true
    decreases t
  {
    match t
    case Let(c, rest) =>
      PeepholeTailCall(rest, self, recursive, raise);
      PeepholeWastesNothing(rest, self, recursive, raise);
    case Case(_, arms) =>
      forall k | 0 <= k < |arms| ensures NothingWasted(Peephole(arms[k].body, self, recursive, raise), self, recursive, raise) == true {
        PeepholeWastesNothing(arms[k].body, self, recursive, raise);
      }
    case IfZero(_, a, b) =>
      PeepholeWastesNothing(a, self, recursive, raise);
      PeepholeWastesNothing(b, self, recursive, raise);
    case _ =>
  }

  lemma {:induction false} PeepholeKeepsJumps(t: Tail, self: Option<FName>, recursive: bool, raise: bool)
    ensures Jumps(Peephole(t, self, recursive, raise)) >= Jumps(t)
    decreases t, 1
  {
    match t
    case Let(_, rest) => PeepholeKeepsJumps(rest, self, recursive, raise);
    case Case(_, arms) =>
      PeepholeKeepsJumpsIn(arms, Peephole(t, self, recursive, raise).arms, self, recursive, raise);
    case IfZero(_, a, b) =>
      PeepholeKeepsJumps(a, self, recursive, raise);
      PeepholeKeepsJumps(b, self, recursive, raise);
    case _ =>
  }

  lemma {:induction false} PeepholeKeepsJumpsIn(arms: seq<TailArm>, new_: seq<TailArm>, self: Option<FName>, recursive: bool, raise: bool)
    requires |new_| == |arms| && forall k :: 0 <= k < |arms| ==> new_[k].body == Peephole(arms[k].body, self, recursive, raise)
    ensures JumpsIn(new_) >= JumpsIn(arms)
    decreases arms, 0
  {
    hide Peephole, Jumps;
    if arms != [] {
      var m := |arms| - 1;
      PeepholeKeepsJumpsIn(arms[..m], new_[..m], self, recursive, raise);
      PeepholeKeepsJumps(arms[m].body, self, recursive, raise);
    }
  }

  // ---- main result ----

  /** In every normal form of a function: each self tail call of a recursive one has become a jump, and no
      closure is built only to be tail-called at once. */
  lemma FunctionLoops(f: Func, fuse: bool, raise: bool)
    ensures var g := NormalizeFunc(f, fuse, raise);
      (f.recursive ==> Jumps(g.body) >= SelfCalls(f.body, f.name))
      && NothingWasted(g.body, Some(f.name), f.recursive, raise)
  {
    hide ToTail, Peephole, Jumps, SelfCalls, NothingWasted;
    var m := Mode(Some(f.name), f.recursive, fuse);
    var t := ToTail(f.body, IDENTITY, m);
    SelfCallsJump(f.body, IDENTITY, m);
    PeepholeKeepsJumps(t, Some(f.name), f.recursive, raise);
    PeepholeWastesNothing(t, Some(f.name), f.recursive, raise);
  }
}
