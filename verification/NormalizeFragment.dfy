/** What normalization does to a branch outside tail position, for every well-formed program.

    An operand's branch is dropped: it becomes the erased value. So the normal form computes what the
    program with those branches erased computes, and that program is the given one exactly when all
    branches are in tail position. */
module NormalizeFragment {
  import opened Basics
  import opened Values
  import opened CirLang
  import opened AnfLang
  import opened DeferredShift
  import opened Normalize
  import opened ClosureSim
  import opened ClosureWf
  import opened NormalizePreserves

  /** `c` as an operand, with its branches erased. */
  function PruneOperand(c: Cir): Cir
    decreases c, 1
  {
    match c
    case CallClosure(f, a) => Cir.CallClosure(PruneOperand(f), PruneOperand(a))
    case Let(v, b) => Cir.Let(PruneOperand(v), PruneOperand(b))
    case MkClosure(name, caps) => Cir.MkClosure(name, PruneSeq(caps))
    case Prim(op, args) => Cir.Prim(op, PruneSeq(args))
    case Case(_, _) => Cir.Erased
    case IfZero(_, _, _) => Cir.Erased
    case _ => c
  }

  function PruneSeq(cs: seq<Cir>): (r: seq<Cir>)
    ensures |r| == |cs|
    ensures forall k :: 0 <= k < |cs| ==> r[k] == PruneOperand(cs[k])
    decreases cs, 0
  {
    if cs == [] then [] else PruneSeq(cs[..|cs| - 1]) + [PruneOperand(cs[|cs| - 1])]
  }

  /** `c` in tail position, with the branches of its operands erased. */
  function PruneTail(c: Cir): Cir {
    match c
    case Let(v, b) => Cir.Let(PruneOperand(v), PruneTail(b))
    case Case(s, arms) => Cir.Case(PruneOperand(s), seq(|arms|, k requires 0 <= k < |arms| =>
      Arm(arms[k].con, arms[k].binders, PruneTail(arms[k].body))))
    case IfZero(s, t, e) => Cir.IfZero(PruneOperand(s), PruneTail(t), PruneTail(e))
    case _ => PruneOperand(c)
  }

  function PruneFuncs(funcs: seq<Func>): (r: seq<Func>)
    ensures |r| == |funcs|
  {
    seq(|funcs|, k requires 0 <= k < |funcs| => Func(funcs[k].name, funcs[k].recursive, PruneTail(funcs[k].body)))
  }

  function Prune(p: Program): Program {
    Program(PruneFuncs(p.funcs), PruneTail(p.entry))
  }

  // ---- pruning is invisible to normalization ----

  lemma {:induction false} AtomizePruned(c: Cir, s: Shift, fuse: bool, ar: map<FName, nat>, locals: nat, ncaps: nat)
    requires BodyOk(c, ar, locals, ncaps)
    ensures Atomize(PruneOperand(c), s, fuse) == Atomize(c, s, fuse)
    decreases c, 1
  {
    hide AtomizeCall, PruneSeq, Seq;
    match c
    case CallClosure(f, a) => CallPruned(c, s, fuse, ar, locals, ncaps);
    case Let(v, b) => LetPruned(c, s, fuse, ar, locals, ncaps);
    case MkClosure(_, caps) => SeqPruned(caps, s, fuse, ar, locals, ncaps);
    case Prim(_, args) => SeqPruned(args, s, fuse, ar, locals, ncaps);
    case _ =>
  }

  lemma {:induction false} CallPruned(c: Cir, s: Shift, fuse: bool, ar: map<FName, nat>, locals: nat, ncaps: nat)
    requires c.CallClosure? && BodyOk(c.f, ar, locals, ncaps) && BodyOk(c.a, ar, locals, ncaps)
    ensures AtomizeCall(PruneOperand(c), s, fuse) == AtomizeCall(c, s, fuse)
    decreases c, 0
  {
    hide BodyOk, PruneSeq, Atomize;
    AtomizePruned(c.f, s, fuse, ar, locals, ncaps);
    AtomizePruned(c.a, s, fuse, ar, locals, ncaps);
    AtomizePruned(c.a, Pushed(s, 0, |Atomize(c.f, s, fuse).binds|), fuse, ar, locals, ncaps);
  }

  lemma {:induction false} LetPruned(c: Cir, s: Shift, fuse: bool, ar: map<FName, nat>, locals: nat, ncaps: nat)
    requires c.Let? && BodyOk(c.v, ar, locals, ncaps) && BodyOk(c.b, ar, locals + 1, ncaps)
    ensures Atomize(PruneOperand(c), s, fuse) == Atomize(c, s, fuse)
    decreases c, 0
  {
    hide BodyOk, LetShift;
    AtomizePruned(c.v, s, fuse, ar, locals, ncaps);
    AtomizePruned(c.b, LetShift(s, |Atomize(c.v, s, fuse).binds|), fuse, ar, locals + 1, ncaps);
  }

  lemma {:induction false} SeqPruned(cs: seq<Cir>, s: Shift, fuse: bool, ar: map<FName, nat>, locals: nat, ncaps: nat)
    requires forall k :: 0 <= k < |cs| ==> BodyOk(cs[k], ar, locals, ncaps) == true
    ensures Seq(PruneSeq(cs), s, fuse) == Seq(cs, s, fuse)
    decreases cs, 0
  {
    hide BodyOk, PruneOperand;
    if cs != [] {
      var m := |cs| - 1;
      assert PruneSeq(cs)[..m] == PruneSeq(cs[..m]);
      SeqPruned(cs[..m], s, fuse, ar, locals, ncaps);
      AtomizePruned(cs[m], Pushed(s, 0, |Seq(cs[..m], s, fuse).binds|), fuse, ar, locals, ncaps);
    }
  }

  lemma {:induction false} TailPruned(c: Cir, s: Shift, m: Mode, ar: map<FName, nat>, locals: nat, ncaps: nat)
    requires BodyOk(c, ar, locals, ncaps)
    ensures ToTail(PruneTail(c), s, m) == ToTail(c, s, m)
    decreases c, 1
  {
    hide Atomize, PruneSeq, Wrap, TailOfCall, ToTailArms, ToTail, PruneTail, BodyOk;
    match c
    case CallClosure(_, _) => AppliedPruned(c, s, m, ar, locals, ncaps);
    case Case(scrut, arms) => CasePruned(c, s, m, ar, locals, ncaps);
    case IfZero(_, _, _) => IfZeroPruned(c, s, m, ar, locals, ncaps);
    case Let(_, _) => BoundPruned(c, s, m, ar, locals, ncaps);
    case _ => LeafPruned(c, s, m, ar, locals, ncaps);
  }

  lemma AppliedPruned(c: Cir, s: Shift, m: Mode, ar: map<FName, nat>, locals: nat, ncaps: nat)
    requires c.CallClosure? && BodyOk(c, ar, locals, ncaps)
    ensures ToTail(PruneTail(c), s, m) == ToTail(c, s, m)
  {
    hide TailOfCall, Atomize, PruneSeq, Wrap;
    TailCallPruned(c.f, c.a, s, m, ar, locals, ncaps);
  }

  lemma {:induction false} IfZeroPruned(c: Cir, s: Shift, m: Mode, ar: map<FName, nat>, locals: nat, ncaps: nat)
    requires c.IfZero? && BodyOk(c, ar, locals, ncaps)
    ensures ToTail(PruneTail(c), s, m) == ToTail(c, s, m)
    decreases c, 0
  {
    hide Atomize, PruneOperand, Wrap;
    AtomizePruned(c.scrut, s, m.fuse, ar, locals, ncaps);
    var branch := Pushed(s, 0, |Atomize(c.scrut, s, m.fuse).binds|);
    TailPruned(c.then_, branch, m, ar, locals, ncaps);
    TailPruned(c.else_, branch, m, ar, locals, ncaps);
  }

  lemma {:induction false} BoundPruned(c: Cir, s: Shift, m: Mode, ar: map<FName, nat>, locals: nat, ncaps: nat)
    requires c.Let? && BodyOk(c, ar, locals, ncaps)
    ensures ToTail(PruneTail(c), s, m) == ToTail(c, s, m)
    decreases c, 0
  {
    hide Atomize, PruneOperand, Wrap;
    AtomizePruned(c.v, s, m.fuse, ar, locals, ncaps);
    TailPruned(c.b, LetShift(s, |Atomize(c.v, s, m.fuse).binds|), m, ar, locals + 1, ncaps);
  }

  lemma LeafPruned(c: Cir, s: Shift, m: Mode, ar: map<FName, nat>, locals: nat, ncaps: nat)
    requires !c.CallClosure? && !c.Let? && !c.Case? && !c.IfZero? && BodyOk(c, ar, locals, ncaps)
    ensures ToTail(PruneTail(c), s, m) == ToTail(c, s, m)
  {
    hide Atomize, PruneSeq, Wrap;
    AtomizePruned(c, s, m.fuse, ar, locals, ncaps);
  }

  lemma {:induction false} CasePruned(c: Cir, s: Shift, m: Mode, ar: map<FName, nat>, locals: nat, ncaps: nat)
    requires c.Case? && BodyOk(c, ar, locals, ncaps)
    ensures ToTail(PruneTail(c), s, m) == ToTail(c, s, m)
    decreases c, 0
  {
    hide Atomize, PruneOperand, Wrap;
    AtomizePruned(c.scrut, s, m.fuse, ar, locals, ncaps);
    var n := |Atomize(c.scrut, s, m.fuse).binds|;
    var pruned := PruneTail(c).arms;
    forall k | 0 <= k < |c.arms|
      ensures ToTailArms(pruned, s, n, m)[k] == ToTailArms(c.arms, s, n, m)[k]
    {
      TailPruned(c.arms[k].body, ArmShift(s, c.arms[k].binders, n), m, ar, locals + c.arms[k].binders, ncaps);
    }
    assert ToTailArms(pruned, s, n, m) == ToTailArms(c.arms, s, n, m);
  }

  lemma TailCallPruned(f: Cir, a: Cir, s: Shift, m: Mode, ar: map<FName, nat>, locals: nat, ncaps: nat)
    requires BodyOk(f, ar, locals, ncaps) && BodyOk(a, ar, locals, ncaps)
    ensures TailOfCall(PruneOperand(f), PruneOperand(a), s, m) == TailOfCall(f, a, s, m)
  {
    hide BodyOk, PruneSeq, Atomize;
    AtomizePruned(f, s, m.fuse, ar, locals, ncaps);
    AtomizePruned(a, s, m.fuse, ar, locals, ncaps);
    AtomizePruned(a, Pushed(s, 0, |Atomize(f, s, m.fuse).binds|), m.fuse, ar, locals, ncaps);
  }

  // ---- a pruned program is well-formed and in the fragment ----

  ghost predicate Fits(c: Cir, ar: map<FName, nat>, locals: nat, ncaps: nat) {
    && Straight(PruneOperand(c)) == true && BodyOk(PruneOperand(c), ar, locals, ncaps) == true
    && (PruneOperand(c) == c <==> Straight(c))
  }

  lemma {:induction false} OperandFits(c: Cir, ar: map<FName, nat>, locals: nat, ncaps: nat)
    requires BodyOk(c, ar, locals, ncaps)
    ensures Fits(c, ar, locals, ncaps)
    decreases c, 1
  {
    hide Fits;
    match c
    case CallClosure(f, a) =>
      OperandFits(f, ar, locals, ncaps);
      OperandFits(a, ar, locals, ncaps);
      CallFit(c, ar, locals, ncaps);
    case Let(v, b) =>
      OperandFits(v, ar, locals, ncaps);
      OperandFits(b, ar, locals + 1, ncaps);
      LetFit(c, ar, locals, ncaps);
    case MkClosure(_, caps) =>
      OperandsFit(caps, ar, locals, ncaps);
      ClosureFit(c, ar, locals, ncaps);
    case Prim(_, args) =>
      OperandsFit(args, ar, locals, ncaps);
      PrimFit(c, ar, locals, ncaps);
    case _ => AtomFit(c, ar, locals, ncaps);
  }

  lemma CallFit(c: Cir, ar: map<FName, nat>, locals: nat, ncaps: nat)
    requires c.CallClosure? && Fits(c.f, ar, locals, ncaps) && Fits(c.a, ar, locals, ncaps)
    ensures Fits(c, ar, locals, ncaps)
  {}

  lemma LetFit(c: Cir, ar: map<FName, nat>, locals: nat, ncaps: nat)
    requires c.Let? && Fits(c.v, ar, locals, ncaps) && Fits(c.b, ar, locals + 1, ncaps)
    ensures Fits(c, ar, locals, ncaps)
  {}

  lemma ClosureFit(c: Cir, ar: map<FName, nat>, locals: nat, ncaps: nat)
    requires c.MkClosure? && c.name in ar && |c.caps| == ar[c.name]
    requires forall k :: 0 <= k < |c.caps| ==> Fits(c.caps[k], ar, locals, ncaps)
    requires PruneSeq(c.caps) == c.caps <==> forall k :: 0 <= k < |c.caps| ==> PruneOperand(c.caps[k]) == c.caps[k]
    ensures Fits(c, ar, locals, ncaps)
  {}

  lemma PrimFit(c: Cir, ar: map<FName, nat>, locals: nat, ncaps: nat)
    requires c.Prim? && forall k :: 0 <= k < |c.args| ==> Fits(c.args[k], ar, locals, ncaps)
    requires PruneSeq(c.args) == c.args <==> forall k :: 0 <= k < |c.args| ==> PruneOperand(c.args[k]) == c.args[k]
    ensures Fits(c, ar, locals, ncaps)
  {}

  lemma AtomFit(c: Cir, ar: map<FName, nat>, locals: nat, ncaps: nat)
    requires !c.CallClosure? && !c.Let? && !c.MkClosure? && !c.Prim? && BodyOk(c, ar, locals, ncaps)
    ensures Fits(c, ar, locals, ncaps)
  {}

  lemma {:induction false} OperandsFit(cs: seq<Cir>, ar: map<FName, nat>, locals: nat, ncaps: nat)
    requires forall k :: 0 <= k < |cs| ==> BodyOk(cs[k], ar, locals, ncaps) == true
    ensures forall k :: 0 <= k < |cs| ==> Fits(cs[k], ar, locals, ncaps)
    ensures PruneSeq(cs) == cs <==> forall k :: 0 <= k < |cs| ==> PruneOperand(cs[k]) == cs[k]
    decreases cs, 0
  {
    hide BodyOk, PruneOperand, Straight;
    forall k | 0 <= k < |cs| ensures Fits(cs[k], ar, locals, ncaps) { OperandFits(cs[k], ar, locals, ncaps); }
  }

  ghost predicate FitsTail(c: Cir, ar: map<FName, nat>, locals: nat, ncaps: nat) {
    && BranchesInTail(PruneTail(c)) == true && BodyOk(PruneTail(c), ar, locals, ncaps) == true
    && (PruneTail(c) == c <==> BranchesInTail(c))
  }

  lemma {:induction false} TailFits(c: Cir, ar: map<FName, nat>, locals: nat, ncaps: nat)
    requires BodyOk(c, ar, locals, ncaps)
    ensures FitsTail(c, ar, locals, ncaps)
    decreases c, 1
  {
    hide PruneOperand, Straight;
    match c
    case Let(v, b) =>
      OperandFits(v, ar, locals, ncaps);
      TailFits(b, ar, locals + 1, ncaps);
    case Case(s, arms) => CaseFits(c, ar, locals, ncaps);
    case IfZero(s, t, e) =>
      OperandFits(s, ar, locals, ncaps);
      TailFits(t, ar, locals, ncaps);
      TailFits(e, ar, locals, ncaps);
    case _ => LeafFits(c, ar, locals, ncaps);
  }

  lemma {:induction false} CaseFits(c: Cir, ar: map<FName, nat>, locals: nat, ncaps: nat)
    requires c.Case? && BodyOk(c, ar, locals, ncaps)
    ensures FitsTail(c, ar, locals, ncaps)
    decreases c, 0
  {
    hide PruneOperand, Straight;
    OperandFits(c.scrut, ar, locals, ncaps);
    var arms, pruned := c.arms, PruneTail(c).arms;
    forall k | 0 <= k < |arms|
      ensures BranchesInTail(pruned[k].body) == true && BodyOk(pruned[k].body, ar, locals + arms[k].binders, ncaps) == true
      ensures pruned[k] == arms[k] <==> BranchesInTail(arms[k].body)
    {
      TailFits(arms[k].body, ar, locals + arms[k].binders, ncaps);
    }
    assert pruned == arms <==> forall k :: 0 <= k < |arms| ==> pruned[k] == arms[k];
  }

  lemma LeafFits(c: Cir, ar: map<FName, nat>, locals: nat, ncaps: nat)
    requires !c.Let? && !c.Case? && !c.IfZero? && BodyOk(c, ar, locals, ncaps)
    ensures FitsTail(c, ar, locals, ncaps)
  {
    hide BodyOk;
    OperandFits(c, ar, locals, ncaps);
  }

  /** Pruning keeps a program well-formed, puts it in the fragment, and is the identity exactly there. */
  lemma PruneFits(p: Program, ar: map<FName, nat>)
    requires ProgramOk(p, ar)
    ensures ProgramOk(Prune(p), ar) && ProgramInFragment(Prune(p))
    ensures Prune(p) == p <==> ProgramInFragment(p)
  {
    hide BodyOk, PruneTail, BranchesInTail;
    TailFits(p.entry, ar, 0, 0);
    var fs, gs := p.funcs, PruneFuncs(p.funcs);
    forall k | 0 <= k < |fs|
      ensures BranchesInTail(gs[k].body) && BodyOk(gs[k].body, ar, 1, ar[fs[k].name]) == true
      ensures gs[k] == fs[k] <==> BranchesInTail(fs[k].body)
    {
      assert fs[k] in fs;
      TailFits(fs[k].body, ar, 1, ar[fs[k].name]);
    }
    assert gs == fs <==> forall k :: 0 <= k < |fs| ==> gs[k] == fs[k];
  }

  lemma NormalizePruned(p: Program, ar: map<FName, nat>, fuse: bool, raise: bool)
    requires ProgramOk(p, ar)
    ensures NormalizeProgram(Prune(p), fuse, raise) == NormalizeProgram(p, fuse, raise)
  {
    hide BodyOk, ToTail, Peephole, PruneTail;
    TailPruned(p.entry, IDENTITY, Mode(None, false, fuse), ar, 0, 0);
    var fs, gs := p.funcs, PruneFuncs(p.funcs);
    forall k | 0 <= k < |fs| ensures NormalizeFunc(gs[k], fuse, raise) == NormalizeFunc(fs[k], fuse, raise) {
      assert fs[k] in fs;
      TailPruned(fs[k].body, IDENTITY, Mode(Some(fs[k].name), fs[k].recursive, fuse), ar, 1, ar[fs[k].name]);
    }
    assert NormalizeFuncs(gs, fuse, raise) == NormalizeFuncs(fs, fuse, raise);
  }

  // ---- main results ----

  /** For every well-formed program the normal form computes what the program computes once the
      branches outside tail position are erased. */
  lemma NormalizeMeaning(p: Program, ar: map<FName, nat>, fuse: bool, raise: bool, fuel: nat)
    requires ProgramOk(p, ar)
    ensures RunProgram(NormalizeProgram(p, fuse, raise), fuel)
         == EvalT(Prune(p).funcs, Prune(p).entry, [], [], fuel)
  {
    hide ProgramOk, ProgramInFragment, Prune, NormalizeProgram, RunProgram, EvalT;
    PruneFits(p, ar);
    NormalizePruned(p, ar, fuse, raise);
    NormalizePreserves.NormalizePreserves(Prune(p), ar, fuse, raise, fuel);
  }

  /** The loss is real: a branch bound by a `let` is replaced by the erased value. */
  lemma BoundBranchIsLost(fuel: nat)
    ensures var branch := Cir.IfZero(Cir.Prim(LitOp(IntL(0)), []), Cir.Prim(LitOp(IntL(7)), []), Cir.Erased);
            var p := Program([], Cir.Let(branch, Cir.Var(0)));
            ProgramOk(p, map[])
            && EvalT(p.funcs, p.entry, [], [], fuel) == Done(Scalar(IntL(7)))
            && RunProgram(NormalizeProgram(p, true, true), fuel) == Done(Null)
  {
    hide RunProgram, NormalizeProgram;
    var zero, seven := Cir.Prim(LitOp(IntL(0)), []), Cir.Prim(LitOp(IntL(7)), []);
    var branch := Cir.IfZero(zero, seven, Cir.Erased);
    var p := Program([], Cir.Let(branch, Cir.Var(0)));
    assert EvalT([], zero, [], [], fuel) == Done(Scalar(IntL(0)));
    assert EvalT([], seven, [], [], fuel) == Done(Scalar(IntL(7)));
    assert EvalT([], branch, [], [], fuel) == Done(Scalar(IntL(7)));
    assert BodyOk(branch, map[], 0, 0);
    NormalizeMeaning(p, map[], true, true, fuel);
    assert PruneTail(p.entry) == Cir.Let(Cir.Erased, Cir.Var(0));
  }
}
