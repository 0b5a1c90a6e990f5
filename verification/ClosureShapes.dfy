/** Closure conversion keeps branches in tail position and boxes nothing new. */
module ClosureShapes {
  import opened Basics
  import opened Values
  import opened CirLang
  import opened Closure
  import opened Shapes
  import ClosureWf
  import Normalize

  lemma {:induction false} RebindShaped(view: View, c: Cir, depth: nat, m: Mode, boxes: bool)
    requires Shaped(c, m, boxes)
    ensures Shaped(Rebind(view, c, depth), m, boxes)
    decreases c, 1
  {
    hide Rebind, Shaped;
    match c
    case Case(_, _) => RebindCaseShaped(view, c, depth, m, boxes);
    case MkClosure(_, _) => RebindManyShaped(view, c, depth, m, boxes);
    case Prim(_, _) => RebindManyShaped(view, c, depth, m, boxes);
    case _ => RebindFewShaped(view, c, depth, m, boxes);
  }

  lemma {:induction false} RebindFewShaped(view: View, c: Cir, depth: nat, m: Mode, boxes: bool)
    requires !c.Case? && !c.MkClosure? && !c.Prim? && Shaped(c, m, boxes)
    ensures Shaped(Rebind(view, c, depth), m, boxes)
    decreases c, 0
  {
    match c
    case Lam(b) => RebindShaped(view, b, depth + 1, Enclosed(m), boxes);
    case Fix(b) => RebindShaped(view, b, depth + 1, m, boxes);
    case App(f, a) => RebindShaped(view, f, depth, Inner(m), boxes); RebindShaped(view, a, depth, Inner(m), boxes);
    case CallClosure(f, a) => RebindShaped(view, f, depth, Inner(m), boxes); RebindShaped(view, a, depth, Inner(m), boxes);
    case Let(v, b) => RebindShaped(view, v, depth, Inner(m), boxes); RebindShaped(view, b, depth + 1, m, boxes);
    case IfZero(s, t, e) =>
      RebindShaped(view, s, depth, Inner(m), boxes);
      RebindShaped(view, t, depth, m, boxes);
      RebindShaped(view, e, depth, m, boxes);
    case _ =>
  }

  lemma {:induction false} RebindCaseShaped(view: View, c: Cir, depth: nat, m: Mode, boxes: bool)
    requires c.Case? && Shaped(c, m, boxes)
    ensures Shaped(Rebind(view, c, depth), m, boxes)
    decreases c, 0
  {
    RebindShaped(view, c.scrut, depth, Inner(m), boxes);
    forall k | 0 <= k < |c.arms| ensures Shaped(Rebind(view, c.arms[k].body, depth + c.arms[k].binders), m, boxes) {
      RebindShaped(view, c.arms[k].body, depth + c.arms[k].binders, m, boxes);
    }
  }

  lemma {:induction false} RebindManyShaped(view: View, c: Cir, depth: nat, m: Mode, boxes: bool)
    requires (c.MkClosure? || c.Prim?) && Shaped(c, m, boxes)
    ensures Shaped(Rebind(view, c, depth), m, boxes)
    decreases c, 0
  {
    RebindAllShaped(view, if c.Prim? then c.args else c.caps, depth, Inner(m), boxes);
  }

  lemma {:induction false} RebindAllShaped(view: View, cs: seq<Cir>, depth: nat, m: Mode, boxes: bool)
    requires forall k :: 0 <= k < |cs| ==> Shaped(cs[k], m, boxes) == true
    ensures forall k :: 0 <= k < |cs| ==> Shaped(Rebind(view, cs[k], depth), m, boxes) == true
    decreases cs, 0
  {
    hide Shaped, Rebind;
    forall k | 0 <= k < |cs| ensures Shaped(Rebind(view, cs[k], depth), m, boxes) == true {
      RebindShaped(view, cs[k], depth, m, boxes);
    }
  }

  ghost predicate FuncsShaped(funcs: seq<Func>, boxes: bool) {
    forall f :: f in funcs ==> Shaped(f.body, Body, boxes)
  }

  lemma {:induction false} GoShaped(c: Cir, n: nat, m: Mode, boxes: bool)
    requires Shaped(c, m, boxes) && !m.Any?
    ensures Shaped(Go(c, n).term, m, boxes) && FuncsShaped(Go(c, n).funcs, boxes)
    decreases c, 1
  {
    hide Lift, LiftRec, GoSeq, GoArms;
    match c
    case Lam(b) => LiftShaped(b, n, m, boxes);
    case Fix(b) => LiftRecShaped(b, n, m, boxes);
    case App(f, a) => GoShaped(f, n, Operand, boxes); GoShaped(a, Go(f, n).next, Operand, boxes);
    case CallClosure(f, a) => GoShaped(f, n, Operand, boxes); GoShaped(a, Go(f, n).next, Operand, boxes);
    case Let(v, b) => GoShaped(v, n, Operand, boxes); GoShaped(b, Go(v, n).next, m, boxes);
    case Case(s, arms) =>
      GoShaped(s, n, Operand, boxes);
      GoArmsShaped(arms, Go(s, n).next, m, boxes);
    case IfZero(s, t, e) =>
      GoShaped(s, n, Operand, boxes);
      GoShaped(t, Go(s, n).next, m, boxes);
      GoShaped(e, Go(t, Go(s, n).next).next, m, boxes);
    case MkClosure(_, caps) => GoSeqShaped(caps, n, boxes);
    case Prim(_, args) => GoSeqShaped(args, n, boxes);
    case _ =>
  }

  lemma {:induction false} LiftShaped(b: Cir, n: nat, m: Mode, boxes: bool)
    requires Shaped(b, Body, boxes)
    ensures Shaped(Lift(b, false, "lam", n).term, m, boxes) && FuncsShaped(Lift(b, false, "lam", n).funcs, boxes)
    decreases b, 2
  {
    hide Rebind, FreeVars;
    GoShaped(b, n, Body, boxes);
    RebindShaped(LamView(FreeVars(b, 1)), Go(b, n).term, 0, Body, boxes);
  }

  lemma {:induction false} LiftRecShaped(b: Cir, n: nat, m: Mode, boxes: bool)
    requires b.Lam? && Shaped(b.body, Body, boxes)
    ensures Shaped(LiftRec(b.body, n).term, m, boxes) && FuncsShaped(LiftRec(b.body, n).funcs, boxes)
    decreases b, 2
  {
    hide Rebind, FreeVars;
    GoShaped(b.body, n + 1, Body, boxes);
    RebindShaped(RecView(FreeVars(b.body, 2), FName("rec", n)), Go(b.body, n + 1).term, 0, Body, boxes);
  }

  lemma {:induction false} GoSeqShaped(cs: seq<Cir>, n: nat, boxes: bool)
    requires forall k :: 0 <= k < |cs| ==> Shaped(cs[k], Operand, boxes) == true
    ensures forall k :: 0 <= k < |cs| ==> Shaped(GoSeq(cs, n).terms[k], Operand, boxes) == true
    ensures FuncsShaped(GoSeq(cs, n).funcs, boxes)
    decreases cs, 0
  {
    hide Go, Shaped;
    if cs != [] {
      GoSeqShaped(cs[..|cs| - 1], n, boxes);
      GoShaped(cs[|cs| - 1], GoSeq(cs[..|cs| - 1], n).next, Operand, boxes);
    }
  }

  lemma {:induction false} GoArmsShaped(arms: seq<Arm>, n: nat, m: Mode, boxes: bool)
    requires !m.Any? && forall k :: 0 <= k < |arms| ==> Shaped(arms[k].body, m, boxes) == true
    ensures forall k :: 0 <= k < |arms| ==> Shaped(GoArms(arms, n).arms[k].body, m, boxes) == true
    ensures FuncsShaped(GoArms(arms, n).funcs, boxes)
    decreases arms, 0
  {
    hide Go, Shaped;
    if arms != [] {
      GoArmsShaped(arms[..|arms| - 1], n, m, boxes);
      GoShaped(arms[|arms| - 1].body, GoArms(arms[..|arms| - 1], n).next, m, boxes);
    }
  }

  /** A converted term holds its branches where its shape says. */
  lemma {:induction false} ShapedBranches(c: Cir, ar: map<FName, nat>, locals: nat, ncaps: nat, m: Mode, boxes: bool)
    requires ClosureWf.BodyOk(c, ar, locals, ncaps) && Shaped(c, m, boxes)
    ensures m.Operand? ==> Normalize.Straight(c) == true
    ensures m.Body? ==> Normalize.BranchesInTail(c) == true
    decreases c
  {
    match c
    case CallClosure(f, a) =>
      ShapedBranches(f, ar, locals, ncaps, Inner(m), boxes);
      ShapedBranches(a, ar, locals, ncaps, Inner(m), boxes);
    case Let(v, b) =>
      ShapedBranches(v, ar, locals, ncaps, Inner(m), boxes);
      ShapedBranches(b, ar, locals + 1, ncaps, m, boxes);
    case Case(s, arms) =>
      ShapedBranches(s, ar, locals, ncaps, Inner(m), boxes);
      forall k | 0 <= k < |arms| ensures m.Body? ==> Normalize.BranchesInTail(arms[k].body) == true {
        ShapedBranches(arms[k].body, ar, locals + arms[k].binders, ncaps, m, boxes);
      }
    case IfZero(s, t, e) =>
      ShapedBranches(s, ar, locals, ncaps, Inner(m), boxes);
      ShapedBranches(t, ar, locals, ncaps, m, boxes);
      ShapedBranches(e, ar, locals, ncaps, m, boxes);
    case MkClosure(_, caps) =>
      forall k | 0 <= k < |caps| ensures !m.Any? ==> Normalize.Straight(caps[k]) == true {
        ShapedBranches(caps[k], ar, locals, ncaps, Inner(m), boxes);
      }
    case Prim(_, args) =>
      forall k | 0 <= k < |args| ensures !m.Any? ==> Normalize.Straight(args[k]) == true {
        ShapedBranches(args[k], ar, locals, ncaps, Inner(m), boxes);
      }
    case _ =>
  }

  /** The conversion of a closed source program with its branches in tail position has them there too, and
      boxes nothing if the source does not. */
  lemma ConvertShaped(entry: Cir, boxes: bool)
    requires IsSource(entry) && (forall i: nat :: !Free(entry, i)) && Shaped(entry, Body, boxes)
    ensures var p := Convert(entry);
      Normalize.ProgramInFragment(p) && Shaped(p.entry, Body, boxes) && FuncsShaped(p.funcs, boxes)
  {
    hide IsSource, Free, Shaped, Go, ClosureWf.BodyOk, Normalize.BranchesInTail, Normalize.Straight;
    var p := Convert(entry);
    GoShaped(entry, 0, Body, boxes);
    var ar := ClosureWf.ConvertWellFormed(entry);
    ShapedBranches(p.entry, ar, 0, 0, Body, boxes);
    forall f | f in p.funcs ensures Normalize.BranchesInTail(f.body) {
      ShapedBranches(f.body, ar, 1, ar[f.name], Body, boxes);
    }
  }
}
