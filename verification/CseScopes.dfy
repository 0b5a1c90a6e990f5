/** Sharing keeps a program a closed source program, its branches in tail position and its constructors
    without arguments, so the later passes may follow it. */
module CseScopes {
  import opened Basics
  import opened Values
  import opened CirLang
  import opened CseHoist
  import opened Shapes
  import CsePreserves

  /** A source term whose free variables are below `d`, shaped as asked. */
  predicate Proper(c: Cir, d: nat, m: Mode, boxes: bool) {
    match c
    case Var(i) => i < d
    case EnvRef(_) => false
    case Global(_) => false
    case Erased => true
    case Lam(b) => Proper(b, d + 1, Enclosed(m), boxes)
    case Fix(b) => b.Lam? && Proper(b, d + 1, m, boxes)
    case App(f, a) => Proper(f, d, Inner(m), boxes) && Proper(a, d, Inner(m), boxes)
    case CallClosure(_, _) => false
    case Let(v, b) => Proper(v, d, Inner(m), boxes) && Proper(b, d + 1, m, boxes)
    case Case(s, arms) =>
      !m.Operand? && Proper(s, d, Inner(m), boxes)
      && forall k :: 0 <= k < |arms| ==> Proper(arms[k].body, d + arms[k].binders, m, boxes)
    case IfZero(s, t, e) =>
      !m.Operand? && Proper(s, d, Inner(m), boxes) && Proper(t, d, m, boxes) && Proper(e, d, m, boxes)
    case MkClosure(_, _) => false
    case Prim(op, args) => Allowed(op, |args|, boxes) && forall k :: 0 <= k < |args| ==> Proper(args[k], d, Inner(m), boxes)
  }

  /** A proper term is shaped, and a shaped term without free variables from `d` on is proper. */
  lemma {:induction false} ProperIsShaped(c: Cir, d: nat, m: Mode, boxes: bool)
    requires Proper(c, d, Any, true)
    ensures Proper(c, d, m, boxes) <==> Shaped(c, m, boxes)
    decreases c
  {
    match c
    case Lam(b) => ProperIsShaped(b, d + 1, Enclosed(m), boxes);
    case Fix(b) => ProperIsShaped(b, d + 1, m, boxes);
    case App(f, a) => ProperIsShaped(f, d, Inner(m), boxes); ProperIsShaped(a, d, Inner(m), boxes);
    case Let(v, b) => ProperIsShaped(v, d, Inner(m), boxes); ProperIsShaped(b, d + 1, m, boxes);
    case Case(s, arms) =>
      ProperIsShaped(s, d, Inner(m), boxes);
      forall k | 0 <= k < |arms|
        ensures Proper(arms[k].body, d + arms[k].binders, m, boxes) <==> Shaped(arms[k].body, m, boxes)
      {
        ProperIsShaped(arms[k].body, d + arms[k].binders, m, boxes);
      }
    case IfZero(s, t, e) =>
      ProperIsShaped(s, d, Inner(m), boxes);
      ProperIsShaped(t, d, m, boxes);
      ProperIsShaped(e, d, m, boxes);
    case Prim(_, args) =>
      forall k | 0 <= k < |args| ensures Proper(args[k], d, Inner(m), boxes) <==> Shaped(args[k], Inner(m), boxes) {
        ProperIsShaped(args[k], d, Inner(m), boxes);
      }
    case _ =>
  }

  /** No variable from `d` on is free in a proper term. */
  lemma {:induction false} ProperBelow(c: Cir, d: nat, i: nat)
    requires Proper(c, d, Any, true) && i >= d
    ensures IsSource(c) && !Free(c, i)
    decreases c
  {
    match c
    case Lam(b) => ProperBelow(b, d + 1, i + 1);
    case Fix(b) => ProperBelow(b, d + 1, i + 1);
    case App(f, a) => ProperBelow(f, d, i); ProperBelow(a, d, i);
    case Let(v, b) => ProperBelow(v, d, i); ProperBelow(b, d + 1, i + 1);
    case Case(s, arms) =>
      ProperBelow(s, d, i);
      forall k | 0 <= k < |arms| ensures IsSource(arms[k].body) && !Free(arms[k].body, i + arms[k].binders) {
        ProperBelow(arms[k].body, d + arms[k].binders, i + arms[k].binders);
      }
    case IfZero(s, t, e) => ProperBelow(s, d, i); ProperBelow(t, d, i); ProperBelow(e, d, i);
    case Prim(_, args) =>
      forall k | 0 <= k < |args| ensures IsSource(args[k]) && !Free(args[k], i) { ProperBelow(args[k], d, i); }
    case _ =>
  }

  /** A source term that is not proper has a free variable to show for it. */
  lemma {:induction false} FreeWitness(c: Cir, d: nat) returns (i: nat)
    requires IsSource(c) && !Proper(c, d, Any, true)
    ensures i >= d && Free(c, i)
    decreases c
  {
    match c
    case Var(j) => i := j;
    case Lam(b) =>
      var j := FreeWitness(b, d + 1);
      i := j - 1;
    case Fix(b) =>
      var j := FreeWitness(b, d + 1);
      i := j - 1;
    case App(f, a) => if Proper(f, d, Any, true) { i := FreeWitness(a, d); } else { i := FreeWitness(f, d); }
    case Let(v, b) =>
      if Proper(v, d, Any, true) {
        var j := FreeWitness(b, d + 1);
        i := j - 1;
      } else {
        i := FreeWitness(v, d);
      }
    case Case(s, arms) =>
      if Proper(s, d, Any, true) {
        var k :| 0 <= k < |arms| && !Proper(arms[k].body, d + arms[k].binders, Any, true);
        var j := FreeWitness(arms[k].body, d + arms[k].binders);
        i := j - arms[k].binders;
      } else {
        i := FreeWitness(s, d);
      }
    case IfZero(s, t, e) =>
      if !Proper(s, d, Any, true) {
        i := FreeWitness(s, d);
      } else if !Proper(t, d, Any, true) {
        i := FreeWitness(t, d);
      } else {
        i := FreeWitness(e, d);
      }
    case Prim(_, args) =>
      var k :| 0 <= k < |args| && !Proper(args[k], d, Any, true);
      i := FreeWitness(args[k], d);
  }

  // ---- the pass keeps it ----

  lemma {:induction false} ShiftProper(c: Cir, depth: nat, d: nat, m: Mode, boxes: bool)
    requires Proper(c, d, m, boxes) && depth <= d
    ensures Proper(ShiftFree(c, 1, depth), d + 1, m, boxes)
    decreases c, 1
  {
    hide ShiftFree, Proper;
    match c
    case Lam(_) => ShiftBinderProper(c, depth, d, m, boxes);
    case Fix(_) => ShiftBinderProper(c, depth, d, m, boxes);
    case Let(_, _) => ShiftBinderProper(c, depth, d, m, boxes);
    case Case(_, _) => ShiftCaseProper(c, depth, d, m, boxes);
    case Prim(_, _) => ShiftPrimProper(c, depth, d, m, boxes);
    case _ => ShiftFlatProper(c, depth, d, m, boxes);
  }

  lemma {:induction false} ShiftBinderProper(c: Cir, depth: nat, d: nat, m: Mode, boxes: bool)
    requires (c.Lam? || c.Fix? || c.Let?) && Proper(c, d, m, boxes) && depth <= d
    ensures Proper(ShiftFree(c, 1, depth), d + 1, m, boxes)
    decreases c, 0
  {
    if c.Let? {
      ShiftProper(c.v, depth, d, Inner(m), boxes);
      ShiftProper(c.b, depth + 1, d + 1, m, boxes);
    } else {
      ShiftProper(c.body, depth + 1, d + 1, if c.Lam? then Enclosed(m) else m, boxes);
    }
  }

  lemma {:induction false} ShiftCaseProper(c: Cir, depth: nat, d: nat, m: Mode, boxes: bool)
    requires c.Case? && Proper(c, d, m, boxes) && depth <= d
    ensures Proper(ShiftFree(c, 1, depth), d + 1, m, boxes)
    decreases c, 0
  {
    hide ShiftArms;
    ShiftProper(c.scrut, depth, d, Inner(m), boxes);
    ShiftArmsProper(c.arms, depth, d, m, boxes);
  }

  lemma {:induction false} ShiftPrimProper(c: Cir, depth: nat, d: nat, m: Mode, boxes: bool)
    requires c.Prim? && Proper(c, d, m, boxes) && depth <= d
    ensures Proper(ShiftFree(c, 1, depth), d + 1, m, boxes)
    decreases c, 0
  {
    hide ShiftAll;
    ShiftAllProper(c.args, depth, d, Inner(m), boxes);
  }

  lemma {:induction false} ShiftFlatProper(c: Cir, depth: nat, d: nat, m: Mode, boxes: bool)
    requires !c.Lam? && !c.Fix? && !c.Let? && !c.Case? && !c.Prim? && Proper(c, d, m, boxes) && depth <= d
    ensures Proper(ShiftFree(c, 1, depth), d + 1, m, boxes)
    decreases c, 0
  {
    if c.App? {
      ShiftProper(c.f, depth, d, Inner(m), boxes);
      ShiftProper(c.a, depth, d, Inner(m), boxes);
    } else if c.IfZero? {
      ShiftProper(c.scrut, depth, d, Inner(m), boxes);
      ShiftProper(c.then_, depth, d, m, boxes);
      ShiftProper(c.else_, depth, d, m, boxes);
    }
  }

  lemma {:induction false} ShiftAllProper(cs: seq<Cir>, depth: nat, d: nat, m: Mode, boxes: bool)
    requires depth <= d && forall k :: 0 <= k < |cs| ==> Proper(cs[k], d, m, boxes) == true
    ensures forall k :: 0 <= k < |cs| ==> Proper(ShiftAll(cs, 1, depth)[k], d + 1, m, boxes) == true
    decreases cs, 0
  {
    hide Proper, ShiftFree;
    forall k | 0 <= k < |cs| ensures Proper(ShiftFree(cs[k], 1, depth), d + 1, m, boxes) == true { ShiftProper(cs[k], depth, d, m, boxes); }
  }

  lemma {:induction false} ShiftArmsProper(arms: seq<Arm>, depth: nat, d: nat, m: Mode, boxes: bool)
    requires depth <= d && forall k :: 0 <= k < |arms| ==> Proper(arms[k].body, d + arms[k].binders, m, boxes) == true
    ensures forall k :: 0 <= k < |arms| ==> Proper(ShiftArms(arms, 1, depth)[k].body, d + 1 + arms[k].binders, m, boxes) == true
    decreases arms, 0
  {
    hide Proper, ShiftFree;
    forall k | 0 <= k < |arms|
      ensures Proper(ShiftFree(arms[k].body, 1, depth + arms[k].binders), d + 1 + arms[k].binders, m, boxes) == true
    {
      ShiftProper(arms[k].body, depth + arms[k].binders, d + arms[k].binders, m, boxes);
    }
  }

  lemma {:induction false} ReplaceProper(c: Cir, t: Cir, d: nat, m: Mode, boxes: bool)
    requires Proper(c, d, m, boxes) && d > 0
    ensures Proper(Replace(c, t), d, m, boxes)
    decreases c
  {
    if c != t {
      match c
      case App(f, a) => ReplaceProper(f, t, d, Inner(m), boxes); ReplaceProper(a, t, d, Inner(m), boxes);
      case Let(v, _) => ReplaceProper(v, t, d, Inner(m), boxes);
      case Case(s, _) => ReplaceProper(s, t, d, Inner(m), boxes);
      case Prim(_, args) =>
        forall k | 0 <= k < |args| ensures Proper(Replace(args[k], t), d, Inner(m), boxes) { ReplaceProper(args[k], t, d, Inner(m), boxes); }
      case _ =>
    }
  }

  lemma {:induction false} VisitsProper(c: Cir, t: Cir, d: nat, m: Mode, boxes: bool)
    requires Proper(c, d, m, boxes) && t in Visits(c)
    ensures Proper(t, d, Inner(m), boxes)
    decreases c, 1
  {
    match c
    case App(f, a) =>
      if t in Visits(f) { VisitsProper(f, t, d, Inner(m), boxes); } else if t in Visits(a) { VisitsProper(a, t, d, Inner(m), boxes); }
    case Let(v, _) => if t in Visits(v) { VisitsProper(v, t, d, Inner(m), boxes); }
    case Case(s, _) => if t in Visits(s) { VisitsProper(s, t, d, Inner(m), boxes); }
    case Prim(_, args) => VisitsAllProper(args, t, d, m, boxes);
    case _ =>
  }

  lemma {:induction false} VisitsAllProper(cs: seq<Cir>, t: Cir, d: nat, m: Mode, boxes: bool)
    requires t in VisitsAll(cs) && forall k :: 0 <= k < |cs| ==> Proper(cs[k], d, Inner(m), boxes) == true
    ensures Proper(t, d, Inner(m), boxes)
    decreases cs, 0
  {
    var front, last := cs[..|cs| - 1], cs[|cs| - 1];
    if t in VisitsAll(front) {
      VisitsAllProper(front, t, d, m, boxes);
    } else if t in Visits(last) {
      VisitsProper(last, t, d, Inner(m), boxes);
    }
  }

  lemma {:induction false} HoistProper(c: Cir, d: nat, m: Mode, boxes: bool)
    requires Proper(c, d, m, boxes)
    ensures Proper(LocalHoist(c), d, m, boxes)
    decreases Work(c)
  {
    hide Proper, Hoisted, Visits, BestCandidate, IsCandidate, Work;
    var best := BestCandidate(c);
    BestIsLargestRepeat(c);
    if best.Some? {
      var t := best.value;
      HoistShrinks(c, t);
      MetInRegion(c, t);
      VisitsProper(c, t, d, m, boxes);
      HoistedProper(c, t, d, m, boxes);
      HoistProper(Hoisted(c, t), d + 1, m, boxes);
      LetProper(t, LocalHoist(Hoisted(c, t)), d, m, boxes);
    }
  }

  lemma HoistedProper(c: Cir, t: Cir, d: nat, m: Mode, boxes: bool)
    requires Proper(c, d, m, boxes)
    ensures Proper(Hoisted(c, t), d + 1, m, boxes)
  {
    ShiftProper(c, 0, d, m, boxes);
    ReplaceProper(ShiftFree(c, 1, 0), ShiftFree(t, 1, 0), d + 1, m, boxes);
  }

  lemma LetProper(v: Cir, b: Cir, d: nat, m: Mode, boxes: bool)
    requires Proper(v, d, Inner(m), boxes) && Proper(b, d + 1, m, boxes)
    ensures Proper(Let(v, b), d, m, boxes)
  {}

  lemma {:induction false} CseProper(c: Cir, d: nat, m: Mode, boxes: bool)
    requires Proper(c, d, m, boxes)
    ensures Proper(Cse(c), d, m, boxes)
    decreases Work(c), c, 2
  {
    hide Proper;
    HoistProper(c, d, m, boxes);
    ChildrenProper(LocalHoist(c), d, m, boxes);
  }

  lemma {:induction false} ChildrenProper(c: Cir, d: nat, m: Mode, boxes: bool)
    requires Proper(c, d, m, boxes)
    ensures Proper(CseChildren(c), d, m, boxes)
    decreases Work(c), c, 1
  {
    hide Cse, CseArms, CseAll;
    match c
    case Lam(b) => CseProper(b, d + 1, Enclosed(m), boxes);
    case Fix(b) =>
      CseProper(b, d + 1, m, boxes);
      LamKept(b);
    case App(f, a) => CseProper(f, d, Inner(m), boxes); CseProper(a, d, Inner(m), boxes);
    case Let(v, b) => CseProper(v, d, Inner(m), boxes); CseProper(b, d + 1, m, boxes);
    case Case(s, arms) =>
      CseProper(s, d, Inner(m), boxes);
      ArmsProper(s, arms, d, m, boxes);
    case IfZero(s, t, e) => CseProper(s, d, Inner(m), boxes); CseProper(t, d, m, boxes); CseProper(e, d, m, boxes);
    case Prim(_, args) => AllProper(args, d, Inner(m), boxes);
    case _ =>
  }

  lemma LamKept(b: Cir)
    ensures b.Lam? ==> Cse(b).Lam?
  {
    if b.Lam? { CsePreserves.LamStays(b); }
  }

  lemma {:induction false} ArmsProper(s: Cir, arms: seq<Arm>, d: nat, m: Mode, boxes: bool)
    requires forall k :: 0 <= k < |arms| ==> Proper(arms[k].body, d + arms[k].binders, m, boxes) == true
    ensures forall k :: 0 <= k < |arms| ==>
      CseArms(arms)[k].binders == arms[k].binders && Proper(CseArms(arms)[k].body, d + arms[k].binders, m, boxes) == true
    decreases Work(Case(s, arms)), Case(s, arms), 0
  {
    hide Cse, Proper, Work, CseArms;
    CseArmsAt(arms);
    forall k | 0 <= k < |arms| ensures Proper(Cse(arms[k].body), d + arms[k].binders, m, boxes) == true {
      CsePreserves.ArmWork(s, arms, k);
      CseProper(arms[k].body, d + arms[k].binders, m, boxes);
    }
  }

  lemma {:induction false} AllProper(cs: seq<Cir>, d: nat, m: Mode, boxes: bool)
    requires forall k :: 0 <= k < |cs| ==> Proper(cs[k], d, m, boxes) == true
    ensures forall k :: 0 <= k < |cs| ==> Proper(CseAll(cs)[k], d, m, boxes) == true
    decreases WorkAll(cs), cs, 0
  {
    hide Cse, Proper, Work;
    if cs != [] {
      AllProper(cs[..|cs| - 1], d, m, boxes);
      CseProper(cs[|cs| - 1], d, m, boxes);
    }
  }

  /** The pass takes a closed source program to a closed source program. */
  lemma CseClosed(c: Cir)
    requires IsSource(c) && forall i: nat :: !Free(c, i)
    ensures IsSource(Cse(c)) && forall i: nat :: !Free(Cse(c), i)
  {
    hide IsSource, Free, Cse, Proper;
    ClosedProper(c);
    CseProper(c, 0, Any, true);
    forall i: nat ensures IsSource(Cse(c)) && !Free(Cse(c), i) { ProperBelow(Cse(c), 0, i); }
    ProperBelow(Cse(c), 0, 0);
  }

  lemma ClosedProper(c: Cir)
    requires IsSource(c) && forall i: nat :: !Free(c, i)
    ensures Proper(c, 0, Any, true)
  {
    hide IsSource, Free, Proper;
    if !Proper(c, 0, Any, true) {
      var i := FreeWitness(c, 0);
    }
  }

  /** Sharing moves no branch out of tail position, because what is shared is never a branch, and boxes
      nothing that was not boxed. */
  lemma CseShaped(c: Cir, boxes: bool)
    requires IsSource(c) && (forall i: nat :: !Free(c, i)) && Shaped(c, Body, boxes)
    ensures Shaped(Cse(c), Body, boxes)
  {
    hide IsSource, Free, Cse, Proper, Shaped;
    ClosedProper(c);
    ProperIsShaped(c, 0, Body, boxes);
    CseProper(c, 0, Body, boxes);
    CseProper(c, 0, Any, true);
    ProperIsShaped(Cse(c), 0, Body, boxes);
  }
}
