/** The sharing pass shares: whatever repeats is bound once, and a term it does not change has nothing to
    share anywhere. */
module CseShares {
  import opened Basics
  import opened Values
  import opened CirLang
  import opened CseHoist

  // ---- the eager region by positions ----

  /** The child at a position evaluated unconditionally and under no binder. */
  function EagerChild(c: Cir, k: nat): Option<Cir> {
    match c
    case App(f, a) => if k == 0 then Some(f) else if k == 1 then Some(a) else None
    case CallClosure(f, a) => if k == 0 then Some(f) else if k == 1 then Some(a) else None
    case Let(v, _) => if k == 0 then Some(v) else None
    case Case(s, _) => if k == 0 then Some(s) else None
    case MkClosure(_, caps) => if k < |caps| then Some(caps[k]) else None
    case Prim(_, args) => if k < |args| then Some(args[k]) else None
    case _ => None
  }

  function EagerAt(c: Cir, path: seq<nat>): Option<Cir> {
    if path == [] then Some(c)
    else match EagerChild(c, path[0]) case None => None case Some(d) => EagerAt(d, path[1..])
  }

  lemma {:induction false} MetAllOne(cs: seq<Cir>, t: Cir, k: nat)
    requires k < |cs|
    ensures MetAll(cs, t) >= Met(cs[k], t)
  {
    hide Met;
    if k < |cs| - 1 { MetAllOne(cs[..|cs| - 1], t, k); }
  }

  lemma {:induction false} MetAllTwo(cs: seq<Cir>, t: Cir, j: nat, k: nat)
    requires j < k < |cs|
    ensures MetAll(cs, t) >= Met(cs[j], t) + Met(cs[k], t)
  {
    hide Met;
    if k < |cs| - 1 { MetAllTwo(cs[..|cs| - 1], t, j, k); } else { MetAllOne(cs[..k], t, j); }
  }

  lemma ChildMet(c: Cir, t: Cir, k: nat)
    requires EagerChild(c, k).Some?
    ensures Occurs(c, t) >= Met(EagerChild(c, k).value, t)
  {
    hide Met, Occurs;
    OccursIs(c, t);
    if c.MkClosure? { MetAllOne(c.caps, t, k); }
    if c.Prim? { MetAllOne(c.args, t, k); }
  }

  lemma ChildrenMet(c: Cir, t: Cir, j: nat, k: nat)
    requires EagerChild(c, j).Some? && EagerChild(c, k).Some? && j < k
    ensures Occurs(c, t) >= Met(EagerChild(c, j).value, t) + Met(EagerChild(c, k).value, t)
  {
    hide Met, Occurs;
    OccursIs(c, t);
    if c.MkClosure? { MetAllTwo(c.caps, t, j, k); }
    if c.Prim? { MetAllTwo(c.args, t, j, k); }
  }

  lemma {:induction false} FoundMet(c: Cir, path: seq<nat>, t: Cir)
    requires EagerAt(c, path) == Some(t)
    ensures Met(c, t) >= 1 && (path != [] ==> Occurs(c, t) >= 1)
    decreases path
  {
    hide Occurs;
    if path != [] {
      FoundMet(EagerChild(c, path[0]).value, path[1..], t);
      ChildMet(c, t, path[0]);
    }
  }

  /** A subterm at two positions is met twice. */
  lemma {:induction false} FoundTwice(c: Cir, p: seq<nat>, q: seq<nat>, t: Cir)
    requires EagerAt(c, p) == EagerAt(c, q) == Some(t) && p != q && p != [] && q != []
    ensures Occurs(c, t) >= 2
    decreases p
  {
    hide Occurs;
    if p[0] == q[0] {
      var d := EagerChild(c, p[0]).value;
      assert p == [p[0]] + p[1..] && q == [q[0]] + q[1..];
      ChildMet(c, t, p[0]);
      if p[1..] == [] || q[1..] == [] {
        NotInItself(t);
        FoundMet(d, p[1..], t);
        FoundMet(d, q[1..], t);
        assert false;
      } else {
        FoundTwice(d, p[1..], q[1..], t);
        if d == t { NotInItself(t); }
      }
    } else {
      FoundMet(EagerChild(c, p[0]).value, p[1..], t);
      FoundMet(EagerChild(c, q[0]).value, q[1..], t);
      if p[0] < q[0] { ChildrenMet(c, t, p[0], q[0]); } else { ChildrenMet(c, t, q[0], p[0]); }
    }
  }

  // ---- one node ----

  /** Nothing worth sharing repeats in the region. */
  ghost predicate NothingRepeats(c: Cir) {
    forall t :: IsCandidate(t) ==> Occurs(c, t) < 2
  }

  /** A largest of the candidates that repeat. */
  ghost predicate LargestRepeat(c: Cir, t: Cir) {
    IsCandidate(t) && Occurs(c, t) >= 2 && forall u :: IsCandidate(u) && Occurs(c, u) >= 2 ==> Size(u) <= Size(t)
  }

  /** Of nested repeats the outer one is chosen: nothing that repeats contains the largest. */
  lemma LargestSubsumes(c: Cir, t: Cir, u: Cir)
    requires LargestRepeat(c, t) && IsCandidate(u) && Occurs(c, u) >= 2
    ensures t !in Visits(u)
  {
    hide IsCandidate, Occurs, Visits, Size;
    if t in Visits(u) { VisitsSmaller(u, t); }
  }

  /** Bindings in front of a term, the first outermost. */
  function Lets(ts: seq<Cir>, b: Cir): Cir {
    if ts == [] then b else Let(ts[0], Lets(ts[1..], b))
  }

  /** Sharing one largest repeat after the other until nothing repeats: `ts` are shared, `b` is left. */
  ghost predicate Shares(c: Cir, ts: seq<Cir>, b: Cir)
    decreases ts
  {
    if ts == [] then b == c && NothingRepeats(b)
    else LargestRepeat(c, ts[0]) && Shares(Hoisted(c, ts[0]), ts[1..], b)
  }

  /** Hoisting at one node binds one largest repeat after the other, and in what is left under the bindings
      nothing worth sharing repeats. */
  lemma {:induction false} HoistsAll(c: Cir) returns (ts: seq<Cir>, b: Cir)
    ensures LocalHoist(c) == Lets(ts, b) && Shares(c, ts, b) && NothingRepeats(b)
    ensures ts == [] <==> NothingRepeats(c)
    decreases Work(c)
  {
    hide Work, IsCandidate, Size, Occurs, Hoisted;
    BestIsLargestRepeat(c);
    var best := BestCandidate(c);
    if best.None? {
      ts, b := [], c;
    } else {
      HoistShrinks(c, best.value);
      var rest;
      rest, b := HoistsAll(Hoisted(c, best.value));
      ts := [best.value] + rest;
      assert ts[1..] == rest;
    }
  }

  /** Hoisting changes a term exactly when something repeats in its region, and then leaves less work. */
  lemma HoistsIff(c: Cir)
    ensures LocalHoist(c) == c <==> NothingRepeats(c)
    ensures !NothingRepeats(c) ==> Work(LocalHoist(c)) < Work(c)
  {
    hide IsCandidate, Size, Occurs, Hoisted, Work;
    BestIsLargestRepeat(c);
    var best := BestCandidate(c);
    if best.Some? {
      HoistShrinks(c, best.value);
      var h := Hoisted(c, best.value);
      LetWork(best.value, LocalHoist(h));
    }
  }

  lemma LetWork(v: Cir, b: Cir)
    ensures Work(Let(v, b)) == Work(v) + Work(b)
  {}

  // ---- the whole pass ----

  /** Nothing worth sharing repeats in any region of the term. */
  ghost predicate Settled(c: Cir) {
    NothingRepeats(c) &&
    match c
    case Lam(b) => Settled(b)
    case Fix(b) => Settled(b)
    case App(f, a) => Settled(f) && Settled(a)
    case CallClosure(f, a) => Settled(f) && Settled(a)
    case Let(v, b) => Settled(v) && Settled(b)
    case Case(s, arms) => Settled(s) && forall k :: 0 <= k < |arms| ==> Settled(arms[k].body)
    case IfZero(s, t, e) => Settled(s) && Settled(t) && Settled(e)
    case MkClosure(_, caps) => forall k :: 0 <= k < |caps| ==> Settled(caps[k])
    case Prim(_, args) => forall k :: 0 <= k < |args| ==> Settled(args[k])
    case _ => true
  }

  /** The pass leaves a settled term alone, and any other term with less work. */
  ghost predicate Shrinks(c: Cir) {
    if Settled(c) then Cse(c) == c else Work(Cse(c)) < Work(c)
  }

  lemma NotMore(c: Cir)
    requires Shrinks(c)
    ensures Work(Cse(c)) <= Work(c) && (Settled(c) ==> Cse(c) == c) && (!Settled(c) ==> Work(Cse(c)) < Work(c))
  {
    hide Work, Cse, Settled;
  }

  lemma {:induction false} CseShrinks(c: Cir)
    ensures Shrinks(c)
    decreases Work(c), c, 2
  {
    hide Work, NothingRepeats, LocalHoist, CseChildren;
    HoistsIff(c);
    if NothingRepeats(c) {
      ChildrenShrink(c);
    } else {
      ChildrenShrink(LocalHoist(c));
    }
  }

  /** Apart from its own region. */
  ghost predicate SettledBelow(c: Cir) {
    match c
    case Lam(b) => Settled(b)
    case Fix(b) => Settled(b)
    case App(f, a) => Settled(f) && Settled(a)
    case CallClosure(f, a) => Settled(f) && Settled(a)
    case Let(v, b) => Settled(v) && Settled(b)
    case Case(s, arms) => Settled(s) && ArmsSettled(arms)
    case IfZero(s, t, e) => Settled(s) && Settled(t) && Settled(e)
    case MkClosure(_, caps) => AllSettled(caps)
    case Prim(_, args) => AllSettled(args)
    case _ => true
  }

  ghost predicate AllSettled(cs: seq<Cir>) {
    forall k :: 0 <= k < |cs| ==> Settled(cs[k])
  }

  ghost predicate ArmsSettled(arms: seq<Arm>) {
    forall k :: 0 <= k < |arms| ==> Settled(arms[k].body)
  }

  lemma {:induction false} ChildrenShrink(c: Cir)
    ensures Work(CseChildren(c)) <= Work(c)
    ensures SettledBelow(c) ==> CseChildren(c) == c
    ensures !SettledBelow(c) ==> Work(CseChildren(c)) < Work(c)
    ensures Settled(c) <==> NothingRepeats(c) && SettledBelow(c)
    decreases Work(c), c, 1
  {
    hide NothingRepeats, Cse, CseAll, CseArms, WorkAll, WorkArms, Shrinks;
    match c
    case Lam(b) => CseShrinks(b); NotMore(b);
    case Fix(b) => CseShrinks(b); NotMore(b);
    case App(f, a) => CseShrinks(f); CseShrinks(a); NotMore(f); NotMore(a);
    case CallClosure(f, a) => CseShrinks(f); CseShrinks(a); NotMore(f); NotMore(a);
    case Let(v, b) => CseShrinks(v); CseShrinks(b); NotMore(v); NotMore(b);
    case Case(s, arms) => CseShrinks(s); NotMore(s); ArmsShrink(arms);
    case IfZero(s, t, e) => CseShrinks(s); CseShrinks(t); CseShrinks(e); NotMore(s); NotMore(t); NotMore(e);
    case MkClosure(_, caps) => AllShrink(caps);
    case Prim(_, args) => AllShrink(args);
    case _ =>
  }

  lemma AllSettledLast(front: seq<Cir>, last: Cir)
    ensures AllSettled(front + [last]) <==> AllSettled(front) && Settled(last)
  {
    hide Settled;
    var cs := front + [last];
    assert forall k :: 0 <= k < |front| ==> front[k] == cs[k];
    assert cs[|front|] == last;
  }

  lemma ArmsSettledLast(front: seq<Arm>, last: Arm)
    ensures ArmsSettled(front + [last]) <==> ArmsSettled(front) && Settled(last.body)
  {
    hide Settled;
    var arms := front + [last];
    assert forall k :: 0 <= k < |front| ==> front[k] == arms[k];
    assert arms[|front|] == last;
  }

  lemma CseAllLast(front: seq<Cir>, last: Cir)
    ensures CseAll(front + [last]) == CseAll(front) + [Cse(last)]
    ensures WorkAll(front + [last]) == WorkAll(front) + Work(last)
    ensures WorkAll(CseAll(front) + [Cse(last)]) == WorkAll(CseAll(front)) + Work(Cse(last))
  {
    hide Cse, Work;
    assert (front + [last])[..|front|] == front;
    assert (CseAll(front) + [Cse(last)])[..|front|] == CseAll(front);
  }

  lemma CseArmsLast(front: seq<Arm>, last: Arm)
    ensures CseArms(front + [last]) == CseArms(front) + [Arm(last.con, last.binders, Cse(last.body))]
    ensures WorkArms(front + [last]) == WorkArms(front) + Work(last.body)
    ensures WorkArms(CseArms(front) + [Arm(last.con, last.binders, Cse(last.body))]) == WorkArms(CseArms(front)) + Work(Cse(last.body))
  {
    hide Cse, Work;
    assert (front + [last])[..|front|] == front;
    assert (CseArms(front) + [Arm(last.con, last.binders, Cse(last.body))])[..|front|] == CseArms(front);
  }

  lemma {:induction false} AllShrink(cs: seq<Cir>)
    ensures WorkAll(CseAll(cs)) <= WorkAll(cs)
    ensures AllSettled(cs) ==> CseAll(cs) == cs
    ensures !AllSettled(cs) ==> WorkAll(CseAll(cs)) < WorkAll(cs)
    decreases WorkAll(cs), cs, 0
  {
    hide Cse, Work, Settled, Shrinks;
    if cs != [] {
      var front, last := cs[..|cs| - 1], cs[|cs| - 1];
      assert cs == front + [last];
      hide WorkAll, CseAll, AllSettled;
      CseAllLast(front, last);
      AllSettledLast(front, last);
      AllShrink(front);
      CseShrinks(last);
      NotMore(last);
    }
  }

  lemma {:induction false} ArmsShrink(arms: seq<Arm>)
    ensures WorkArms(CseArms(arms)) <= WorkArms(arms)
    ensures ArmsSettled(arms) ==> CseArms(arms) == arms
    ensures !ArmsSettled(arms) ==> WorkArms(CseArms(arms)) < WorkArms(arms)
    decreases WorkArms(arms), arms, 0
  {
    hide Cse, Work, Settled, Shrinks;
    if arms != [] {
      var front, last := arms[..|arms| - 1], arms[|arms| - 1];
      assert arms == front + [last];
      hide WorkArms, CseArms, ArmsSettled;
      CseArmsLast(front, last);
      ArmsSettledLast(front, last);
      ArmsShrink(front);
      CseShrinks(last.body);
      NotMore(last.body);
    }
  }

  // ---- main results ----

  /** Worth sharing: it mentions nothing erased, and is a primitive other than a literal, a closure, or a call
      whose function is not a lambda or a fixpoint in place. */
  predicate WorthSharing(t: Cir) {
    !MentionsErased(t)
    && ((t.Prim? && !t.op.LitOp?) || t.MkClosure? || (t.CallClosure? && !t.f.Lam? && !t.f.Fix?)
        || (t.App? && !Head(t).Lam? && !Head(t).Fix?))
  }

  lemma CandidateIs(t: Cir)
    ensures IsCandidate(t) <==> WorthSharing(t)
  {
    hide MentionsErased;
  }

  /** What stands at two positions of the region, and is worth sharing, is shared: less work is left. */
  lemma RepeatIsShared(c: Cir, p: seq<nat>, q: seq<nat>, t: Cir)
    requires EagerAt(c, p) == EagerAt(c, q) == Some(t) && p != q && p != [] && q != [] && WorthSharing(t)
    ensures Work(Cse(c)) < Work(c)
  {
    hide Work, Cse, Occurs, IsCandidate, WorthSharing;
    FoundTwice(c, p, q, t);
    CandidateIs(t);
    CseShrinks(c);
  }

  /** The pass changes a term exactly when something worth sharing repeats in some region of it, and then
      leaves less work. */
  lemma SharesIff(c: Cir)
    ensures Settled(c) <==> Cse(c) == c
    ensures !Settled(c) ==> Work(Cse(c)) < Work(c)
  {
    hide Work, Cse, Settled;
    CseShrinks(c);
  }
}
