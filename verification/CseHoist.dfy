/** Common-subexpression elimination: a computation repeated in the part of a term that is evaluated
    unconditionally and under no binder is bound once and shared. */
module CseHoist {
  import opened Basics
  import opened Values
  import opened CirLang

  // ---- renumbering ----

  /** The term under `up` more binders, placed just outside its innermost `depth`. */
  function ShiftFree(c: Cir, up: nat, depth: nat): Cir
    decreases c, 1
  {
    match c
    case Var(i) => if i >= depth then Var(i + up) else c
    case EnvRef(_) => c
    case Global(_) => c
    case Erased => c
    case Lam(b) => Lam(ShiftFree(b, up, depth + 1))
    case Fix(b) => Fix(ShiftFree(b, up, depth + 1))
    case App(f, a) => App(ShiftFree(f, up, depth), ShiftFree(a, up, depth))
    case CallClosure(f, a) => CallClosure(ShiftFree(f, up, depth), ShiftFree(a, up, depth))
    case Let(v, b) => Let(ShiftFree(v, up, depth), ShiftFree(b, up, depth + 1))
    case Case(s, arms) => Case(ShiftFree(s, up, depth), ShiftArms(arms, up, depth))
    case IfZero(s, t, e) => IfZero(ShiftFree(s, up, depth), ShiftFree(t, up, depth), ShiftFree(e, up, depth))
    case MkClosure(name, caps) => MkClosure(name, ShiftAll(caps, up, depth))
    case Prim(op, args) => Prim(op, ShiftAll(args, up, depth))
  }

  function ShiftAll(cs: seq<Cir>, up: nat, depth: nat): (r: seq<Cir>)
    ensures |r| == |cs| && forall k :: 0 <= k < |cs| ==> r[k] == ShiftFree(cs[k], up, depth)
    decreases cs, 0
  {
    if cs == [] then [] else ShiftAll(cs[..|cs| - 1], up, depth) + [ShiftFree(cs[|cs| - 1], up, depth)]
  }

  function ShiftArms(arms: seq<Arm>, up: nat, depth: nat): (r: seq<Arm>)
    ensures |r| == |arms|
    ensures forall k :: 0 <= k < |arms| ==>
      r[k] == Arm(arms[k].con, arms[k].binders, ShiftFree(arms[k].body, up, depth + arms[k].binders))
    decreases arms, 0
  {
    if arms == [] then []
    else
      var last := arms[|arms| - 1];
      ShiftArms(arms[..|arms| - 1], up, depth) + [Arm(last.con, last.binders, ShiftFree(last.body, up, depth + last.binders))]
  }

  // ---- the eager region ----

  /** The proper subterms reached through positions evaluated unconditionally and under no binder. */
  function Visits(c: Cir): seq<Cir>
    decreases c, 1
  {
    match c
    case App(f, a) => [f] + Visits(f) + [a] + Visits(a)
    case CallClosure(f, a) => [f] + Visits(f) + [a] + Visits(a)
    case Let(v, _) => [v] + Visits(v)
    case Case(s, _) => [s] + Visits(s)
    case MkClosure(_, caps) => VisitsAll(caps)
    case Prim(_, args) => VisitsAll(args)
    case _ => []
  }

  function VisitsAll(cs: seq<Cir>): seq<Cir>
    decreases cs, 0
  {
    if cs == [] then [] else VisitsAll(cs[..|cs| - 1]) + [cs[|cs| - 1]] + Visits(cs[|cs| - 1])
  }

  function Times(s: seq<Cir>, t: Cir): nat {
    multiset(s)[t]
  }

  function Occurs(c: Cir, t: Cir): nat {
    Times(Visits(c), t)
  }

  /** The term with every region occurrence of `t` replaced by the innermost variable. */
  function Replace(c: Cir, t: Cir): Cir
    decreases c, 1
  {
    if c == t then Var(0)
    else
      match c
      case App(f, a) => App(Replace(f, t), Replace(a, t))
      case CallClosure(f, a) => CallClosure(Replace(f, t), Replace(a, t))
      case Let(v, b) => Let(Replace(v, t), b)
      case Case(s, arms) => Case(Replace(s, t), arms)
      case MkClosure(name, caps) => MkClosure(name, ReplaceAll(caps, t))
      case Prim(op, args) => Prim(op, ReplaceAll(args, t))
      case _ => c
  }

  function ReplaceAll(cs: seq<Cir>, t: Cir): (r: seq<Cir>)
    ensures |r| == |cs| && forall k :: 0 <= k < |cs| ==> r[k] == Replace(cs[k], t)
    decreases cs, 0
  {
    if cs == [] then [] else ReplaceAll(cs[..|cs| - 1], t) + [Replace(cs[|cs| - 1], t)]
  }

  // ---- candidates ----

  function Size(c: Cir): (n: nat)
    ensures n > 0
    decreases c, 1
  {
    1 + match c
        case Lam(b) => Size(b)
        case Fix(b) => Size(b)
        case App(f, a) => Size(f) + Size(a)
        case CallClosure(f, a) => Size(f) + Size(a)
        case Let(v, b) => Size(v) + Size(b)
        case Case(s, arms) => Size(s) + SizeArms(arms)
        case IfZero(s, t, e) => Size(s) + Size(t) + Size(e)
        case MkClosure(_, caps) => SizeAll(caps)
        case Prim(_, args) => SizeAll(args)
        case _ => 0
  }

  function SizeAll(cs: seq<Cir>): nat
    decreases cs, 0
  {
    if cs == [] then 0 else SizeAll(cs[..|cs| - 1]) + Size(cs[|cs| - 1])
  }

  function SizeArms(arms: seq<Arm>): nat
    decreases arms, 0
  {
    if arms == [] then 0 else SizeArms(arms[..|arms| - 1]) + Size(arms[|arms| - 1].body)
  }

  /** The function at the root of a spine of applications. */
  function Head(c: Cir): Cir {
    if c.App? then Head(c.f) else c
  }

  predicate MentionsErased(c: Cir)
  {
    match c
    case Erased => true
    case Lam(b) => MentionsErased(b)
    case Fix(b) => MentionsErased(b)
    case App(f, a) => MentionsErased(f) || MentionsErased(a)
    case CallClosure(f, a) => MentionsErased(f) || MentionsErased(a)
    case Let(v, b) => MentionsErased(v) || MentionsErased(b)
    case Case(s, arms) => MentionsErased(s) || exists k :: 0 <= k < |arms| && MentionsErased(arms[k].body)
    case IfZero(s, t, e) => MentionsErased(s) || MentionsErased(t) || MentionsErased(e)
    case MkClosure(_, caps) => exists k :: 0 <= k < |caps| && MentionsErased(caps[k])
    case Prim(_, args) => exists k :: 0 <= k < |args| && MentionsErased(args[k])
    case _ => false
  }

  /** Worth sharing: it allocates or computes, and is not a redex left for another pass. */
  predicate Beneficial(c: Cir) {
    match c
    case App(_, _) => !Head(c).Lam? && !Head(c).Fix?
    case CallClosure(f, _) => !f.Lam? && !f.Fix?
    case Prim(op, _) => !op.LitOp?
    case MkClosure(_, _) => true
    case _ => false
  }

  predicate IsCandidate(c: Cir) {
    Beneficial(c) && !MentionsErased(c)
  }

  type Tally = seq<(Cir, nat)>

  function Bump(counts: Tally, c: Cir): Tally {
    if counts == [] then [(c, 1)]
    else if counts[0].0 == c then [(c, counts[0].1 + 1)] + counts[1..]
    else [counts[0]] + Bump(counts[1..], c)
  }

  /** The candidates among the visited terms, in order of first visit, with how often each was seen. */
  function Count(visits: seq<Cir>): Tally {
    if visits == [] then []
    else
      var last := visits[|visits| - 1];
      var earlier := Count(visits[..|visits| - 1]);
      if IsCandidate(last) then Bump(earlier, last) else earlier
  }

  /** The largest entry seen at least twice; of several, the last. */
  function Largest(counts: Tally): Option<Cir> {
    if counts == [] then None
    else
      var best, last := Largest(counts[..|counts| - 1]), counts[|counts| - 1];
      if last.1 >= 2 && (best.None? || Size(last.0) >= Size(best.value)) then Some(last.0) else best
  }

  function BestCandidate(c: Cir): Option<Cir> {
    Largest(Count(Visits(c)))
  }

  // ---- what the best candidate is ----

  ghost predicate Tallies(counts: Tally, visits: seq<Cir>) {
    (forall i, j :: 0 <= i < j < |counts| ==> counts[i].0 != counts[j].0)
    && (forall i :: 0 <= i < |counts| ==> IsCandidate(counts[i].0) && counts[i].1 == multiset(visits)[counts[i].0])
    && (forall t :: t in visits && IsCandidate(t) ==> exists i :: 0 <= i < |counts| && counts[i].0 == t)
  }

  lemma {:induction false} BumpIs(counts: Tally, c: Cir, r: Tally)
    requires r == Bump(counts, c)
    requires forall i, j :: 0 <= i < j < |counts| ==> counts[i].0 != counts[j].0
    ensures |counts| <= |r| && forall i :: 0 <= i < |counts| ==> r[i].0 == counts[i].0
    ensures forall i :: 0 <= i < |counts| ==> r[i].1 == counts[i].1 + if counts[i].0 == c then 1 else 0
    ensures if exists i :: 0 <= i < |counts| && counts[i].0 == c then |r| == |counts| else r == counts + [(c, 1)]
  {
    if counts != [] {
      var tail := counts[1..];
      if counts[0].0 == c {
        assert forall i :: 0 <= i < |tail| ==> tail[i] == counts[i + 1];
      } else {
        BumpIs(tail, c, Bump(tail, c));
        assert forall i :: 0 < i < |counts| ==> counts[i] == tail[i - 1];
        if i :| 0 <= i < |counts| && counts[i].0 == c {
          assert tail[i - 1].0 == c;
        }
      }
    }
  }

  lemma {:induction false} CountTallies(visits: seq<Cir>)
    ensures Tallies(Count(visits), visits)
  {
    hide IsCandidate;
    if visits != [] {
      var front, last := visits[..|visits| - 1], visits[|visits| - 1];
      CountTallies(front);
      assert visits == front + [last];
      assert multiset(visits) == multiset(front) + multiset{last};
      if IsCandidate(last) {
        BumpTallies(Count(front), front, last);
      }
    }
  }

  lemma BumpTallies(counts: Tally, visits: seq<Cir>, c: Cir)
    requires Tallies(counts, visits) && IsCandidate(c)
    ensures Tallies(Bump(counts, c), visits + [c])
  {
    hide IsCandidate, Bump;
    var r := Bump(counts, c);
    BumpIs(counts, c, r);
    assert multiset(visits + [c]) == multiset(visits) + multiset{c};
    forall t | t in visits + [c] && IsCandidate(t) ensures exists i :: 0 <= i < |r| && r[i].0 == t {
      if t in visits {
        var i :| 0 <= i < |counts| && counts[i].0 == t;
        assert r[i].0 == t;
      } else if !exists i :: 0 <= i < |counts| && counts[i].0 == c {
        assert r[|counts|].0 == t;
      }
    }
  }

  lemma {:induction false} LargestIs(counts: Tally)
    ensures match Largest(counts)
            case None => forall i :: 0 <= i < |counts| ==> counts[i].1 < 2
            case Some(k) =>
              (exists i :: 0 <= i < |counts| && counts[i].0 == k && counts[i].1 >= 2)
              && forall i :: 0 <= i < |counts| && counts[i].1 >= 2 ==> Size(counts[i].0) <= Size(k)
  {
    hide Size;
    if counts != [] {
      var front := counts[..|counts| - 1];
      LargestIs(front);
      assert forall i :: 0 <= i < |front| ==> front[i] == counts[i];
      if Largest(front).Some? {
        var i :| 0 <= i < |front| && front[i].0 == Largest(front).value && front[i].1 >= 2;
        assert counts[i] == front[i];
      }
    }
  }

  /** The chosen subterm repeats, and none that repeats is larger; there is none exactly when nothing
      worth sharing repeats. */
  lemma BestIsLargestRepeat(c: Cir)
    ensures match BestCandidate(c)
            case None => forall t :: IsCandidate(t) ==> Occurs(c, t) < 2
            case Some(k) =>
              IsCandidate(k) && Occurs(c, k) >= 2
              && forall t :: IsCandidate(t) && Occurs(c, t) >= 2 ==> Size(t) <= Size(k)
  {
    hide IsCandidate, Size, Count, Largest;
    var counts := Count(Visits(c));
    CountTallies(Visits(c));
    LargestIs(counts);
    forall t | IsCandidate(t) && Occurs(c, t) >= 2
      ensures exists i :: 0 <= i < |counts| && counts[i].0 == t && counts[i].1 >= 2
    {
      assert t in Visits(c);
      var i :| 0 <= i < |counts| && counts[i].0 == t;
    }
  }

  lemma MetInRegion(c: Cir, t: Cir)
    requires Occurs(c, t) >= 2
    ensures t in Visits(c)
  {
    assert t in multiset(Visits(c));
  }

  // ---- sharing shrinks the work ----

  /** The nodes that are neither variables nor bindings. */
  function Work(c: Cir): nat
    decreases c, 1
  {
    match c
    case Var(_) => 0
    case Let(v, b) => Work(v) + Work(b)
    case Lam(b) => 1 + Work(b)
    case Fix(b) => 1 + Work(b)
    case App(f, a) => 1 + Work(f) + Work(a)
    case CallClosure(f, a) => 1 + Work(f) + Work(a)
    case Case(s, arms) => 1 + Work(s) + WorkArms(arms)
    case IfZero(s, t, e) => 1 + Work(s) + Work(t) + Work(e)
    case MkClosure(_, caps) => 1 + WorkAll(caps)
    case Prim(_, args) => 1 + WorkAll(args)
    case _ => 1
  }

  function WorkAll(cs: seq<Cir>): nat
    decreases cs, 0
  {
    if cs == [] then 0 else WorkAll(cs[..|cs| - 1]) + Work(cs[|cs| - 1])
  }

  function WorkArms(arms: seq<Arm>): nat
    decreases arms, 0
  {
    if arms == [] then 0 else WorkArms(arms[..|arms| - 1]) + Work(arms[|arms| - 1].body)
  }

  lemma {:induction false} VisitsSmaller(c: Cir, t: Cir)
    requires t in Visits(c)
    ensures Size(t) < Size(c)
    decreases c, 1
  {
    match c
    case App(f, a) =>
      if t in Visits(f) { VisitsSmaller(f, t); }
      if t in Visits(a) { VisitsSmaller(a, t); }
    case CallClosure(f, a) =>
      if t in Visits(f) { VisitsSmaller(f, t); }
      if t in Visits(a) { VisitsSmaller(a, t); }
    case Let(v, _) => if t in Visits(v) { VisitsSmaller(v, t); }
    case Case(s, _) => if t in Visits(s) { VisitsSmaller(s, t); }
    case MkClosure(_, caps) => VisitsAllSmaller(caps, t);
    case Prim(_, args) => VisitsAllSmaller(args, t);
    case _ =>
  }

  lemma {:induction false} VisitsAllSmaller(cs: seq<Cir>, t: Cir)
    requires t in VisitsAll(cs)
    ensures Size(t) <= SizeAll(cs)
    decreases cs, 0
  {
    var front, last := cs[..|cs| - 1], cs[|cs| - 1];
    if t in VisitsAll(front) {
      VisitsAllSmaller(front, t);
    } else if t in Visits(last) {
      VisitsSmaller(last, t);
    }
  }

  /** A term, itself counted, and how often `t` is met in it. */
  function Met(c: Cir, t: Cir): nat {
    if c == t then 1 else Occurs(c, t)
  }

  function MetAll(cs: seq<Cir>, t: Cir): nat {
    if cs == [] then 0 else MetAll(cs[..|cs| - 1], t) + Met(cs[|cs| - 1], t)
  }

  lemma NotInItself(c: Cir)
    ensures Occurs(c, c) == 0
  {
    if c in Visits(c) { VisitsSmaller(c, c); }
  }

  lemma TimesPlus(a: seq<Cir>, b: seq<Cir>, t: Cir)
    ensures Times(a + b, t) == Times(a, t) + Times(b, t)
  {
    assert multiset(a + b) == multiset(a) + multiset(b);
  }

  lemma MetOne(c: Cir, t: Cir)
    ensures Times([c] + Visits(c), t) == Met(c, t)
  {
    hide Visits;
    NotInItself(c);
    TimesPlus([c], Visits(c), t);
  }

  lemma {:induction false} MetVisits(cs: seq<Cir>, t: Cir)
    ensures Times(VisitsAll(cs), t) == MetAll(cs, t)
  {
    hide Times, Met, Visits;
    if cs != [] {
      var front, last := cs[..|cs| - 1], cs[|cs| - 1];
      MetVisits(front, t);
      MetOne(last, t);
      assert VisitsAll(cs) == VisitsAll(front) + ([last] + Visits(last));
      TimesPlus(VisitsAll(front), [last] + Visits(last), t);
    } else {
      NothingMet(t);
    }
  }

  lemma NothingMet(t: Cir)
    ensures Times([], t) == 0
  {}

  lemma MetTwo(f: Cir, a: Cir, t: Cir)
    ensures Times([f] + Visits(f) + [a] + Visits(a), t) == Met(f, t) + Met(a, t)
  {
    hide Met, Times, Visits;
    MetOne(f, t);
    MetOne(a, t);
    assert [f] + Visits(f) + [a] + Visits(a) == ([f] + Visits(f)) + ([a] + Visits(a));
    TimesPlus([f] + Visits(f), [a] + Visits(a), t);
  }

  function MetBelow(c: Cir, t: Cir): nat {
    match c
    case App(f, a) => Met(f, t) + Met(a, t)
    case CallClosure(f, a) => Met(f, t) + Met(a, t)
    case Let(v, _) => Met(v, t)
    case Case(s, _) => Met(s, t)
    case MkClosure(_, caps) => MetAll(caps, t)
    case Prim(_, args) => MetAll(args, t)
    case _ => 0
  }

  lemma OccursIs(c: Cir, t: Cir)
    ensures Occurs(c, t) == MetBelow(c, t)
  {
    hide Met, Times;
    NothingMet(t);
    match c
    case App(f, a) =>
      MetTwo(f, a, t);
    case CallClosure(f, a) =>
      MetTwo(f, a, t);
    case Let(v, _) => MetOne(v, t);
    case Case(s, _) => MetOne(s, t);
    case MkClosure(_, caps) => MetVisits(caps, t);
    case Prim(_, args) => MetVisits(args, t);
    case _ =>
  }

  function Share(n: nat, w: nat): nat {
    n * w
  }

  lemma Shares(x: nat, y: nat, w: nat)
    ensures Share(x + y, w) == Share(x, w) + Share(y, w) && Share(0, w) == 0 && Share(1, w) == w
  {}

  /** Replacing takes away the work of every occurrence. */
  predicate WorkTaken(c: Cir, t: Cir) {
    Work(Replace(c, t)) + Share(Met(c, t), Work(t)) == Work(c)
  }

  predicate AllWorkTaken(cs: seq<Cir>, t: Cir) {
    WorkAll(ReplaceAll(cs, t)) + Share(MetAll(cs, t), Work(t)) == WorkAll(cs)
  }

  lemma {:induction false} ReplaceWork(c: Cir, t: Cir)
    ensures WorkTaken(c, t)
    decreases c, 1
  {
    hide WorkTaken, AllWorkTaken;
    match c
    case App(f, a) =>
      ReplaceWork(f, t);
      ReplaceWork(a, t);
      ReplaceWorkPair(c, f, a, t);
    case CallClosure(f, a) =>
      ReplaceWork(f, t);
      ReplaceWork(a, t);
      ReplaceWorkPair(c, f, a, t);
    case Let(v, b) =>
      ReplaceWork(v, t);
      ReplaceWorkHead(c, v, t);
    case Case(s, arms) =>
      ReplaceWork(s, t);
      ReplaceWorkHead(c, s, t);
    case MkClosure(name, caps) =>
      ReplaceAllWork(caps, t);
      ReplaceWorkMany(c, caps, t);
    case Prim(op, args) =>
      ReplaceAllWork(args, t);
      ReplaceWorkMany(c, args, t);
    case _ => ReplaceWorkLeaf(c, t);
  }

  lemma ReplaceWorkLeaf(c: Cir, t: Cir)
    requires !c.App? && !c.CallClosure? && !c.Let? && !c.Case? && !c.MkClosure? && !c.Prim?
    ensures WorkTaken(c, t)
  {
    hide Occurs, Share;
    Shares(0, 0, Work(t));
    OccursIs(c, t);
  }

  lemma TakenWhole(t: Cir)
    ensures WorkTaken(t, t)
  {
    hide Share;
    Shares(0, 0, Work(t));
  }

  lemma PairParts(c: Cir, f: Cir, a: Cir, t: Cir)
    requires (c == App(f, a) || c == CallClosure(f, a)) && c != t
    ensures Work(c) == 1 + Work(f) + Work(a)
    ensures Work(Replace(c, t)) == 1 + Work(Replace(f, t)) + Work(Replace(a, t))
    ensures Met(c, t) == Met(f, t) + Met(a, t)
  {
    hide Occurs;
    OccursIs(c, t);
  }

  lemma ReplaceWorkPair(c: Cir, f: Cir, a: Cir, t: Cir)
    requires c == App(f, a) || c == CallClosure(f, a)
    requires WorkTaken(f, t) && WorkTaken(a, t)
    ensures WorkTaken(c, t)
  {
    hide Met, Share, Work, Replace;
    if c == t {
      TakenWhole(t);
    } else {
      PairParts(c, f, a, t);
      Shares(Met(f, t), Met(a, t), Work(t));
    }
  }

  lemma ReplaceWorkHead(c: Cir, v: Cir, t: Cir)
    requires (c.Let? && c.v == v) || (c.Case? && c.scrut == v)
    requires WorkTaken(v, t)
    ensures WorkTaken(c, t)
  {
    hide Occurs, Share;
    Shares(0, 0, Work(t));
    OccursIs(c, t);
  }

  lemma ReplaceWorkMany(c: Cir, cs: seq<Cir>, t: Cir)
    requires (c.MkClosure? && c.caps == cs) || (c.Prim? && c.args == cs)
    requires AllWorkTaken(cs, t)
    ensures WorkTaken(c, t)
  {
    hide Occurs, Share, MetAll, WorkAll, ReplaceAll;
    Shares(0, 0, Work(t));
    OccursIs(c, t);
  }

  lemma {:induction false} ReplaceAllWork(cs: seq<Cir>, t: Cir)
    ensures AllWorkTaken(cs, t)
    decreases cs, 0
  {
    hide WorkTaken, Share, Work, Met, Replace;
    Shares(0, 0, Work(t));
    if cs != [] {
      var front, last := cs[..|cs| - 1], cs[|cs| - 1];
      ReplaceAllWork(front, t);
      ReplaceWork(last, t);
      ReplaceWorkLast(front, last, t);
      assert front + [last] == cs;
    } else {
      assert ReplaceAll(cs, t) == [];
    }
  }

  lemma Lasts(front: seq<Cir>, last: Cir, t: Cir)
    ensures WorkAll(front + [last]) == WorkAll(front) + Work(last)
    ensures MetAll(front + [last], t) == MetAll(front, t) + Met(last, t)
    ensures ReplaceAll(front + [last], t) == ReplaceAll(front, t) + [Replace(last, t)]
  {
    hide Met, Work, Replace;
    assert (front + [last])[..|front|] == front;
  }

  lemma ReplaceWorkLast(front: seq<Cir>, last: Cir, t: Cir)
    requires AllWorkTaken(front, t) && WorkTaken(last, t)
    ensures AllWorkTaken(front + [last], t)
  {
    hide Met, Share, Work, Replace, WorkAll, MetAll, ReplaceAll;
    Lasts(front, last, t);
    Lasts(ReplaceAll(front, t), Replace(last, t), t);
    Shares(MetAll(front, t), Met(last, t), Work(t));
  }

  // ---- renumbering changes nothing that is counted ----

  lemma {:induction false} ShiftWork(c: Cir, up: nat, depth: nat)
    ensures Work(ShiftFree(c, up, depth)) == Work(c)
    decreases c, 1
  {
    hide ShiftAll, ShiftArms, WorkAll, WorkArms;
    match c
    case Lam(b) => ShiftWork(b, up, depth + 1);
    case Fix(b) => ShiftWork(b, up, depth + 1);
    case App(f, a) =>
      ShiftWork(f, up, depth);
      ShiftWork(a, up, depth);
    case CallClosure(f, a) =>
      ShiftWork(f, up, depth);
      ShiftWork(a, up, depth);
    case Let(v, b) =>
      ShiftWork(v, up, depth);
      ShiftWork(b, up, depth + 1);
    case Case(s, arms) =>
      ShiftWork(s, up, depth);
      ShiftArmsWork(arms, up, depth);
    case IfZero(s, t, e) =>
      ShiftWork(s, up, depth);
      ShiftWork(t, up, depth);
      ShiftWork(e, up, depth);
    case MkClosure(_, caps) => ShiftAllWork(caps, up, depth);
    case Prim(_, args) => ShiftAllWork(args, up, depth);
    case _ =>
  }

  lemma {:induction false} ShiftAllWork(cs: seq<Cir>, up: nat, depth: nat)
    ensures WorkAll(ShiftAll(cs, up, depth)) == WorkAll(cs)
    decreases cs, 0
  {
    hide ShiftFree, Work;
    if cs != [] {
      ShiftAllWork(cs[..|cs| - 1], up, depth);
      ShiftWork(cs[|cs| - 1], up, depth);
      assert ShiftAll(cs, up, depth)[..|cs| - 1] == ShiftAll(cs[..|cs| - 1], up, depth);
    }
  }

  lemma {:induction false} ShiftArmsWork(arms: seq<Arm>, up: nat, depth: nat)
    ensures WorkArms(ShiftArms(arms, up, depth)) == WorkArms(arms)
    decreases arms, 0
  {
    hide ShiftFree, Work;
    if arms != [] {
      var last := arms[|arms| - 1];
      ShiftArmsWork(arms[..|arms| - 1], up, depth);
      ShiftWork(last.body, up, depth + last.binders);
      assert ShiftArms(arms, up, depth)[..|arms| - 1] == ShiftArms(arms[..|arms| - 1], up, depth);
    }
  }

  lemma {:induction false} ShiftInjective(a: Cir, b: Cir, up: nat, depth: nat)
    requires ShiftFree(a, up, depth) == ShiftFree(b, up, depth)
    ensures a == b
    decreases a, 1
  {
    match a
    case Lam(x) => ShiftInjective(x, b.body, up, depth + 1);
    case Fix(x) => ShiftInjective(x, b.body, up, depth + 1);
    case App(f, x) =>
      ShiftInjective(f, b.f, up, depth);
      ShiftInjective(x, b.a, up, depth);
    case CallClosure(f, x) =>
      ShiftInjective(f, b.f, up, depth);
      ShiftInjective(x, b.a, up, depth);
    case Let(v, x) =>
      ShiftInjective(v, b.v, up, depth);
      ShiftInjective(x, b.b, up, depth + 1);
    case Case(s, arms) =>
      ShiftInjective(s, b.scrut, up, depth);
      ShiftArmsInjective(arms, b.arms, up, depth);
    case IfZero(s, t, e) =>
      ShiftInjective(s, b.scrut, up, depth);
      ShiftInjective(t, b.then_, up, depth);
      ShiftInjective(e, b.else_, up, depth);
    case MkClosure(_, caps) => ShiftAllInjective(caps, b.caps, up, depth);
    case Prim(_, args) => ShiftAllInjective(args, b.args, up, depth);
    case _ =>
  }

  lemma {:induction false} ShiftAllInjective(cs: seq<Cir>, ds: seq<Cir>, up: nat, depth: nat)
    requires ShiftAll(cs, up, depth) == ShiftAll(ds, up, depth)
    ensures cs == ds
    decreases cs, 0
  {
    hide ShiftFree;
    assert |cs| == |ds|;
    forall k | 0 <= k < |cs| ensures cs[k] == ds[k] {
      assert ShiftAll(cs, up, depth)[k] == ShiftAll(ds, up, depth)[k];
      ShiftInjective(cs[k], ds[k], up, depth);
    }
  }

  lemma {:induction false} ShiftArmsInjective(cs: seq<Arm>, ds: seq<Arm>, up: nat, depth: nat)
    requires ShiftArms(cs, up, depth) == ShiftArms(ds, up, depth)
    ensures cs == ds
    decreases cs, 0
  {
    hide ShiftFree;
    assert |cs| == |ds|;
    forall k | 0 <= k < |cs| ensures cs[k] == ds[k] {
      assert ShiftArms(cs, up, depth)[k] == ShiftArms(ds, up, depth)[k];
      ShiftInjective(cs[k].body, ds[k].body, up, depth + cs[k].binders);
    }
  }

  lemma ShiftVisitsPair(f: Cir, a: Cir, up: nat, depth: nat)
    requires Visits(ShiftFree(f, up, depth)) == ShiftAll(Visits(f), up, depth)
    requires Visits(ShiftFree(a, up, depth)) == ShiftAll(Visits(a), up, depth)
    ensures var f', a' := ShiftFree(f, up, depth), ShiftFree(a, up, depth);
      [f'] + Visits(f') + [a'] + Visits(a') == ShiftAll([f] + Visits(f) + [a] + Visits(a), up, depth)
  {
    hide ShiftAll, ShiftFree, Visits;
    ShiftNone(up, depth);
    ShiftPlus([f] + Visits(f) + [a], Visits(a), up, depth);
    ShiftPlus([f] + Visits(f), [a], up, depth);
    ShiftPlus([f], Visits(f), up, depth);
  }

  lemma {:induction false} ShiftVisits(c: Cir, up: nat, depth: nat)
    ensures Visits(ShiftFree(c, up, depth)) == ShiftAll(Visits(c), up, depth)
    decreases c, 1
  {
    hide ShiftAll;
    ShiftNone(up, depth);
    match c
    case App(f, a) =>
      ShiftVisits(f, up, depth);
      ShiftVisits(a, up, depth);
      ShiftVisitsPair(f, a, up, depth);
    case CallClosure(f, a) =>
      ShiftVisits(f, up, depth);
      ShiftVisits(a, up, depth);
      ShiftVisitsPair(f, a, up, depth);
    case Let(v, _) =>
      ShiftVisits(v, up, depth);
      ShiftPlus([v], Visits(v), up, depth);
    case Case(s, _) =>
      ShiftVisits(s, up, depth);
      ShiftPlus([s], Visits(s), up, depth);
    case MkClosure(_, caps) => ShiftVisitsAll(caps, up, depth);
    case Prim(_, args) => ShiftVisitsAll(args, up, depth);
    case _ =>
  }

  lemma {:induction false} ShiftVisitsAll(cs: seq<Cir>, up: nat, depth: nat)
    ensures VisitsAll(ShiftAll(cs, up, depth)) == ShiftAll(VisitsAll(cs), up, depth)
    decreases cs, 0
  {
    hide ShiftFree, Visits;
    ShiftNone(up, depth);
    if cs != [] {
      var front, last := cs[..|cs| - 1], cs[|cs| - 1];
      ShiftVisitsAll(front, up, depth);
      ShiftVisits(last, up, depth);
      assert ShiftAll(cs, up, depth)[..|cs| - 1] == ShiftAll(front, up, depth);
      ShiftPlus(VisitsAll(front) + [last], Visits(last), up, depth);
      ShiftPlus(VisitsAll(front), [last], up, depth);
    }
  }

  lemma ShiftNone(up: nat, depth: nat)
    ensures ShiftAll([], up, depth) == []
    ensures forall c: Cir :: ShiftAll([c], up, depth) == [ShiftFree(c, up, depth)]
  {}

  lemma ShiftPlus(a: seq<Cir>, b: seq<Cir>, up: nat, depth: nat)
    ensures ShiftAll(a + b, up, depth) == ShiftAll(a, up, depth) + ShiftAll(b, up, depth)
  {
    hide ShiftFree;
  }

  lemma {:induction false} ShiftTimes(s: seq<Cir>, t: Cir, up: nat, depth: nat)
    ensures Times(ShiftAll(s, up, depth), ShiftFree(t, up, depth)) == Times(s, t)
  {
    hide ShiftFree;
    if s != [] {
      var front, last := s[..|s| - 1], s[|s| - 1];
      ShiftTimes(front, t, up, depth);
      if ShiftFree(last, up, depth) == ShiftFree(t, up, depth) { ShiftInjective(last, t, up, depth); }
      assert s == front + [last];
      TimesPlus(front, [last], t);
      TimesPlus(ShiftAll(front, up, depth), [ShiftFree(last, up, depth)], ShiftFree(t, up, depth));
    }
  }

  // ---- the pass ----

  function Hoisted(c: Cir, t: Cir): Cir {
    Replace(ShiftFree(c, 1, 0), ShiftFree(t, 1, 0))
  }

  /** Sharing a subterm that occurs twice or more leaves less work, binding included. */
  lemma HoistShrinks(c: Cir, t: Cir)
    requires IsCandidate(t) && Occurs(c, t) >= 2
    ensures Work(t) + Work(Hoisted(c, t)) < Work(c)
  {
    hide Replace, ShiftFree, MentionsErased, Visits, Share;
    var c', t' := ShiftFree(c, 1, 0), ShiftFree(t, 1, 0);
    ShiftWork(c, 1, 0);
    ShiftWork(t, 1, 0);
    ShiftVisits(c, 1, 0);
    ShiftTimes(Visits(c), t, 1, 0);
    if c' == t' {
      ShiftInjective(c, t, 1, 0);
      NotInItself(c);
    }
    ReplaceWork(c', t');
    ShareTwice(Occurs(c, t), Work(t));
  }

  lemma ShareTwice(n: nat, w: nat)
    requires n >= 2 && w >= 1
    ensures Share(n, w) > w
  {
    assert n * w >= 2 * w;
  }

  lemma PairShift(x: Cir)
    requires ShiftFree(x, 1, 0) == x
    ensures ShiftFree(Prim(TupleOp, [x, x]), 1, 0) == Prim(TupleOp, [x, x])
  {
    assert ShiftAll([x, x], 1, 0) == [x, x];
  }

  lemma PairMet(x: Cir)
    ensures MetBelow(Prim(TupleOp, [x, x]), x) == 2
  {
    hide Occurs;
    Lasts([], x, x);
    Lasts([x], x, x);
    assert [] + [x] == [x] && [x] + [x] == [x, x];
  }

  lemma PairReplaced(x: Cir)
    requires Prim(TupleOp, [x, x]) != x
    ensures Replace(Prim(TupleOp, [x, x]), x) == Prim(TupleOp, [Var(0), Var(0)])
  {
    assert ReplaceAll([x, x], x) == [Var(0), Var(0)];
  }

  /** The size alone may grow: sharing a repeated constant pays a binding and two variables. */
  lemma SharingCanGrow(con: string)
    ensures var t := Prim(ConOp(con), []); var c := Prim(TupleOp, [t, t]);
      IsCandidate(t) && Occurs(c, t) == 2 && Size(Let(t, Hoisted(c, t))) > Size(c)
  {
    var t := Prim(ConOp(con), []);
    var c := Prim(TupleOp, [t, t]);
    assert ShiftFree(t, 1, 0) == t && Size(t) == 1;
    hide Occurs, MetBelow, ShiftFree, Replace;
    PairShift(t);
    PairMet(t);
    OccursIs(c, t);
    PairReplaced(t);
    SizePair(t);
    SizePair(Var(0));
  }

  lemma SizePair(x: Cir)
    ensures Size(Prim(TupleOp, [x, x])) == 1 + 2 * Size(x)
  {
    assert [x, x][..1] == [x] && [x][..0] == [];
    assert SizeAll([x]) == Size(x);
  }

  /** Bind the best candidate in front of the term, then go on with the term so rewritten. */
  function LocalHoist(c: Cir): (r: Cir)
    ensures r != c ==> Work(r) < Work(c)
    decreases Work(c)
  {
    var best := BestCandidate(c);
    if best.None? then c
    else
      BestIsLargestRepeat(c);
      HoistShrinks(c, best.value);
      Let(best.value, LocalHoist(Hoisted(c, best.value)))
  }

  /** The pass: share in this node's own region first, then in every child. */
  function Cse(c: Cir): Cir
    decreases Work(c), c, 2
  {
    CseChildren(LocalHoist(c))
  }

  function CseChildren(c: Cir): Cir
    decreases Work(c), c, 1
  {
    match c
    case Lam(b) => Lam(Cse(b))
    case Fix(b) => Fix(Cse(b))
    case App(f, a) => App(Cse(f), Cse(a))
    case CallClosure(f, a) => CallClosure(Cse(f), Cse(a))
    case Let(v, b) => Let(Cse(v), Cse(b))
    case Case(s, arms) => Case(Cse(s), CseArms(arms))
    case IfZero(s, t, e) => IfZero(Cse(s), Cse(t), Cse(e))
    case MkClosure(name, caps) => MkClosure(name, CseAll(caps))
    case Prim(op, args) => Prim(op, CseAll(args))
    case _ => c
  }

  function CseAll(cs: seq<Cir>): (r: seq<Cir>)
    ensures |r| == |cs|
    decreases WorkAll(cs), cs, 0
  {
    if cs == [] then [] else CseAll(cs[..|cs| - 1]) + [Cse(cs[|cs| - 1])]
  }

  function CseArms(arms: seq<Arm>): (r: seq<Arm>)
    ensures |r| == |arms|
    decreases WorkArms(arms), arms, 0
  {
    if arms == [] then []
    else
      var last := arms[|arms| - 1];
      CseArms(arms[..|arms| - 1]) + [Arm(last.con, last.binders, Cse(last.body))]
  }

  lemma {:induction false} CseAllAt(cs: seq<Cir>)
    ensures forall k :: 0 <= k < |cs| ==> CseAll(cs)[k] == Cse(cs[k])
  {
    hide Cse;
    if cs != [] { CseAllAt(cs[..|cs| - 1]); }
  }

  lemma {:induction false} CseArmsAt(arms: seq<Arm>)
    ensures forall k :: 0 <= k < |arms| ==> CseArms(arms)[k] == Arm(arms[k].con, arms[k].binders, Cse(arms[k].body))
  {
    hide Cse;
    if arms != [] { CseArmsAt(arms[..|arms| - 1]); }
  }

  // ---- the tally as it is kept ----

  class Counter {
    var counts: Tally

    constructor ()
      ensures counts == []
    {
      counts := [];
    }

    /** Count a visited subterm, if it is a candidate. */
    method Visit(c: Cir)
      modifies this
      ensures counts == if IsCandidate(c) then Bump(old(counts), c) else old(counts)
    {
      if !IsCandidate(c) {
        return;
      }
      for i := 0 to |counts|
        invariant counts == old(counts) && forall j :: 0 <= j < i ==> counts[j].0 != c
      {
        if counts[i].0 == c {
          BumpAt(counts, c, i);
          counts := counts[i := (c, counts[i].1 + 1)];
          return;
        }
      }
      BumpEnd(counts, c);
      counts := counts + [(c, 1)];
    }

    /** Visit the region below a term. */
    method Collect(c: Cir, ghost seen: seq<Cir>)
      requires counts == Count(seen)
      modifies this
      ensures counts == Count(seen + Visits(c))
      decreases c, 1
    {
      hide Count;
      match c {
        case App(f, a) => CollectTwo(f, a, c, seen);
        case CallClosure(f, a) => CollectTwo(f, a, c, seen);
        case Let(v, _) => CollectOne(v, seen);
        case Case(s, _) => CollectOne(s, seen);
        case MkClosure(_, caps) => CollectAll(caps, seen);
        case Prim(_, args) => CollectAll(args, seen);
        case _ => assert seen + [] == seen;
      }
    }

    method CollectOne(c: Cir, ghost seen: seq<Cir>)
      requires counts == Count(seen)
      modifies this
      ensures counts == Count(seen + ([c] + Visits(c)))
      decreases c, 2
    {
      hide IsCandidate;
      assert (seen + [c])[..|seen|] == seen;
      Visit(c);
      hide Count;
      Collect(c, seen + [c]);
      assert seen + [c] + Visits(c) == seen + ([c] + Visits(c));
    }

    method CollectTwo(f: Cir, a: Cir, ghost c: Cir, ghost seen: seq<Cir>)
      requires c == App(f, a) || c == CallClosure(f, a)
      requires counts == Count(seen)
      modifies this
      ensures counts == Count(seen + ([f] + Visits(f) + [a] + Visits(a)))
      decreases c, 0
    {
      hide Count;
      CollectOne(f, seen);
      CollectOne(a, seen + ([f] + Visits(f)));
      assert seen + ([f] + Visits(f)) + ([a] + Visits(a)) == seen + ([f] + Visits(f) + [a] + Visits(a));
    }

    method CollectAll(cs: seq<Cir>, ghost seen: seq<Cir>)
      requires counts == Count(seen)
      modifies this
      ensures counts == Count(seen + VisitsAll(cs))
      decreases cs, 0
    {
      hide Count;
      assert seen + [] == seen;
      for i := 0 to |cs|
        invariant counts == Count(seen + VisitsAll(cs[..i]))
      {
        CollectOne(cs[i], seen + VisitsAll(cs[..i]));
        assert cs[..i + 1][..i] == cs[..i];
        assert seen + VisitsAll(cs[..i]) + ([cs[i]] + Visits(cs[i])) == seen + VisitsAll(cs[..i + 1]);
      }
      assert cs[..|cs|] == cs;
    }
  }

  lemma {:induction false} BumpAt(counts: Tally, c: Cir, i: nat)
    requires i < |counts| && counts[i].0 == c && forall j :: 0 <= j < i ==> counts[j].0 != c
    ensures Bump(counts, c) == counts[i := (c, counts[i].1 + 1)]
  {
    if i > 0 { BumpAt(counts[1..], c, i - 1); }
  }

  lemma {:induction false} BumpEnd(counts: Tally, c: Cir)
    requires forall j :: 0 <= j < |counts| ==> counts[j].0 != c
    ensures Bump(counts, c) == counts + [(c, 1)]
  {
    if counts != [] { BumpEnd(counts[1..], c); }
  }

  /** The best candidate, from a tally of the region. */
  method FindBest(c: Cir) returns (r: Option<Cir>)
    ensures r == BestCandidate(c)
  {
    var counter := new Counter();
    counter.Collect(c, []);
    assert [] + Visits(c) == Visits(c);
    r := None;
    hide Count, Visits;
    for i := 0 to |counter.counts|
      invariant counter.counts == Count(Visits(c)) && r == Largest(counter.counts[..i])
    {
      var entry := counter.counts[i];
      if entry.1 >= 2 && (r.None? || Size(entry.0) >= Size(r.value)) {
        r := Some(entry.0);
      }
      assert counter.counts[..i + 1][..i] == counter.counts[..i];
    }
    assert counter.counts[..|counter.counts|] == counter.counts;
  }
}
