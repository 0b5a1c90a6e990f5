/** What the rewriting pass does to the calls of a program, read off the program it returns. */
module RewriteSites {
  import opened Basics
  import opened Values
  import opened CirLang
  import opened AnfLang
  import opened Rewrite

  /** A call of whatever function the head names, or of a named function, with its environment if it takes
      one; in tail position or not. */
  datatype CallSite =
    | Indirect(head: Atom, arg: Atom, tail: bool)
    | Direct(name: FName, env: Option<Atom>, arg: Atom, tail: bool)

  // ---- the calls of a program, in traversal order ----

  function CompSites(c: Comp): seq<CallSite> {
    match c
    case Call(f, a) => [Indirect(f, a, false)]
    case CallGlobal(g, a) => [Direct(g, None, a, false)]
    case CallKnown(g, e, a) => [Direct(g, Some(e), a, false)]
    case _ => []
  }

  function TailSites(t: Tail): seq<CallSite>
    decreases t, 1
  {
    match t
    case Let(c, rest) => CompSites(c) + TailSites(rest)
    case TailCall(f, a) => [Indirect(f, a, true)]
    case TailCallGlobal(g, a) => [Direct(g, None, a, true)]
    case TailCallKnown(g, e, a) => [Direct(g, Some(e), a, true)]
    case Case(_, arms) => ArmSites(arms)
    case IfZero(_, a, b) => TailSites(a) + TailSites(b)
    case _ => []
  }

  function ArmSites(arms: seq<TailArm>): seq<CallSite>
    decreases arms, 0
  {
    if arms == [] then [] else ArmSites(arms[..|arms| - 1]) + TailSites(arms[|arms| - 1].body)
  }

  function FuncSites(funcs: seq<AnfFunc>, k: nat): seq<CallSite>
    requires k <= |funcs|
  {
    if k == 0 then [] else FuncSites(funcs, k - 1) + TailSites(funcs[k - 1].body)
  }

  function Sites(p: AnfProgram): seq<CallSite> {
    FuncSites(p.funcs, |p.funcs|) + TailSites(p.entry)
  }

  function Indirects(s: seq<CallSite>): nat {
    if s == [] then 0 else Indirects(s[..|s| - 1]) + if s[|s| - 1].Indirect? then 1 else 0
  }

  function Undecideds(d: Decisions): nat {
    if d == [] then 0 else Undecideds(d[..|d| - 1]) + if d[|d| - 1].None? then 1 else 0
  }

  // ---- the calls with decisions installed ----

  function Resolved(kind: Kind, d: Decisions, i: nat, c: CallSite): CallSite
    requires c.Indirect? ==> i < |d|
  {
    if c.Indirect? && d[i].Some? then Direct(d[i].value, if kind.Known? then Some(c.head) else None, c.arg, c.tail) else c
  }

  function Resolve(kind: Kind, d: Decisions, i: nat, s: seq<CallSite>): (r: seq<CallSite>)
    requires i + Indirects(s) <= |d|
    ensures |r| == |s|
  {
    if s == [] then []
    else Resolve(kind, d, i, s[..|s| - 1]) + [Resolved(kind, d, i + Indirects(s[..|s| - 1]), s[|s| - 1])]
  }

  lemma {:induction false} IndirectsPlus(a: seq<CallSite>, b: seq<CallSite>)
    ensures Indirects(a + b) == Indirects(a) + Indirects(b)
    decreases b
  {
    if b == [] {
      assert a + b == a;
    } else {
      assert (a + b)[..|a + b| - 1] == a + b[..|b| - 1];
      IndirectsPlus(a, b[..|b| - 1]);
    }
  }

  lemma ResolveLast(kind: Kind, d: Decisions, i: nat, s: seq<CallSite>, c: CallSite)
    requires i + Indirects(s) + (if c.Indirect? then 1 else 0) <= |d|
    ensures Indirects(s + [c]) == Indirects(s) + if c.Indirect? then 1 else 0
    ensures Resolve(kind, d, i, s + [c]) == Resolve(kind, d, i, s) + [Resolved(kind, d, i + Indirects(s), c)]
  {
    hide Resolved;
    assert (s + [c])[..|s|] == s && (s + [c])[|s|] == c;
  }

  lemma Regroup<T>(a: seq<T>, b: seq<T>, c: seq<T>)
    ensures a + (b + c) == (a + b) + c
  {}

  lemma ResolvePlusLast(kind: Kind, d: Decisions, i: nat, a: seq<CallSite>, front: seq<CallSite>, last: CallSite)
    requires i + Indirects(a) + Indirects(front) + (if last.Indirect? then 1 else 0) <= |d|
    requires Indirects(a + front) == Indirects(a) + Indirects(front)
    requires Resolve(kind, d, i, a + front) == Resolve(kind, d, i, a) + Resolve(kind, d, i + Indirects(a), front)
    ensures Indirects(front + [last]) == Indirects(front) + if last.Indirect? then 1 else 0
    ensures Indirects(a + (front + [last])) == Indirects(a) + Indirects(front + [last])
    ensures Resolve(kind, d, i, a + (front + [last]))
         == Resolve(kind, d, i, a) + Resolve(kind, d, i + Indirects(a), front + [last])
  {
    hide Resolved, Resolve, Indirects;
    var n := i + Indirects(a);
    ResolveLast(kind, d, n, front, last);
    ResolveLast(kind, d, i, a + front, last);
    Regroup(a, front, [last]);
    Regroup(Resolve(kind, d, i, a), Resolve(kind, d, n, front), [Resolved(kind, d, n + Indirects(front), last)]);
  }

  lemma {:induction false} ResolvePlus(kind: Kind, d: Decisions, i: nat, a: seq<CallSite>, b: seq<CallSite>)
    requires i + Indirects(a) + Indirects(b) <= |d|
    ensures Indirects(a + b) == Indirects(a) + Indirects(b)
    ensures Resolve(kind, d, i, a + b) == Resolve(kind, d, i, a) + Resolve(kind, d, i + Indirects(a), b)
    decreases b
  {
    if b == [] {
      hide Resolved;
      assert a + b == a;
    } else {
      var front, last := b[..|b| - 1], b[|b| - 1];
      assert b == front + [last];
      hide Resolved, Resolve, Indirects;
      IndirectsPlus(front, [last]);
      OneIndirect(last);
      ResolvePlus(kind, d, i, a, front);
      ResolvePlusLast(kind, d, i, a, front, last);
    }
  }

  lemma OneIndirect(c: CallSite)
    ensures Indirects([c]) == if c.Indirect? then 1 else 0
  {
    assert [c][..0] == [];
  }

  lemma OneResolved(kind: Kind, d: Decisions, i: nat, c: CallSite)
    requires i + (if c.Indirect? then 1 else 0) <= |d|
    ensures Indirects([c]) == (if c.Indirect? then 1 else 0) && Resolve(kind, d, i, [c]) == [Resolved(kind, d, i, c)]
  {
    assert [c][..0] == [];
  }

  lemma NoneResolved(kind: Kind, d: Decisions, i: nat)
    requires i <= |d|
    ensures Indirects([]) == 0 && Resolve(kind, d, i, []) == []
  {}

  lemma CompResolved(kind: Kind, d: Decisions, i: nat, c: Comp)
    requires i + CompApplies(c) <= |d|
    ensures Indirects(CompSites(c)) == CompApplies(c)
    ensures CompSites(RewComp(kind, d, i, c)) == Resolve(kind, d, i, CompSites(c))
  {
    assert forall x: CallSite :: [x][..0] == [];
  }

  lemma {:induction false} TailResolved(kind: Kind, d: Decisions, i: nat, t: Tail)
    requires i + Applies(t) <= |d|
    ensures Indirects(TailSites(t)) == Applies(t)
    ensures TailSites(RewTail(kind, d, i, t)) == Resolve(kind, d, i, TailSites(t))
    decreases t, 1
  {
    hide CompSites, RewComp, Resolve, Indirects, ArmSites, RewArms, ArmApplies;
    match t
    case Let(c, rest) =>
      CompResolved(kind, d, i, c);
      TailResolved(kind, d, i + CompApplies(c), rest);
      ResolvePlus(kind, d, i, CompSites(c), TailSites(rest));
    case TailCall(f, a) => OneResolved(kind, d, i, Indirect(f, a, true));
    case TailCallGlobal(g, a) => OneResolved(kind, d, i, Direct(g, None, a, true));
    case TailCallKnown(g, e, a) => OneResolved(kind, d, i, Direct(g, Some(e), a, true));
    case Case(_, arms) => ArmsResolved(kind, d, i, arms);
    case IfZero(_, a, b) =>
      TailResolved(kind, d, i, a);
      TailResolved(kind, d, i + Applies(a), b);
      ResolvePlus(kind, d, i, TailSites(a), TailSites(b));
    case _ => NoneResolved(kind, d, i);
  }

  lemma {:induction false} ArmsResolved(kind: Kind, d: Decisions, i: nat, arms: seq<TailArm>)
    requires i + ArmApplies(arms) <= |d|
    ensures Indirects(ArmSites(arms)) == ArmApplies(arms)
    ensures ArmSites(RewArms(kind, d, i, arms)) == Resolve(kind, d, i, ArmSites(arms))
    decreases arms, 0
  {
    hide TailSites, RewTail, Applies, Resolve, Indirects;
    NoneResolved(kind, d, i);
    if arms != [] {
      var m := |arms| - 1;
      var r := RewArms(kind, d, i, arms);
      ArmsResolved(kind, d, i, arms[..m]);
      TailResolved(kind, d, i + ArmApplies(arms[..m]), arms[m].body);
      assert r[..m] == RewArms(kind, d, i, arms[..m]);
      ResolvePlus(kind, d, i, ArmSites(arms[..m]), TailSites(arms[m].body));
    }
  }

  lemma {:induction false} FuncsResolved(kind: Kind, d: Decisions, funcs: seq<AnfFunc>, k: nat)
    requires k <= |funcs| && FuncApplies(funcs, k) <= |d|
    ensures Indirects(FuncSites(funcs, k)) == FuncApplies(funcs, k)
    ensures FuncSites(RewFuncs(kind, d, funcs, k), k) == Resolve(kind, d, 0, FuncSites(funcs, k))
  {
    hide TailSites, RewTail, Applies;
    if k > 0 {
      var r := RewFuncs(kind, d, funcs, k);
      FuncsResolved(kind, d, funcs, k - 1);
      TailResolved(kind, d, FuncApplies(funcs, k - 1), funcs[k - 1].body);
      SitesPrefix(RewFuncs(kind, d, funcs, k - 1), r[k - 1], k - 1);
      ResolvePlus(kind, d, 0, FuncSites(funcs, k - 1), TailSites(funcs[k - 1].body));
    }
  }

  lemma {:induction false} SitesPrefix(funcs: seq<AnfFunc>, f: AnfFunc, k: nat)
    requires k <= |funcs|
    ensures FuncSites(funcs + [f], k) == FuncSites(funcs, k)
  {
    if k > 0 { SitesPrefix(funcs, f, k - 1); }
  }

  lemma ProgramResolved(kind: Kind, d: Decisions, p: AnfProgram)
    requires ProgramApplies(p) <= |d|
    ensures Indirects(Sites(p)) == ProgramApplies(p)
    ensures Sites(RewProgram(kind, d, p)) == Resolve(kind, d, 0, Sites(p))
  {
    hide TailSites, RewTail, Applies, FuncSites, RewFuncs;
    var n := |p.funcs|;
    FuncsResolved(kind, d, p.funcs, n);
    TailResolved(kind, d, FuncApplies(p.funcs, n), p.entry);
    ResolvePlus(kind, d, 0, FuncSites(p.funcs, n), TailSites(p.entry));
  }

  lemma {:induction false} ResolveAt(kind: Kind, d: Decisions, i: nat, s: seq<CallSite>, k: nat)
    requires i + Indirects(s) <= |d| && k < |s|
    ensures Indirects(s[..k]) + (if s[k].Indirect? then 1 else 0) <= Indirects(s)
    ensures Resolve(kind, d, i, s)[k] == Resolved(kind, d, i + Indirects(s[..k]), s[k])
  {
    var m := |s| - 1;
    if k < m {
      ResolveAt(kind, d, i, s[..m], k);
      assert s[..m][..k] == s[..k];
    }
  }

  lemma {:induction false} ResolveLeaves(kind: Kind, d: Decisions, s: seq<CallSite>)
    requires Indirects(s) <= |d|
    ensures Indirects(Resolve(kind, d, 0, s)) == Undecideds(d[..Indirects(s)])
  {
    if s != [] {
      var m := |s| - 1;
      var n := Indirects(s[..m]);
      ResolveLeaves(kind, d, s[..m]);
      var r := Resolve(kind, d, 0, s);
      assert r[..m] == Resolve(kind, d, 0, s[..m]);
      if s[m].Indirect? { assert d[..n + 1][..n] == d[..n]; }
    }
  }

  // ---- main results ----

  /** Call by call: the k-th indirect call becomes a direct one of the function its decision names, with its
      own head as environment or with none, and stays if there is no decision; no other call changes. */
  lemma CallRewritten(kind: Kind, d: Decisions, p: AnfProgram, i: nat)
    requires ProgramApplies(p) <= |d| && i < |Sites(p)|
    ensures |Sites(RewProgram(kind, d, p))| == |Sites(p)|
    ensures var c, r, k := Sites(p)[i], Sites(RewProgram(kind, d, p))[i], Indirects(Sites(p)[..i]);
      if c.Direct? then r == c
      else if k >= ProgramApplies(p) then false
      else if d[k].None? then r == c
      else r == Direct(d[k].value, if kind.Known? then Some(c.head) else None, c.arg, c.tail)
  {
    hide RewProgram, Sites;
    ProgramResolved(kind, d, p);
    ResolveAt(kind, d, 0, Sites(p), i);
  }

  /** As many indirect calls are left as there are decisions that name nothing. */
  lemma IndirectLeft(kind: Kind, d: Decisions, p: AnfProgram)
    requires ProgramApplies(p) <= |d|
    ensures ProgramApplies(RewProgram(kind, d, p)) == Undecideds(d[..ProgramApplies(p)])
  {
    hide RewProgram, Sites;
    var r := RewProgram(kind, d, p);
    ProgramResolved(kind, d, p);
    ResolveLeaves(kind, d, Sites(p));
    var none := seq(ProgramApplies(r), k => None);
    ProgramResolved(kind, none, r);
  }
}
