/** The rewriting pass devirtualization and capture specialization share: the i-th indirect apply met
    becomes the direct call the i-th decision names. */
module Rewrite {
  import opened Basics
  import opened Values
  import opened CirLang
  import opened AnfLang
  import opened Cfa
  import opened CfaGrows

  /** What a decision installs: a direct call passing the closure as environment, or a direct call of
      a captureless clone. */
  datatype Kind = Known | Cloned

  type Decisions = seq<Option<FName>>

  /** The indirect applies of a computation and of a tail. */
  function CompApplies(c: Comp): nat {
    if c.Call? then 1 else 0
  }

  function Applies(t: Tail): nat
    decreases t, 1
  {
    match t
    case Let(c, rest) => CompApplies(c) + Applies(rest)
    case TailCall(_, _) => 1
    case Case(_, arms) => ArmApplies(arms)
    case IfZero(_, a, b) => Applies(a) + Applies(b)
    case _ => 0
  }

  function ArmApplies(arms: seq<TailArm>): nat
    decreases arms, 0
  {
    if arms == [] then 0 else ArmApplies(arms[..|arms| - 1]) + Applies(arms[|arms| - 1].body)
  }

  function RewComp(kind: Kind, d: Decisions, i: nat, c: Comp): Comp
    requires i + CompApplies(c) <= |d|
  {
    if c.Call? && d[i].Some? then
      if kind.Known? then CallKnown(d[i].value, c.f, c.arg) else CallGlobal(d[i].value, c.arg)
    else c
  }

  /** Rewrite a tail whose first apply is number `i`. */
  function RewTail(kind: Kind, d: Decisions, i: nat, t: Tail): Tail
    requires i + Applies(t) <= |d|
    decreases t, 1
  {
    match t
    case Let(c, rest) => Tail.Let(RewComp(kind, d, i, c), RewTail(kind, d, i + CompApplies(c), rest))
    case TailCall(f, a) =>
      if d[i].Some? then
        if kind.Known? then TailCallKnown(d[i].value, f, a) else TailCallGlobal(d[i].value, a)
      else t
    case Case(s, arms) => Tail.Case(s, RewArms(kind, d, i, arms))
    case IfZero(s, a, b) => Tail.IfZero(s, RewTail(kind, d, i, a), RewTail(kind, d, i + Applies(a), b))
    case _ => t
  }

  function RewArms(kind: Kind, d: Decisions, i: nat, arms: seq<TailArm>): (r: seq<TailArm>)
    requires i + ArmApplies(arms) <= |d|
    ensures |r| == |arms|
    decreases arms, 0
  {
    if arms == [] then []
    else
      var front, last := arms[..|arms| - 1], arms[|arms| - 1];
      RewArms(kind, d, i, front) + [TailArm(last.con, last.binders, RewTail(kind, d, i + ArmApplies(front), last.body))]
  }

  /** The number of applies in the first `k` functions. */
  function FuncApplies(funcs: seq<AnfFunc>, k: nat): nat
    requires k <= |funcs|
  {
    if k == 0 then 0 else FuncApplies(funcs, k - 1) + Applies(funcs[k - 1].body)
  }

  function RewFuncs(kind: Kind, d: Decisions, funcs: seq<AnfFunc>, k: nat): (r: seq<AnfFunc>)
    requires k <= |funcs| && FuncApplies(funcs, k) <= |d|
    ensures |r| == k
  {
    if k == 0 then []
    else
      var g := funcs[k - 1];
      RewFuncs(kind, d, funcs, k - 1) + [AnfFunc(g.name, g.recursive, RewTail(kind, d, FuncApplies(funcs, k - 1), g.body))]
  }

  function ProgramApplies(p: AnfProgram): nat {
    FuncApplies(p.funcs, |p.funcs|) + Applies(p.entry)
  }

  function RewProgram(kind: Kind, d: Decisions, p: AnfProgram): AnfProgram
    requires ProgramApplies(p) <= |d|
  {
    AnfProgram(RewFuncs(kind, d, p.funcs, |p.funcs|), RewTail(kind, d, FuncApplies(p.funcs, |p.funcs|), p.entry))
  }

  // ---- arms and functions by position ----

  lemma {:induction false} ArmRewritten(kind: Kind, d: Decisions, i: nat, arms: seq<TailArm>, k: nat)
    requires i + ArmApplies(arms) <= |d| && k < |arms|
    ensures i + ArmApplies(arms[..k]) + Applies(arms[k].body) <= |d|
    ensures RewArms(kind, d, i, arms)[k]
         == TailArm(arms[k].con, arms[k].binders, RewTail(kind, d, i + ArmApplies(arms[..k]), arms[k].body))
  {
    hide RewTail, Applies;
    var m := |arms| - 1;
    if k < m {
      ArmRewritten(kind, d, i, arms[..m], k);
      assert arms[..m][..k] == arms[..k];
    }
  }

  lemma {:induction false} FuncRewritten(kind: Kind, d: Decisions, funcs: seq<AnfFunc>, n: nat, k: nat)
    requires k < n <= |funcs| && FuncApplies(funcs, n) <= |d|
    ensures FuncApplies(funcs, k) + Applies(funcs[k].body) <= |d|
    ensures RewFuncs(kind, d, funcs, n)[k]
         == AnfFunc(funcs[k].name, funcs[k].recursive, RewTail(kind, d, FuncApplies(funcs, k), funcs[k].body))
  {
    hide RewTail, Applies;
    if k < n - 1 { FuncRewritten(kind, d, funcs, n - 1, k); }
  }

  // ---- without a decision nothing changes ----

  predicate Undecided(d: Decisions) {
    forall i :: 0 <= i < |d| ==> d[i].None?
  }

  lemma {:induction false} RewriteNothing(kind: Kind, d: Decisions, i: nat, t: Tail)
    requires Undecided(d) && i + Applies(t) <= |d|
    ensures RewTail(kind, d, i, t) == t
    decreases t, 1
  {
    match t
    case Let(c, rest) => RewriteNothing(kind, d, i + CompApplies(c), rest);
    case Case(_, arms) => RewriteNoArms(kind, d, i, arms);
    case IfZero(_, a, b) =>
      RewriteNothing(kind, d, i, a);
      RewriteNothing(kind, d, i + Applies(a), b);
    case _ =>
  }

  lemma {:induction false} RewriteNoArms(kind: Kind, d: Decisions, i: nat, arms: seq<TailArm>)
    requires Undecided(d) && i + ArmApplies(arms) <= |d|
    ensures RewArms(kind, d, i, arms) == arms
    decreases arms, 0
  {
    hide RewTail, Applies, Undecided;
    if arms != [] {
      var m := |arms| - 1;
      RewriteNoArms(kind, d, i, arms[..m]);
      RewriteNothing(kind, d, i + ArmApplies(arms[..m]), arms[m].body);
      assert arms[..m] + [arms[m]] == arms;
    }
  }

  lemma {:induction false} RewriteNoFuncs(kind: Kind, d: Decisions, funcs: seq<AnfFunc>, k: nat)
    requires Undecided(d) && k <= |funcs| && FuncApplies(funcs, k) <= |d|
    ensures RewFuncs(kind, d, funcs, k) == funcs[..k]
  {
    hide RewTail, Applies;
    if k > 0 {
      RewriteNoFuncs(kind, d, funcs, k - 1);
      RewriteNothing(kind, d, FuncApplies(funcs, k - 1), funcs[k - 1].body);
    }
  }

  // ---- the analysis and the rewriter meet the applies in the same order ----

  lemma AtomHeads(f: Flow, a: Atom, ns: seq<Node>, cur: Option<nat>)
    ensures AtomNode(f, a, ns, cur).0.heads == f.heads
  {}

  lemma {:induction false} AtomsHeads(f: Flow, atoms: seq<Atom>, ns: seq<Node>, cur: Option<nat>)
    ensures AtomNodes(f, atoms, ns, cur).0.heads == f.heads
  {
    if atoms != [] {
      AtomsHeads(f, atoms[..|atoms| - 1], ns, cur);
      AtomHeads(AtomNodes(f, atoms[..|atoms| - 1], ns, cur).0, atoms[|atoms| - 1], ns, cur);
    }
  }

  lemma {:induction false} EscapesHeads(f: Flow, atoms: seq<Atom>, ns: seq<Node>, cur: Option<nat>)
    ensures Escapes(f, atoms, ns, cur).heads == f.heads
  {
    if atoms != [] {
      EscapesHeads(f, atoms[..|atoms| - 1], ns, cur);
      AtomHeads(Escapes(f, atoms[..|atoms| - 1], ns, cur), atoms[|atoms| - 1], ns, cur);
    }
  }

  lemma {:induction false} CapturesHeads(f: Flow, func: nat, atoms: seq<Atom>, ns: seq<Node>, cur: Option<nat>)
    ensures Cfa.Captures(f, func, atoms, ns, cur).0.heads == f.heads
  {
    if atoms != [] {
      CapturesHeads(f, func, atoms[..|atoms| - 1], ns, cur);
      AtomHeads(Cfa.Captures(f, func, atoms[..|atoms| - 1], ns, cur).0, atoms[|atoms| - 1], ns, cur);
    }
  }

  lemma CompHeads(f: Flow, c: Comp, node: Node, ns: seq<Node>, cur: Option<nat>)
    ensures |GenComp(f, c, node, ns, cur).heads| == |f.heads| + CompApplies(c)
  {
    hide AtomNode, AtomNodes, Escapes, Cfa.Captures;
    match c
    case Use(a) => AtomHeads(f, a, ns, cur);
    case MkClosure(name, caps) =>
      var g := f.Emit(Closure(node, name)).Emit(NotLit(node));
      if name in g.index { CapturesHeads(g, g.index[name], caps, ns, cur); } else { EscapesHeads(g, caps, ns, cur); }
    case Call(h, a) =>
      AtomHeads(f, h, ns, cur);
      AtomHeads(AtomNode(f, h, ns, cur).0, a, ns, cur);
    case CallGlobal(_, a) => AtomHeads(f, a, ns, cur);
    case CallKnown(_, _, _) =>
    case Prim(op, args) => PrimHeads(f, op, args, node, ns, cur);
  }

  lemma PrimHeads(f: Flow, op: PrimOp, args: seq<Atom>, node: Node, ns: seq<Node>, cur: Option<nat>)
    ensures GenPrim(f, op, args, node, ns, cur).heads == f.heads
  {
    hide AtomNode, AtomNodes, Escapes;
    match op
    case TupleOp => AtomsHeads(f.Emit(Site(node)).Emit(NotLit(node)), args, ns, cur);
    case ProjOp(_) => if |args| == 1 { AtomHeads(f, args[0], ns, cur); }
    case ConOp(_) => EscapesHeads(f.Emit(NotLit(node)), args, ns, cur);
    case _ =>
  }

  lemma {:induction false} BinderHeads(f: Flow, m: nat)
    ensures Binders(f, m).0.heads == f.heads
  {
    if m > 0 { BinderHeads(f, m - 1); }
  }

  /** Analyzing a tail records one head for each of its applies. */
  lemma {:induction false} TailHeads(f: Flow, t: Tail, ns: seq<Node>, cur: Option<nat>)
    ensures |GenTail(f, t, ns, cur).heads| == |f.heads| + Applies(t)
    decreases t, 1
  {
    hide AtomNode, GenComp;
    match t
    case Ret(a) => AtomHeads(f, a, ns, cur);
    case Let(c, rest) =>
      CompHeads(f.Fresh(), c, f.n, ns, cur);
      TailHeads(GenComp(f.Fresh(), c, f.n, ns, cur), rest, [f.n] + ns, cur);
    case TailCall(h, a) =>
      AtomHeads(f, h, ns, cur);
      AtomHeads(AtomNode(f, h, ns, cur).0, a, ns, cur);
    case TailCallGlobal(_, a) => AtomHeads(f, a, ns, cur);
    case TailCallKnown(_, _, _) =>
    case Jump(a) => AtomHeads(f, a, ns, cur);
    case Case(_, arms) => ArmHeads(f, arms, ns, cur);
    case IfZero(_, a, b) =>
      TailHeads(f, a, ns, cur);
      TailHeads(GenTail(f, a, ns, cur), b, ns, cur);
  }

  lemma {:induction false} ArmHeads(f: Flow, arms: seq<TailArm>, ns: seq<Node>, cur: Option<nat>)
    ensures |GenArms(f, arms, ns, cur).heads| == |f.heads| + ArmApplies(arms)
    decreases arms, 0
  {
    if arms != [] {
      var m := |arms| - 1;
      ArmHeads(f, arms[..m], ns, cur);
      var g := GenArms(f, arms[..m], ns, cur);
      BinderHeads(g, arms[m].binders);
      var b := Binders(g, arms[m].binders);
      TailHeads(b.0, arms[m].body, b.1 + ns, cur);
    }
  }

  lemma {:induction false} FuncHeads(funcs: seq<AnfFunc>, k: nat)
    requires k <= |funcs|
    ensures |GenFuncs(Start(funcs), funcs, k).heads| == FuncApplies(funcs, k)
  {
    hide GenTail, Applies;
    if k > 0 {
      FuncHeads(funcs, k - 1);
      var g := GenFuncs(Start(funcs), funcs, k - 1);
      TailHeads(g, funcs[k - 1].body, if k - 1 < |g.param| then [g.param[k - 1]] else [], Some(k - 1));
    }
  }

  /** There are exactly as many recorded heads as applies: no decision is out of range or left over. */
  lemma HeadsAligned(p: AnfProgram)
    ensures |Build(p).heads| == ProgramApplies(p)
  {
    hide GenTail, Applies;
    FuncHeads(p.funcs, |p.funcs|);
    TailHeads(GenFuncs(Start(p.funcs), p.funcs, |p.funcs|), p.entry, [], None);
  }

  // ---- the pass ----

  /** The cursor advances by one at every indirect apply. */
  class Rewriter {
    const kind: Kind
    const decisions: Decisions
    var idx: nat

    constructor (kind: Kind, decisions: Decisions)
      ensures this.kind == kind && this.decisions == decisions && idx == 0
    {
      this.kind, this.decisions, idx := kind, decisions, 0;
    }

    method Comp(c: AnfLang.Comp) returns (r: AnfLang.Comp)
      requires idx + CompApplies(c) <= |decisions|
      modifies this
      ensures r == RewComp(kind, decisions, old(idx), c) && idx == old(idx) + CompApplies(c)
    {
      r := c;
      if c.Call? {
        var d := decisions[idx];
        idx := idx + 1;
        if d.Some? {
          r := if kind.Known? then CallKnown(d.value, c.f, c.arg) else CallGlobal(d.value, c.arg);
        }
      }
    }

    method Tail(t: AnfLang.Tail) returns (r: AnfLang.Tail)
      requires idx + Applies(t) <= |decisions|
      modifies this
      ensures r == RewTail(kind, decisions, old(idx), t) && idx == old(idx) + Applies(t)
      decreases t, 1
    {
      match t {
        case Let(c, rest) =>
          var c' := Comp(c);
          var rest' := Tail(rest);
          r := AnfLang.Tail.Let(c', rest');
        case TailCall(f, a) =>
          var d := decisions[idx];
          idx := idx + 1;
          r := if d.None? then t
               else if kind.Known? then TailCallKnown(d.value, f, a) else TailCallGlobal(d.value, a);
        case Case(s, arms) =>
          var arms' := Arms(arms);
          r := AnfLang.Tail.Case(s, arms');
        case IfZero(s, a, b) =>
          var a' := Tail(a);
          var b' := Tail(b);
          r := AnfLang.Tail.IfZero(s, a', b');
        case _ => r := t;
      }
    }

    method Arms(arms: seq<TailArm>) returns (r: seq<TailArm>)
      requires idx + ArmApplies(arms) <= |decisions|
      modifies this
      ensures r == RewArms(kind, decisions, old(idx), arms) && idx == old(idx) + ArmApplies(arms)
      decreases arms, 0
    {
      r := [];
      for i := 0 to |arms|
        invariant old(idx) + ArmApplies(arms[..i]) <= |decisions|
        invariant r == RewArms(kind, decisions, old(idx), arms[..i]) && idx == old(idx) + ArmApplies(arms[..i])
      {
        ArmRewritten(kind, decisions, old(idx), arms, i);
        assert arms[..i + 1][..i] == arms[..i];
        var body := Tail(arms[i].body);
        r := r + [TailArm(arms[i].con, arms[i].binders, body)];
      }
      assert arms[..|arms|] == arms;
    }

    /** Every function in order, then the entry; the cursor ends after the last decision. */
    method Program(p: AnfProgram) returns (r: AnfProgram)
      requires idx == 0 && ProgramApplies(p) <= |decisions|
      modifies this
      ensures r == RewProgram(kind, decisions, p) && idx == ProgramApplies(p)
    {
      var funcs: seq<AnfFunc> := [];
      for i := 0 to |p.funcs|
        invariant FuncApplies(p.funcs, i) <= |decisions|
        invariant funcs == RewFuncs(kind, decisions, p.funcs, i) && idx == FuncApplies(p.funcs, i)
      {
        var f := p.funcs[i];
        FuncRewritten(kind, decisions, p.funcs, |p.funcs|, i);
        var body := Tail(f.body);
        funcs := funcs + [AnfFunc(f.name, f.recursive, body)];
      }
      var entry := Tail(p.entry);
      r := AnfProgram(funcs, entry);
    }
  }
}
