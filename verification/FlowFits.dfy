/** Programs that meet what the flow analysis and the passes resting on it ask of their input. */
module FlowFits {
  import opened Basics
  import opened Values
  import opened CirLang
  import opened AnfLang
  import opened Cfa
  import opened CfaSound
  import opened Specialize
  import opened NormalizeFits
  import Capspec
  import CloneFlow
  import CfaRuns

  // ---- closure sites carry the right number of captures ----

  /** Every closure site has its function's number of captures and holds its function, which is known, and
      every tracked literal is one. */
  ghost predicate SitesFit(f: Flow, ar: map<FName, nat>) {
    && (forall s :: s in f.cloFields ==> f.cloFields[s].name in ar && |f.cloFields[s].caps| == ar[f.cloFields[s].name])
    && (forall s :: s in f.cloFields ==> Closure(s, f.cloFields[s].name) in f.cstrs)
    && (forall c :: c in f.cstrs && c.Closure? ==> c.name in ar)
    && (forall c :: c in f.cstrs && c.Literal? ==> IsLiteral(c.lit))
  }

  /** No closure, no closure site and no literal is added. */
  ghost predicate Same(f: Flow, g: Flow) {
    g.cloFields == f.cloFields && (forall c :: c in f.cstrs ==> c in g.cstrs)
    && forall c :: c in g.cstrs && (c.Literal? || c.Closure?) ==> c in f.cstrs
  }

  lemma AtomSites(f: Flow, a: Atom, ns: seq<Node>, cur: Option<nat>)
    ensures Same(f, AtomNode(f, a, ns, cur).0)
  {}

  lemma {:induction false} AtomsSites(f: Flow, atoms: seq<Atom>, ns: seq<Node>, cur: Option<nat>)
    ensures Same(f, AtomNodes(f, atoms, ns, cur).0)
  {
    hide AtomNode;
    if atoms != [] {
      AtomsSites(f, atoms[..|atoms| - 1], ns, cur);
      AtomSites(AtomNodes(f, atoms[..|atoms| - 1], ns, cur).0, atoms[|atoms| - 1], ns, cur);
    }
  }

  lemma {:induction false} CapturesSites(f: Flow, func: nat, caps: seq<Atom>, ns: seq<Node>, cur: Option<nat>)
    ensures Same(f, Cfa.Captures(f, func, caps, ns, cur).0)
  {
    hide AtomNode;
    if caps != [] {
      CapturesSites(f, func, caps[..|caps| - 1], ns, cur);
      AtomSites(Cfa.Captures(f, func, caps[..|caps| - 1], ns, cur).0, caps[|caps| - 1], ns, cur);
    }
  }

  lemma {:induction false} EscapesSites(f: Flow, atoms: seq<Atom>, ns: seq<Node>, cur: Option<nat>)
    ensures Same(f, Escapes(f, atoms, ns, cur))
  {
    hide AtomNode;
    if atoms != [] {
      EscapesSites(f, atoms[..|atoms| - 1], ns, cur);
      AtomSites(Escapes(f, atoms[..|atoms| - 1], ns, cur), atoms[|atoms| - 1], ns, cur);
    }
  }

  lemma {:induction false} BindersSites(f: Flow, m: nat)
    ensures Same(f, Binders(f, m).0)
  {
    if m > 0 { BindersSites(f, m - 1); }
  }

  lemma ClosureSites(f: Flow, c: Comp, node: Node, ns: seq<Node>, cur: Option<nat>, ar: map<FName, nat>, n: nat)
    requires c.MkClosure? && SitesFit(f, ar) && CompFits(c, ar, n)
    ensures SitesFit(GenComp(f, c, node, ns, cur), ar)
  {
    hide AtomNode, AtomsFit, Captures, Escapes;
    var g := f.Emit(Closure(node, c.name)).Emit(NotLit(node));
    if c.name in g.index {
      CapturesSites(g, g.index[c.name], c.caps, ns, cur);
    } else {
      EscapesSites(g, c.caps, ns, cur);
    }
  }

  lemma CompSites(f: Flow, c: Comp, node: Node, ns: seq<Node>, cur: Option<nat>, ar: map<FName, nat>, n: nat)
    requires SitesFit(f, ar) && CompFits(c, ar, n)
    ensures SitesFit(GenComp(f, c, node, ns, cur), ar)
  {
    hide AtomNode, AtomsFit;
    match c
    case Use(a) => AtomSites(f, a, ns, cur);
    case MkClosure(_, _) => ClosureSites(f, c, node, ns, cur, ar, n);
    case Call(h, a) =>
      AtomSites(f, h, ns, cur);
      AtomSites(AtomNode(f, h, ns, cur).0, a, ns, cur);
    case CallGlobal(_, a) => AtomSites(f, a, ns, cur);
    case Prim(op, args) => PrimSites(f, op, args, node, ns, cur);
  }

  lemma PrimSites(f: Flow, op: PrimOp, args: seq<Atom>, node: Node, ns: seq<Node>, cur: Option<nat>)
    ensures var g := GenPrim(f, op, args, node, ns, cur);
      g.cloFields == f.cloFields && (forall c :: c in f.cstrs ==> c in g.cstrs)
      && (forall c :: c in g.cstrs && c.Closure? ==> c in f.cstrs)
      && forall c :: c in g.cstrs && c.Literal? ==> c in f.cstrs || IsLiteral(c.lit)
  {
    hide AtomNode;
    match op
    case TupleOp => AtomsSites(f.Emit(Site(node)).Emit(NotLit(node)), args, ns, cur);
    case ProjOp(_) => if |args| == 1 { AtomSites(f, args[0], ns, cur); }
    case ConOp(_) => EscapesSites(f.Emit(NotLit(node)), args, ns, cur);
    case _ =>
  }

  lemma {:induction false} TailSites(f: Flow, t: Tail, ns: seq<Node>, cur: Option<nat>, ar: map<FName, nat>, n: nat, jumps: bool)
    requires SitesFit(f, ar) && TailFits(t, ar, n, jumps)
    ensures SitesFit(GenTail(f, t, ns, cur), ar)
    decreases t, 1
  {
    hide AtomNode, CompFits, GenComp, SitesFit;
    match t
    case Ret(a) =>
      AtomSites(f, a, ns, cur);
      SameSites(f, GenTail(f, t, ns, cur), ar);
    case Let(c, rest) =>
      SameSites(f, f.Fresh(), ar);
      CompSites(f.Fresh(), c, f.n, ns, cur, ar, n);
      TailSites(GenComp(f.Fresh(), c, f.n, ns, cur), rest, [f.n] + ns, cur, ar, n, jumps);
    case TailCall(h, a) =>
      AtomSites(f, h, ns, cur);
      AtomSites(AtomNode(f, h, ns, cur).0, a, ns, cur);
      SameSites(f, GenTail(f, t, ns, cur), ar);
    case Jump(a) =>
      AtomSites(f, a, ns, cur);
      SameSites(f, GenTail(f, t, ns, cur), ar);
    case TailCallGlobal(_, a) =>
      AtomSites(f, a, ns, cur);
      SameSites(f, GenTail(f, t, ns, cur), ar);
    case Case(_, arms) => ArmsSites(f, arms, ns, cur, ar, n, jumps);
    case IfZero(_, a, b) =>
      TailSites(f, a, ns, cur, ar, n, jumps);
      TailSites(GenTail(f, a, ns, cur), b, ns, cur, ar, n, jumps);
  }

  lemma SameSites(f: Flow, g: Flow, ar: map<FName, nat>)
    requires SitesFit(f, ar) && Same(f, g)
    ensures SitesFit(g, ar)
  {}

  lemma {:induction false} ArmsSites(f: Flow, arms: seq<TailArm>, ns: seq<Node>, cur: Option<nat>, ar: map<FName, nat>, n: nat, jumps: bool)
    requires SitesFit(f, ar) && forall k :: 0 <= k < |arms| ==> TailFits(arms[k].body, ar, n, jumps) == true
    ensures SitesFit(GenArms(f, arms, ns, cur), ar)
    decreases arms, 0
  {
    hide GenTail, TailFits, SitesFit, Binders;
    if arms != [] {
      var last := arms[|arms| - 1];
      ArmsSites(f, arms[..|arms| - 1], ns, cur, ar, n, jumps);
      var g := GenArms(f, arms[..|arms| - 1], ns, cur);
      BindersSites(g, last.binders);
      SameSites(g, Binders(g, last.binders).0, ar);
      TailSites(Binders(g, last.binders).0, last.body, Binders(g, last.binders).1 + ns, cur, ar, n, jumps);
    }
  }

  // ---- fitting programs ----

  /** Every function's body fits its own captures. */
  predicate FuncFits(f: AnfFunc, ar: map<FName, nat>) {
    f.name in ar && TailFits(f.body, ar, ar[f.name], f.recursive) == true
  }

  ghost predicate ProgramFits(p: AnfProgram, ar: map<FName, nat>) {
    && UniqueFuncs(p.funcs) && (forall g :: g in ar ==> exists k :: 0 <= k < |p.funcs| && p.funcs[k].name == g)
    && (forall k :: 0 <= k < |p.funcs| ==> FuncFits(p.funcs[k], ar))
    && TailFits(p.entry, ar, 0, false) == true
  }

  lemma {:induction false} FuncsSites(funcs: seq<AnfFunc>, i: nat, ar: map<FName, nat>)
    requires i <= |funcs| && forall k :: 0 <= k < |funcs| ==> FuncFits(funcs[k], ar)
    ensures SitesFit(GenFuncs(Start(funcs), funcs, i), ar)
  {
    hide GenTail, SitesFit, Start;
    if i == 0 {
      NoSites(funcs, ar);
    } else {
      FuncsSites(funcs, i - 1, ar);
      var g, f := GenFuncs(Start(funcs), funcs, i - 1), funcs[i - 1];
      TailSites(g, f.body, if i - 1 < |g.param| then [g.param[i - 1]] else [], Some(i - 1), ar, ar[f.name], f.recursive);
    }
  }

  lemma NoSites(funcs: seq<AnfFunc>, ar: map<FName, nat>)
    ensures SitesFit(Start(funcs), ar)
  {}

  lemma BuildSites(p: AnfProgram, ar: map<FName, nat>)
    requires ProgramFits(p, ar)
    ensures SitesFit(Build(p), ar)
  {
    hide GenTail, GenFuncs, SitesFit, TailFits;
    FuncsSites(p.funcs, |p.funcs|, ar);
    TailSites(GenFuncs(Start(p.funcs), p.funcs, |p.funcs|), p.entry, [], None, ar, 0, false);
  }

  /** A fitting tail is plain, and one that never jumps stays below its captures. */
  lemma {:induction false} FitsPlain(t: Tail, ar: map<FName, nat>, n: nat, jumps: bool, known: set<FName>)
    requires TailFits(t, ar, n, jumps) && ar.Keys <= known
    ensures Plain(t, known) == true && (!jumps ==> EnvBelow(t, n) == true)
    decreases t
  {
    match t
    case Let(c, rest) => FitsPlain(rest, ar, n, jumps, known);
    case Case(_, arms) =>
      forall k | 0 <= k < |arms|
        ensures Plain(arms[k].body, known) == true && (!jumps ==> EnvBelow(arms[k].body, n) == true)
      {
        FitsPlain(arms[k].body, ar, n, jumps, known);
      }
    case IfZero(_, a, b) =>
      FitsPlain(a, ar, n, jumps, known);
      FitsPlain(b, ar, n, jumps, known);
    case _ =>
  }

  /** A fitting program meets what the analysis and both rewritings ask of their input. */
  lemma FittingIsPlain(p: AnfProgram, ar: map<FName, nat>)
    requires ProgramFits(p, ar)
    ensures PlainProgram(p) && Capspec.EnvFits(p)
  {
    hide TailFits, Build, Plain, EnvBelow, SitesFit;
    var f, known := Build(p), IndexOf(p.funcs).Keys;
    forall g | g in ar ensures g in known {
      var k :| 0 <= k < |p.funcs| && p.funcs[k].name == g;
      assert p.funcs[k] in p.funcs;
    }
    forall g | g in p.funcs ensures Plain(g.body, known) {
      var k :| 0 <= k < |p.funcs| && p.funcs[k] == g;
      FitsPlain(g.body, ar, ar[g.name], g.recursive, known);
    }
    FitsPlain(p.entry, ar, 0, false, known);
    BuildSites(p, ar);
    EnvsFit(p, ar, known);
  }

  lemma EnvsFit(p: AnfProgram, ar: map<FName, nat>, known: set<FName>)
    requires SitesFit(Build(p), ar) && ar.Keys <= known && forall k :: 0 <= k < |p.funcs| ==> FuncFits(p.funcs[k], ar)
    ensures Capspec.EnvFits(p)
  {
    hide TailFits, GenTail, GenFuncs, Plain, EnvBelow;
    var f := Build(p);
    forall s | s in f.cloFields && f.cloFields[s].name in f.index && f.index[f.cloFields[s].name] < |p.funcs|
      ensures var g := p.funcs[f.index[f.cloFields[s].name]];
        !g.recursive ==> EnvBelow(g.body, |f.cloFields[s].caps|) == true
    {
      var i := f.index[f.cloFields[s].name];
      CfaRuns.IndexOfBuild(p);
      FitsPlain(p.funcs[i].body, ar, ar[p.funcs[i].name], p.funcs[i].recursive, known);
    }
  }

  // ---- the least solution tracks literals, known functions, and sites with their functions only ----

  function Scrub(l: ConstLit): ConstLit {
    if l.Just? && !IsLiteral(l.lit) then Bottom else l
  }

  function ScrubAv(f: Flow, ar: map<FName, nat>, v: Av): Av {
    v.(fns := v.fns * ar.Keys, lit := Scrub(v.lit),
       cloSites := set s | s in v.cloSites && (s in f.cloFields ==> f.cloFields[s].name in v.fns))
  }

  function Scrubbed(f: Flow, ar: map<FName, nat>, sol: Solution): (r: Solution)
    ensures |r| == |sol|
  {
    seq(|sol|, n requires 0 <= n < |sol| => ScrubAv(f, ar, sol[n]))
  }

  lemma ScrubAt(f: Flow, ar: map<FName, nat>, sol: Solution, n: Node)
    ensures At(Scrubbed(f, ar, sol), n) == ScrubAv(f, ar, At(sol, n))
  {}

  lemma ScrubLeq(f: Flow, ar: map<FName, nat>, sol: Solution, a: Node, b: Node)
    requires At(sol, a).Leq(At(sol, b))
    ensures At(Scrubbed(f, ar, sol), a).Leq(At(Scrubbed(f, ar, sol), b))
  {
    ScrubAt(f, ar, sol, a);
    ScrubAt(f, ar, sol, b);
  }

  lemma ScrubEscaped(f: Flow, ar: map<FName, nat>, sol: Solution, node: Node)
    requires Escaped(f, sol, node)
    ensures Escaped(f, Scrubbed(f, ar, sol), node)
  {
    var r := Scrubbed(f, ar, sol);
    forall path | Reaches(f, r, path, node) ensures ParamsOpen(f, r, At(r, path[|path| - 1])) {
      forall k | 0 <= k < |path| - 1 ensures StepsTo(f, sol, path[k], path[k + 1]) {
        assert StepsTo(f, r, path[k], path[k + 1]);
        ScrubAt(f, ar, sol, path[k]);
      }
      assert Reaches(f, sol, path, node);
      ScrubAt(f, ar, sol, path[|path| - 1]);
      forall l | l in At(r, path[|path| - 1]).fns && l in f.index && f.index[l] < |f.param|
        ensures At(r, f.param[f.index[l]]).open
      {
        ScrubAt(f, ar, sol, f.param[f.index[l]]);
      }
    }
  }

  lemma ScrubSat(f: Flow, ar: map<FName, nat>, sol: Solution, c: Cstr)
    requires Sat(f, sol, c) && (c.Literal? ==> IsLiteral(c.lit)) && (c.Closure? ==> c.name in ar)
    requires c.ClosureSite? && c.node in f.cloFields ==> f.cloFields[c.node].name in At(sol, c.node).fns
    ensures Sat(f, Scrubbed(f, ar, sol), c)
  {
    hide Escaped, Scrubbed;
    var r := Scrubbed(f, ar, sol);
    match c
    case Copy(to, from) => ScrubLeq(f, ar, sol, from, to);
    case Proj(to, tup, idx) =>
      ScrubAt(f, ar, sol, to);
      ScrubAt(f, ar, sol, tup);
      forall s | s in At(r, tup).sites ensures ProjFlows(f, r, At(r, to), s, idx) {
        assert ProjFlows(f, sol, At(sol, to), s, idx);
        if s in f.fields && idx < |f.fields[s]| { ScrubLeq(f, ar, sol, f.fields[s][idx], to); }
      }
    case Call(res, head, arg) =>
      ScrubAt(f, ar, sol, res);
      ScrubAt(f, ar, sol, head);
      forall l | l in At(r, head).fns && l in f.index ensures CallFlows(f, r, f.index[l], res, arg) {
        ScrubCall(f, ar, sol, f.index[l], res, arg);
      }
      if At(sol, head).open { ScrubEscaped(f, ar, sol, arg); }
    case GlobalCall(res, callee, arg) => ScrubCall(f, ar, sol, callee, res, arg);
    case Escape(node) => ScrubEscaped(f, ar, sol, node);
    case Closure(node, _) => ScrubAt(f, ar, sol, node);
    case Site(node) => ScrubAt(f, ar, sol, node);
    case ClosureSite(node) => ScrubAt(f, ar, sol, node);
    case Open(node) => ScrubAt(f, ar, sol, node);
    case Literal(node, _) => ScrubAt(f, ar, sol, node);
    case NotLit(node) => ScrubAt(f, ar, sol, node);
  }

  lemma ScrubCall(f: Flow, ar: map<FName, nat>, sol: Solution, callee: nat, res: Node, arg: Node)
    requires CallFlows(f, sol, callee, res, arg)
    ensures CallFlows(f, Scrubbed(f, ar, sol), callee, res, arg)
  {
    hide Scrubbed;
    if callee < |f.param| && callee < |f.ret| {
      ScrubLeq(f, ar, sol, arg, f.param[callee]);
      ScrubLeq(f, ar, sol, f.ret[callee], res);
    }
  }

  /** Whatever literal the least solution tracks at a node is a literal of the program; whatever function it
      has there is known, and has its closure sites' functions there too. */
  lemma LeastFits(p: AnfProgram, ar: map<FName, nat>, sol: Solution)
    requires ProgramFits(p, ar) && Solves(Build(p), sol)
    requires forall other :: Solves(Build(p), other) ==> LeqSol(sol, other)
    ensures forall n: Node :: At(sol, n).lit.Just? ==> IsLiteral(At(sol, n).lit.lit)
    ensures forall n: Node :: At(sol, n).fns <= ar.Keys
    ensures CloneFlow.SitesNamed(Build(p), sol)
  {
    hide GenTail, GenFuncs, Sat, ProgramFits, Build;
    BuildSites(p, ar);
    var f := Build(p);
    var r := Scrubbed(f, ar, sol);
    forall c | c in f.cstrs ensures Sat(f, r, c) {
      if c.ClosureSite? && c.node in f.cloFields { SiteHolds(f, sol, c.node); }
      ScrubSat(f, ar, sol, c);
    }
    assert Solves(f, r);
    forall n: Node
      ensures At(sol, n).lit.Just? ==> IsLiteral(At(sol, n).lit.lit)
      ensures At(sol, n).fns <= ar.Keys
      ensures forall s :: s in At(sol, n).cloSites && s in f.cloFields ==> f.cloFields[s].name in At(sol, n).fns
    {
      if n < |sol| { assert sol[n].Leq(r[n]); }
      ScrubAt(f, ar, sol, n);
    }
  }

  lemma SiteHolds(f: Flow, sol: Solution, s: Node)
    requires Solves(f, sol) && s in f.cloFields && Closure(s, f.cloFields[s].name) in f.cstrs
    ensures f.cloFields[s].name in At(sol, s).fns
  {
    assert Sat(f, sol, Closure(s, f.cloFields[s].name));
  }
}
