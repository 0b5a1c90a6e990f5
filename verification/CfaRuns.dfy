/** Soundness of the closure-flow analysis over whole runs. */
module CfaRuns {
  import opened Basics
  import opened Values
  import opened CirLang
  import opened AnfLang
  import opened Cfa
  import opened CfaGrows
  import opened CfaSound

  // ---- calls ----

  /** The analyzer's state when it reached function `i`'s body. */
  function FuncState(p: AnfProgram, i: nat): Flow
    requires i <= |p.funcs|
  {
    GenFuncs(Start(p.funcs), p.funcs, i)
  }

  lemma {:induction false} LookupAt(funcs: seq<AnfFunc>, i: nat)
    requires UniqueFuncs(funcs) && i < |funcs|
    ensures LookupAnf(funcs, funcs[i].name) == Some(funcs[i])
  {
    if i > 0 {
      assert funcs[0].name != funcs[i].name;
      LookupAt(funcs[1..], i - 1);
    }
  }

  lemma {:induction false} IndexAt(funcs: seq<AnfFunc>, i: nat)
    requires UniqueFuncs(funcs) && i < |funcs|
    ensures funcs[i].name in IndexOf(funcs) && IndexOf(funcs)[funcs[i].name] == i
  {
    assert funcs[i] in funcs;
  }

  /** Function `i`'s body was analyzed with its parameter in scope, into the finished graph. */
  lemma BodyPlace(p: AnfProgram, i: nat)
    requires i < |p.funcs|
    ensures var f := FuncState(p, i); var g := Build(p);
      Wf(f) && i < |g.param| && Place(f, [g.param[i]], Some(i)) && f.index == g.index
      && Extends(GenTail(f, p.funcs[i].body, [g.param[i]], Some(i)), g)
  {
    hide Wf, GenTail, Linked, Start;
    var f := FuncState(p, i);
    StartParams(p.funcs);
    FuncsGrow(p.funcs, i);
    BuildGrows(p);
    LaterFuncs(p.funcs, i + 1, |p.funcs|);
    FuncPlace(Start(p.funcs), f, i);
    ExtendsTrans(FuncState(p, i + 1), FuncState(p, |p.funcs|), Build(p));
  }

  lemma IndexOfBuild(p: AnfProgram)
    ensures Build(p).index == IndexOf(p.funcs) && |Build(p).param| == |p.funcs| && |Build(p).ret| == |p.funcs|
  {
    hide GenTail, Wf;
    BuildGrows(p);
  }

  /** A described closure brings captures its function's slots describe. */
  lemma ClosureEntry(x: Analysis, av: Av, name: FName, xs: seq<TVal>)
    requires Good(x) && Describes(Build(x.p), x.sol, av, Clo(name, xs))
    ensures name in av.fns && name in Build(x.p).index
    ensures CapsOk(Build(x.p), x.sol, Some(Build(x.p).index[name]), xs)
  {
    hide Build, Good, Linked, Wf, DescribesAll, NodeDescribes;
    var f := Build(x.p);
    BuildGrows(x.p);
    var s := SiteOf(f, x.sol, av, name, xs);
    SiteLinked(f, s);
    LinkedKnown(f, f.cloFields[s]);
    var cs := f.cloFields[s].caps;
    forall k | 0 <= k < |xs| ensures SlotOk(f, x.sol, f.index[name], k, xs[k]) {
      AllAt(f, x.sol, cs, xs, k);
      LinkedAt(f, f.cloFields[s], k);
      CopySound(x, f.envSlot[(f.index[name], k)], cs[k], xs[k]);
    }
  }

  lemma SiteOf(f: Flow, sol: Solution, av: Av, name: FName, xs: seq<TVal>) returns (s: Node)
    requires Describes(f, sol, av, Clo(name, xs))
    ensures name in av.fns && s in av.cloSites && s in f.cloFields && f.cloFields[s].name == name
    ensures DescribesAll(f, sol, f.cloFields[s].caps, xs)
  {
    hide DescribesAll;
    s :| s in av.cloSites && ClosedAt(f, sol, s, name, xs);
  }

  lemma LinkedKnown(f: Flow, s: CloSite)
    requires Linked(f, s)
    ensures s.name in f.index
  {}

  lemma SiteLinked(f: Flow, s: Node)
    requires Wf(f) && s in f.cloFields
    ensures Linked(f, f.cloFields[s])
  {
    hide Linked;
  }

  lemma LinkedAt(f: Flow, s: CloSite, k: nat)
    requires Linked(f, s) && k < |s.caps|
    ensures SlotLinked(f, f.index[s.name], k, s.caps[k])
  {}

  /** Function `name` may be entered: it is known, and its argument and captures are described. */
  ghost predicate Entry(x: Analysis, name: FName, caps: seq<TVal>, arg: TVal) {
    var f := Build(x.p);
    name in f.index && f.index[name] < |f.param| && f.index[name] < |f.ret|
    && NodeDescribes(f, x.sol, f.param[f.index[name]], arg)
    && CapsOk(f, x.sol, Some(f.index[name]), caps)
  }

  lemma {:induction false} EnterSound(x: Analysis, name: FName, caps: seq<TVal>, arg: TVal, fuel: nat)
    requires Good(x) && Entry(x, name, caps, arg)
    requires Enter(x.p.funcs, name, caps, arg, fuel).Done?
    ensures var f := Build(x.p); NodeDescribes(f, x.sol, f.ret[f.index[name]], Enter(x.p.funcs, name, caps, arg, fuel).value)
    decreases fuel, 0
  {
    hide Build, Good, Describes, EvalTail, GenTail, Plain, LookupAnf, IndexOf;
    var f := Build(x.p);
    var i := f.index[name];
    EntryBody(x, name, caps, arg);
    var g := x.p.funcs[i];
    TailSound(x, FuncState(x.p, i), g.body, [f.param[i]], Some(i), Some(name), [arg], caps, fuel - 1);
    RetOf(x.p, FuncState(x.p, i), i);
  }

  lemma RetOf(p: AnfProgram, f: Flow, i: nat)
    requires i < |p.funcs| && f == FuncState(p, i)
    ensures i < |Build(p).ret| && f.RetNode(Some(i)) == Build(p).ret[i]
  {
    hide Build, GenTail, Wf, Start;
    IndexOfBuild(p);
    FuncsGrow(p.funcs, i);
    BuildGrows(p);
  }

  /** Entering a function: its body, found by name, is at a described place of the graph. */
  lemma EntryBody(x: Analysis, name: FName, caps: seq<TVal>, arg: TVal)
    requires Good(x) && Entry(x, name, caps, arg)
    ensures name in Build(x.p).index
    ensures var f := Build(x.p); var i := f.index[name];
      i < |x.p.funcs| && x.p.funcs[i].name == name && LookupAnf(x.p.funcs, name) == Some(x.p.funcs[i])
      && i < |f.param| && Here(x, FuncState(x.p, i), [f.param[i]], Some(i), [arg], caps)
      && Extends(GenTail(FuncState(x.p, i), x.p.funcs[i].body, [f.param[i]], Some(i)), f)
      && Plain(x.p.funcs[i].body, f.index.Keys) == true
  {
    hide Build, Solves, Clean, NothingEscapes, Describes, GenTail, Plain, Wf;
    var i := Build(x.p).index[name];
    IndexOfBuild(x.p);
    LookupAt(x.p.funcs, i);
    BodyPlace(x.p, i);
    assert x.p.funcs[i] in x.p.funcs;
  }

  /** An indirect apply enters a described function, and its result reaches the call's node. */
  lemma {:induction false} ApplySound(x: Analysis, res: Node, head: Node, arg: Node, hv: TVal, av: TVal, fuel: nat)
    requires Good(x) && Cstr.Call(res, head, arg) in Build(x.p).cstrs
    requires NodeDescribes(Build(x.p), x.sol, head, hv) && NodeDescribes(Build(x.p), x.sol, arg, av)
    requires AnfLang.Apply(x.p.funcs, hv, av, fuel).Done?
    ensures NodeDescribes(Build(x.p), x.sol, res, AnfLang.Apply(x.p.funcs, hv, av, fuel).value)
    decreases fuel, 1
  {
    hide Build, Good, Describes, Enter;
    assert hv == Clo(hv.code, hv.env);
    var f := Build(x.p);
    var i := CallEntry(x, res, head, arg, hv, av);
    EnterSound(x, hv.code, hv.env, av, fuel);
    DescribesMore(f, x.sol, At(x.sol, f.ret[i]), At(x.sol, res), Enter(x.p.funcs, hv.code, hv.env, av, fuel).value);
  }

  /** A described head names a function the call constraint connects. */
  lemma CallEntry(x: Analysis, res: Node, head: Node, arg: Node, hv: TVal, av: TVal) returns (i: nat)
    requires Good(x) && Cstr.Call(res, head, arg) in Build(x.p).cstrs && hv.Clo?
    requires NodeDescribes(Build(x.p), x.sol, head, hv) && NodeDescribes(Build(x.p), x.sol, arg, av)
    ensures Entry(x, hv.code, hv.env, av) && i == Build(x.p).index[hv.code]
    ensures i < |Build(x.p).ret| && At(x.sol, Build(x.p).ret[i]).Leq(At(x.sol, res))
  {
    hide Build, Good, Describes, CapsOk;
    assert hv == Clo(hv.code, hv.env);
    var f := Build(x.p);
    ClosureEntry(x, At(x.sol, head), hv.code, hv.env);
    Holds(x, Cstr.Call(res, head, arg));
    i := f.index[hv.code];
    IndexInRange(x.p, hv.code);
    assert CallFlows(f, x.sol, i, res, arg);
    DescribesMore(f, x.sol, At(x.sol, arg), At(x.sol, f.param[i]), av);
  }

  lemma IndexInRange(p: AnfProgram, name: FName)
    requires name in Build(p).index
    ensures Build(p).index[name] < |Build(p).param| && Build(p).index[name] < |Build(p).ret|
  {
    hide Build;
    IndexOfBuild(p);
  }

  lemma {:induction false} GlobalSound(x: Analysis, res: Node, name: FName, arg: Node, av: TVal, fuel: nat)
    requires Good(x) && name in Build(x.p).index
    requires GlobalCall(res, Build(x.p).index[name], arg) in Build(x.p).cstrs
    requires NodeDescribes(Build(x.p), x.sol, arg, av)
    requires Enter(x.p.funcs, name, [], av, fuel).Done?
    ensures NodeDescribes(Build(x.p), x.sol, res, Enter(x.p.funcs, name, [], av, fuel).value)
    decreases fuel, 1
  {
    hide Build, Good, Describes, Enter;
    var f := Build(x.p);
    var i := f.index[name];
    GlobalEntry(x, res, name, arg, av);
    EnterSound(x, name, [], av, fuel);
    DescribesMore(f, x.sol, At(x.sol, f.ret[i]), At(x.sol, res), Enter(x.p.funcs, name, [], av, fuel).value);
  }

  lemma GlobalEntry(x: Analysis, res: Node, name: FName, arg: Node, av: TVal)
    requires Good(x) && name in Build(x.p).index
    requires GlobalCall(res, Build(x.p).index[name], arg) in Build(x.p).cstrs
    requires NodeDescribes(Build(x.p), x.sol, arg, av)
    ensures Entry(x, name, [], av)
    ensures var i := Build(x.p).index[name]; i < |Build(x.p).ret| && At(x.sol, Build(x.p).ret[i]).Leq(At(x.sol, res))
  {
    hide Build, Good, Describes;
    var f := Build(x.p);
    var i := f.index[name];
    IndexInRange(x.p, name);
    Holds(x, GlobalCall(res, i, arg));
    DescribesMore(f, x.sol, At(x.sol, arg), At(x.sol, f.param[i]), av);
  }

  // ---- places after the constraints of a call ----

  /** The operands of an apply are described, and its constraint and head are in the graph. */
  lemma CallPlace(
    x: Analysis, f: Flow, h: Atom, a: Atom, res: Node, ns: seq<Node>, cur: Option<nat>, scope: seq<TVal>, caps: seq<TVal>)
    returns (head: Node, arg: Node)
    requires Good(x) && Here(x, f, ns, cur, scope, caps) && !h.Global? && !a.Global?
    requires Extends(GenCall(f, h, a, res, ns, cur), Build(x.p))
    requires EvalAtom(h, scope, caps).Done? && EvalAtom(a, scope, caps).Done?
    ensures Cstr.Call(res, head, arg) in Build(x.p).cstrs
    ensures |f.heads| < |Build(x.p).heads| && Build(x.p).heads[|f.heads|] == head
    ensures NodeDescribes(Build(x.p), x.sol, head, EvalAtom(h, scope, caps).value)
    ensures NodeDescribes(Build(x.p), x.sol, arg, EvalAtom(a, scope, caps).value)
  {
    hide Build, Good, Describes, AtomNode, EvalAtom, Wf, Place, CapsOk;
    var hn := AtomNode(f, h, ns, cur);
    AtomGrows(f, h, ns, cur);
    PlaceExtends(f, hn.0, ns, cur);
    var an := AtomNode(hn.0, a, ns, cur);
    AtomGrows(hn.0, a, ns, cur);
    var g := an.0.Emit(Cstr.Call(res, hn.1, an.1));
    assert GenCall(f, h, a, res, ns, cur).heads[|f.heads|] == hn.1;
    assert Extends(g, Build(x.p));
    EmittedIn(an.0, Cstr.Call(res, hn.1, an.1), Build(x.p));
    ExtendsTrans(hn.0, an.0, Build(x.p));
    AtomSound(x, f, h, ns, cur, scope, caps);
    AtomSound(x, hn.0, a, ns, cur, scope, caps);
    head, arg := hn.1, an.1;
  }

  lemma GlobalPlace(
    x: Analysis, f: Flow, name: FName, a: Atom, res: Node, ns: seq<Node>, cur: Option<nat>, scope: seq<TVal>, caps: seq<TVal>)
    returns (arg: Node)
    requires Good(x) && Here(x, f, ns, cur, scope, caps) && !a.Global? && name in f.index
    requires Extends(GenGlobal(f, name, a, res, ns, cur), Build(x.p))
    requires EvalAtom(a, scope, caps).Done?
    ensures name in Build(x.p).index && GlobalCall(res, Build(x.p).index[name], arg) in Build(x.p).cstrs
    ensures NodeDescribes(Build(x.p), x.sol, arg, EvalAtom(a, scope, caps).value)
  {
    hide Build, Good, Describes, AtomNode, EvalAtom, Place, CapsOk, Linked;
    AtomGrows(f, a, ns, cur);
    var an := AtomNode(f, a, ns, cur);
    EmittedIn(an.0, GlobalCall(res, f.index[name], an.1), Build(x.p));
    AtomSound(x, f, a, ns, cur, scope, caps);
    arg := an.1;
  }

  lemma {:induction false} CompSound(
    x: Analysis, f: Flow, c: Comp, node: Node, ns: seq<Node>, cur: Option<nat>, scope: seq<TVal>, caps: seq<TVal>, fuel: nat)
    requires Good(x) && Here(x, f, ns, cur, scope, caps) && Unused(f, node) && PlainComp(c, Build(x.p).index.Keys)
    requires Extends(GenComp(f, c, node, ns, cur), Build(x.p))
    requires EvalComp(x.p.funcs, c, scope, caps, fuel).Done?
    ensures NodeDescribes(Build(x.p), x.sol, node, EvalComp(x.p.funcs, c, scope, caps, fuel).value)
    decreases fuel, 2
  {
    hide Build, Good, Describes, AtomNode, EvalAtom, Place, Wf, CapsOk, Extends, GenPrim, GenGlobal, NodeDescribes, Unused, EvalPrim, Enter;
    match c
    case Use(a) => UseSound(x, f, a, node, ns, cur, scope, caps);
    case MkClosure(_, _) => ClosureSound(x, f, c, node, ns, cur, scope, caps);
    case Call(h, a) =>
      assert GenComp(f, c, node, ns, cur) == GenCall(f, h, a, node, ns, cur);
      var head, arg := CallPlace(x, f, h, a, node, ns, cur, scope, caps);
      ApplySound(x, node, head, arg, EvalAtom(h, scope, caps).value, EvalAtom(a, scope, caps).value, fuel);
    case CallGlobal(name, a) =>
      var arg := GlobalPlace(x, f, name, a, node, ns, cur, scope, caps);
      GlobalSound(x, node, name, arg, EvalAtom(a, scope, caps).value, fuel);
    case Prim(op, args) => PrimSound(x, f, op, args, node, ns, cur, scope, caps);
  }

  // ---- tails ----

  ghost predicate CurOk(x: Analysis, cur: Option<nat>, name: Option<FName>) {
    if cur.None? then name.None?
    else name.Some? && name.value in Build(x.p).index && Build(x.p).index[name.value] == cur.value
  }

  /** A binding: the rest of the body is at a described place with the value bound. */
  lemma {:induction false} LetPlace(
    x: Analysis, f: Flow, c: Comp, rest: Tail, ns: seq<Node>, cur: Option<nat>, scope: seq<TVal>, caps: seq<TVal>, fuel: nat)
    requires Good(x) && Here(x, f, ns, cur, scope, caps) && PlainComp(c, Build(x.p).index.Keys)
    requires Extends(GenTail(f, Tail.Let(c, rest), ns, cur), Build(x.p))
    requires EvalComp(x.p.funcs, c, scope, caps, fuel).Done?
    ensures var g := GenComp(f.Fresh(), c, f.n, ns, cur);
      Here(x, g, [f.n] + ns, cur, [EvalComp(x.p.funcs, c, scope, caps, fuel).value] + scope, caps)
      && Extends(GenTail(g, rest, [f.n] + ns, cur), Build(x.p)) && g.RetNode(cur) == f.RetNode(cur)
    decreases fuel, 3
  {
    hide Build, Good, Describes, EvalComp, Wf, CapsOk, GenComp;
    var g := GenComp(f.Fresh(), c, f.n, ns, cur);
    LetGrows(f, c, ns, cur);
    TailGrows(g, rest, [f.n] + ns, cur);
    assert Extends(g, Build(x.p));
    CompSound(x, f.Fresh(), c, f.n, ns, cur, scope, caps, fuel);
  }

  /** An arm: its body is at a described place with the fields bound. */
  lemma {:induction false} ArmPlace(
    x: Analysis, f: Flow, arms: seq<TailArm>, k: nat, v: TVal, ns: seq<Node>, cur: Option<nat>, scope: seq<TVal>, caps: seq<TVal>)
    requires Good(x) && Here(x, f, ns, cur, scope, caps) && k < |arms|
    requires Extends(GenArms(f, arms, ns, cur), Build(x.p))
    requires v.Con? && ClosureFree(v) && arms[k].binders <= |v.args|
    ensures var b := Binders(GenArms(f, arms[..k], ns, cur), arms[k].binders);
      Here(x, b.0, b.1 + ns, cur, Reverse(v.args[..arms[k].binders]) + scope, caps)
      && Extends(GenTail(b.0, arms[k].body, b.1 + ns, cur), Build(x.p)) && b.0.RetNode(cur) == f.RetNode(cur)
  {
    hide Build, Good, Describes, Wf, CapsOk, GenTail, Place, Binders;
    var m := arms[k].binders;
    var g := GenArms(f, arms[..k], ns, cur);
    var b := Binders(g, m);
    ArmStart(f, arms, k, ns, cur);
    ArmsGrow(f, arms[..k], ns, cur);
    BindersGrow(g, m);
    assert arms[..k + 1][..k] == arms[..k];
    assert GenArms(f, arms[..k + 1], ns, cur) == GenTail(b.0, arms[k].body, b.1 + ns, cur);
    LaterArms(f, arms, k + 1, |arms|, ns, cur);
    assert arms[..|arms|] == arms;
    ExtendsTrans(GenTail(b.0, arms[k].body, b.1 + ns, cur), GenArms(f, arms, ns, cur), Build(x.p));
    ExtendsTrans(b.0, GenTail(b.0, arms[k].body, b.1 + ns, cur), Build(x.p));
    FieldsDescribed(x, b.0, b.1, v, m);
  }

  lemma FieldsDescribed(x: Analysis, f: Flow, bs: seq<Node>, v: TVal, m: nat)
    requires Good(x) && Extends(f, Build(x.p)) && v.Con? && ClosureFree(v) && |bs| == m <= |v.args|
    requires forall k :: 0 <= k < m ==> Open(bs[k]) in f.cstrs
    ensures DescribesAll(Build(x.p), x.sol, bs, Reverse(v.args[..m])) == true
  {
    hide Build, Good, Describes;
    var vs := Reverse(v.args[..m]);
    forall k | 0 <= k < m ensures NodeDescribes(Build(x.p), x.sol, bs[k], vs[k]) {
      Holds(x, Open(bs[k]));
      assert vs[k] == v.args[m - 1 - k];
      OpenDescribes(Build(x.p), x.sol, At(x.sol, bs[k]), vs[k]);
    }
  }

  lemma {:induction false} LaterArms(f: Flow, arms: seq<TailArm>, j: nat, k: nat, ns: seq<Node>, cur: Option<nat>)
    requires Wf(f) && Place(f, ns, cur) && j <= k <= |arms|
    ensures Extends(GenArms(f, arms[..j], ns, cur), GenArms(f, arms[..k], ns, cur))
    decreases k
  {
    hide Wf, Linked, GenTail, Place;
    if j < k {
      LaterArms(f, arms, j, k - 1, ns, cur);
      ArmStart(f, arms, k - 1, ns, cur);
      assert arms[..k][..k - 1] == arms[..k - 1];
      var g := GenArms(f, arms[..k - 1], ns, cur);
      ArmsGrow(f, arms[..k - 1], ns, cur);
      BindersGrow(g, arms[k - 1].binders);
      var b := Binders(g, arms[k - 1].binders);
      ExtendsTrans(g, b.0, GenArms(f, arms[..k], ns, cur));
      ExtendsTrans(GenArms(f, arms[..j], ns, cur), g, GenArms(f, arms[..k], ns, cur));
    }
  }

  /** A constructor in scope holds no closure. */
  lemma ScrutineeFree(x: Analysis, f: Flow, a: Atom, ns: seq<Node>, cur: Option<nat>, scope: seq<TVal>, caps: seq<TVal>)
    requires Here(x, f, ns, cur, scope, caps) && EvalAtom(a, scope, caps).Done? && EvalAtom(a, scope, caps).value.Con?
    ensures ClosureFree(EvalAtom(a, scope, caps).value) == true
  {
    hide Build, Wf, Place, ClosureFree;
    match a
    case Var(i) => AllAt(Build(x.p), x.sol, ns, scope, i);
    case EnvRef(k) => assert SlotOk(Build(x.p), x.sol, cur.value, k, caps[k]);
    case _ =>
  }

  lemma {:induction false} TailSound(
    x: Analysis, f: Flow, t: Tail, ns: seq<Node>, cur: Option<nat>, name: Option<FName>,
    scope: seq<TVal>, caps: seq<TVal>, fuel: nat)
    requires Good(x) && Here(x, f, ns, cur, scope, caps) && CurOk(x, cur, name)
    requires Plain(t, Build(x.p).index.Keys) && Extends(GenTail(f, t, ns, cur), Build(x.p))
    requires EvalTail(x.p.funcs, t, scope, caps, name, fuel).Done?
    ensures NodeDescribes(Build(x.p), x.sol, f.RetNode(cur), EvalTail(x.p.funcs, t, scope, caps, name, fuel).value)
    decreases fuel, 4, t
  {
    hide Build, Good, Here, AtomNode, EvalAtom, Extends, GenComp, GenGlobal, NodeDescribes, Enter, EvalComp, PlainComp;
    match t
    case Ret(a) => UseSound(x, f, a, f.RetNode(cur), ns, cur, scope, caps);
    case Let(c, rest) =>
      LetPlace(x, f, c, rest, ns, cur, scope, caps, fuel);
      TailSound(x, GenComp(f.Fresh(), c, f.n, ns, cur), rest, [f.n] + ns, cur, name,
                [EvalComp(x.p.funcs, c, scope, caps, fuel).value] + scope, caps, fuel);
    case TailCall(h, a) =>
      assert GenTail(f, t, ns, cur) == GenCall(f, h, a, f.RetNode(cur), ns, cur);
      var head, arg := CallPlace(x, f, h, a, f.RetNode(cur), ns, cur, scope, caps);
      ApplySound(x, f.RetNode(cur), head, arg, EvalAtom(h, scope, caps).value, EvalAtom(a, scope, caps).value, fuel);
    case TailCallGlobal(g, a) =>
      HereIndex(x, f, ns, cur, scope, caps);
      var arg := GlobalPlace(x, f, g, a, f.RetNode(cur), ns, cur, scope, caps);
      GlobalSound(x, f.RetNode(cur), g, arg, EvalAtom(a, scope, caps).value, fuel);
    case Jump(a) => JumpSound(x, f, a, ns, cur, name, scope, caps, fuel);
    case Case(s, arms) =>
      ScrutineeFree(x, f, s, ns, cur, scope, caps);
      var v := EvalAtom(s, scope, caps).value;
      var k := FindTailArm(arms, v.con).value;
      ArmPlace(x, f, arms, k, v, ns, cur, scope, caps);
      var b := Binders(GenArms(f, arms[..k], ns, cur), arms[k].binders);
      TailSound(x, b.0, arms[k].body, b.1 + ns, cur, name, Reverse(v.args[..arms[k].binders]) + scope, caps, fuel);
    case IfZero(s, a, b) => IfSound(x, f, t, ns, cur, name, scope, caps, fuel);
  }

  lemma HereIndex(x: Analysis, f: Flow, ns: seq<Node>, cur: Option<nat>, scope: seq<TVal>, caps: seq<TVal>)
    requires Here(x, f, ns, cur, scope, caps)
    ensures f.index == Build(x.p).index
  {
    hide Build;
  }

  lemma {:induction false} IfSound(
    x: Analysis, f: Flow, t: Tail, ns: seq<Node>, cur: Option<nat>, name: Option<FName>,
    scope: seq<TVal>, caps: seq<TVal>, fuel: nat)
    requires t.IfZero? && Good(x) && Here(x, f, ns, cur, scope, caps) && CurOk(x, cur, name)
    requires Plain(t, Build(x.p).index.Keys) && Extends(GenTail(f, t, ns, cur), Build(x.p))
    requires EvalTail(x.p.funcs, t, scope, caps, name, fuel).Done?
    ensures NodeDescribes(Build(x.p), x.sol, f.RetNode(cur), EvalTail(x.p.funcs, t, scope, caps, name, fuel).value)
    decreases fuel, 4, t, 0
  {
    hide Build, Good, EvalAtom, NodeDescribes, CurOk;
    IfPlace(x, f, t, ns, cur, scope, caps);
    if EvalAtom(t.scrut, scope, caps).value.lit.n == 0 {
      TailSound(x, f, t.then_, ns, cur, name, scope, caps, fuel);
    } else {
      TailSound(x, GenTail(f, t.then_, ns, cur), t.else_, ns, cur, name, scope, caps, fuel);
    }
  }

  lemma IfPlace(x: Analysis, f: Flow, t: Tail, ns: seq<Node>, cur: Option<nat>, scope: seq<TVal>, caps: seq<TVal>)
    requires t.IfZero? && Here(x, f, ns, cur, scope, caps) && Extends(GenTail(f, t, ns, cur), Build(x.p))
    ensures var g := GenTail(f, t.then_, ns, cur);
      Here(x, g, ns, cur, scope, caps) && Extends(g, Build(x.p)) && g.RetNode(cur) == f.RetNode(cur)
      && Extends(GenTail(g, t.else_, ns, cur), Build(x.p))
  {
    hide Build, Wf, CapsOk, DescribesAll;
    var g := GenTail(f, t.then_, ns, cur);
    TailGrows(f, t.then_, ns, cur);
    PlaceExtends(f, g, ns, cur);
    TailGrows(g, t.else_, ns, cur);
    ExtendsTrans(g, GenTail(g, t.else_, ns, cur), Build(x.p));
  }

  lemma {:induction false} JumpSound(
    x: Analysis, f: Flow, a: Atom, ns: seq<Node>, cur: Option<nat>, name: Option<FName>,
    scope: seq<TVal>, caps: seq<TVal>, fuel: nat)
    requires Good(x) && Here(x, f, ns, cur, scope, caps) && CurOk(x, cur, name) && !a.Global?
    requires Extends(GenTail(f, Jump(a), ns, cur), Build(x.p))
    requires EvalTail(x.p.funcs, Jump(a), scope, caps, name, fuel).Done?
    ensures NodeDescribes(Build(x.p), x.sol, f.RetNode(cur), EvalTail(x.p.funcs, Jump(a), scope, caps, name, fuel).value)
    decreases fuel, 3
  {
    hide Build, Good, EvalAtom, NodeDescribes, Enter;
    JumpEntry(x, f, a, ns, cur, name, scope, caps);
    EnterSound(x, name.value, caps, EvalAtom(a, scope, caps).value, fuel);
  }

  lemma JumpEntry(x: Analysis, f: Flow, a: Atom, ns: seq<Node>, cur: Option<nat>, name: Option<FName>, scope: seq<TVal>, caps: seq<TVal>)
    requires Good(x) && Here(x, f, ns, cur, scope, caps) && CurOk(x, cur, name) && !a.Global? && name.Some?
    requires Extends(GenTail(f, Jump(a), ns, cur), Build(x.p)) && EvalAtom(a, scope, caps).Done?
    ensures Entry(x, name.value, caps, EvalAtom(a, scope, caps).value)
    ensures f.RetNode(cur) == Build(x.p).ret[cur.value]
  {
    hide Build, Good, EvalAtom, NodeDescribes, AtomNode, Linked, DescribesAll;
    IndexInRange(x.p, name.value);
    AtomGrows(f, a, ns, cur);
    UseSound(x, f, a, f.param[cur.value], ns, cur, scope, caps);
  }
}
