/** Replacing indirect applies by the direct calls the analysis justifies changes no run that does not
    get stuck. */
module RewriteProof {
  import opened Basics
  import opened Values
  import opened CirLang
  import opened AnfLang
  import opened Cfa
  import opened CfaGrows
  import opened CfaSound
  import opened CfaRuns
  import opened Rewrite
  import opened Specialize

  /** A pass: the analyzed program, what decisions install, the decisions and the clones they name. */
  datatype Plan = Plan(x: Analysis, kind: Kind, d: Decisions, clones: seq<AnfFunc>)

  /** Does `name` denote, in `funcs`, the clone of the function closed at site `s` with the literals
      its captures are known to be? */
  ghost predicate IsCloneOf(x: Analysis, funcs: seq<AnfFunc>, name: FName, s: Node, lits: seq<Comp>) {
    var f := Build(x.p);
    s in f.cloFields && f.cloFields[s].name in f.index && f.index[f.cloFields[s].name] < |x.p.funcs|
    && var cs := f.cloFields[s]; var body := x.p.funcs[f.index[cs.name]].body;
    && |lits| == |cs.caps|
    && (forall k :: 0 <= k < |lits| ==> At(x.sol, cs.caps[k]).lit == Just(lits[k]))
    && EnvBelow(body, |lits|) == true
    && LookupAnf(funcs, name) == Some(AnfFunc(name, false, SpecializeBody(body, lits)))
  }

  /** A decision is justified by what the solution says of the apply's head. */
  ghost predicate Justified(x: Analysis, funcs: seq<AnfFunc>, kind: Kind, name: FName, head: Node) {
    var av := At(x.sol, head);
    match kind
    case Known => av.fns == {name}
    case Cloned => exists s, lits :: av.cloSites == {s} && IsCloneOf(x, funcs, name, s, lits)
  }

  ghost predicate Sized(plan: Plan) {
    |plan.d| == |Build(plan.x.p).heads| == ProgramApplies(plan.x.p)
  }

  function Out(plan: Plan): seq<AnfFunc>
    requires Sized(plan)
  {
    RewFuncs(plan.kind, plan.d, plan.x.p.funcs, |plan.x.p.funcs|) + plan.clones
  }

  ghost predicate GoodPlan(plan: Plan) {
    Good(plan.x) && Sized(plan)
    && forall i :: 0 <= i < |plan.d| && plan.d[i].Some? ==>
         Justified(plan.x, Out(plan), plan.kind, plan.d[i].value, Build(plan.x.p).heads[i])
  }

  /** `e` installs some of the decisions of `d`. */
  ghost predicate ChosenFrom(e: Decisions, d: Decisions) {
    |e| == |d| && forall i :: 0 <= i < |e| ==> e[i].None? || e[i] == d[i]
  }

  // ---- looking up a rewritten function ----

  lemma {:induction false} LookupFirst(a: seq<AnfFunc>, b: seq<AnfFunc>, i: nat)
    requires UniqueFuncs(a) && i < |a|
    ensures LookupAnf(a + b, a[i].name) == Some(a[i])
  {
    assert (a + b)[1..] == a[1..] + b;
    if i > 0 {
      assert a[0].name != a[i].name;
      LookupFirst(a[1..], b, i - 1);
    }
  }

  lemma OutLookup(plan: Plan, i: nat)
    requires GoodPlan(plan) && i < |plan.x.p.funcs|
    ensures var g := plan.x.p.funcs[i]; var k := FuncApplies(plan.x.p.funcs, i);
      k + Applies(g.body) <= |plan.d|
      && LookupAnf(Out(plan), g.name) == Some(AnfFunc(g.name, g.recursive, RewTail(plan.kind, plan.d, k, g.body)))
  {
    hide Build, RewTail, Applies, Justified, Solves, Plain, Clean, NothingEscapes, LookupAnf;
    var funcs := plan.x.p.funcs;
    var out := RewFuncs(plan.kind, plan.d, funcs, |funcs|);
    forall k | 0 <= k < |funcs| ensures out[k].name == funcs[k].name {
      FuncRewritten(plan.kind, plan.d, funcs, |funcs|, k);
    }
    LookupFirst(out, plan.clones, i);
    FuncRewritten(plan.kind, plan.d, funcs, |funcs|, i);
  }

  // ---- the induction ----

  /** A function's body, rewritten as far as `e` says, run among the rewritten functions. */
  lemma {:induction false} BodySame(plan: Plan, e: Decisions, name: FName, caps: seq<TVal>, arg: TVal, fuel: nat)
    requires GoodPlan(plan) && ChosenFrom(e, plan.d) && Entry(plan.x, name, caps, arg)
    requires FunctionFound(plan, name)
    requires !EvalTail(plan.x.p.funcs, BodyOf(plan, name), [arg], caps, Some(name), fuel).Stuck?
    ensures EvalTail(Out(plan), RewTail(plan.kind, e, FirstApply(plan, name), BodyOf(plan, name)), [arg], caps, Some(name), fuel)
         == EvalTail(plan.x.p.funcs, BodyOf(plan, name), [arg], caps, Some(name), fuel)
    decreases fuel, 5
  {
    hide Build, GoodPlan, EvalTail, GenTail, Plain, LookupAnf, Out, RewTail, Here, Entry, Applies, DescribesAll, FuncApplies;
    var x := plan.x;
    GoodParts(plan);
    EntryBody(x, name, caps, arg);
    var i := Build(x.p).index[name];
    FuncHeads(x.p.funcs, i);
    TailSame(plan, e, FuncState(x.p, i), x.p.funcs[i].body, [Build(x.p).param[i]], Some(i), Some(name), [arg], caps, fuel);
  }

  ghost predicate FunctionFound(plan: Plan, name: FName) {
    var f := Build(plan.x.p);
    name in f.index && f.index[name] < |plan.x.p.funcs| && Sized(plan)
    && FuncApplies(plan.x.p.funcs, f.index[name]) + Applies(plan.x.p.funcs[f.index[name]].body) <= |plan.d|
  }

  function BodyOf(plan: Plan, name: FName): Tail
    requires FunctionFound(plan, name)
  {
    plan.x.p.funcs[Build(plan.x.p).index[name]].body
  }

  function FirstApply(plan: Plan, name: FName): nat
    requires FunctionFound(plan, name)
  {
    FuncApplies(plan.x.p.funcs, Build(plan.x.p).index[name])
  }

  /** A function that may be entered is found by name before and after rewriting. */
  lemma EntryFound(plan: Plan, name: FName, caps: seq<TVal>, arg: TVal)
    requires GoodPlan(plan) && Entry(plan.x, name, caps, arg)
    ensures FunctionFound(plan, name)
    ensures var g := LookupAnf(plan.x.p.funcs, name); g.Some? && g.value.body == BodyOf(plan, name)
    ensures var h := LookupAnf(Out(plan), name);
      h.Some? && h.value.body == RewTail(plan.kind, plan.d, FirstApply(plan, name), BodyOf(plan, name))
  {
    hide Build, Good, GenTail, Plain, LookupAnf, Out, RewTail, Here, Entry, Applies, FuncApplies, Justified;
    EntryBody(plan.x, name, caps, arg);
    OutLookup(plan, Build(plan.x.p).index[name]);
  }

  /** A known function entered after rewriting. */
  lemma {:induction false} EnterSame(plan: Plan, name: FName, caps: seq<TVal>, arg: TVal, fuel: nat)
    requires GoodPlan(plan) && Entry(plan.x, name, caps, arg)
    requires !Enter(plan.x.p.funcs, name, caps, arg, fuel).Stuck?
    ensures Enter(Out(plan), name, caps, arg, fuel) == Enter(plan.x.p.funcs, name, caps, arg, fuel)
    decreases fuel, 0
  {
    hide GoodPlan, EvalTail, LookupAnf, Out, RewTail, Entry, FunctionFound, BodyOf, FirstApply;
    if fuel > 0 {
      GoodParts(plan);
      EntryFound(plan, name, caps, arg);
      BodySame(plan, plan.d, name, caps, arg, fuel - 1);
    }
  }

  lemma GoodParts(plan: Plan)
    requires GoodPlan(plan)
    ensures Good(plan.x) && ChosenFrom(plan.d, plan.d)
  {}

  /** The clone of a closure's function does what the closure does. */
  lemma {:induction false} CloneSame(plan: Plan, clone: FName, s: Node, lits: seq<Comp>, hv: TVal, arg: TVal, fuel: nat)
    requires GoodPlan(plan) && hv.Clo? && Entry(plan.x, hv.code, hv.env, arg)
    requires IsCloneOf(plan.x, Out(plan), clone, s, lits)
    requires Build(plan.x.p).cloFields[s].name == hv.code
    requires DescribesAll(Build(plan.x.p), plan.x.sol, Build(plan.x.p).cloFields[s].caps, hv.env)
    requires !Enter(plan.x.p.funcs, hv.code, hv.env, arg, fuel).Stuck?
    ensures Enter(Out(plan), clone, [], arg, fuel) == Enter(plan.x.p.funcs, hv.code, hv.env, arg, fuel)
    decreases fuel, 0
  {
    hide Build, GoodPlan, EvalTail, LookupAnf, Out, RewTail, Entry, DescribesAll, SpecializeBody, EnvBelow, IsCloneOf, FunctionFound;
    if fuel > 0 {
      EntryFound(plan, hv.code, hv.env, arg);
      var body := BodyOf(plan, hv.code);
      FoundSized(plan, hv.code);
      LitsDescribed(plan.x, Out(plan), clone, s, lits, hv.env);
      CloneRuns(Out(plan), body, lits, hv.env, arg, Some(hv.code), Some(clone), fuel - 1);
      OriginalSame(plan, hv.code, hv.env, arg, fuel - 1);
    }
  }

  lemma FoundSized(plan: Plan, name: FName)
    requires FunctionFound(plan, name)
    ensures Sized(plan)
  {}

  /** A body that is not rewritten, run among the rewritten functions. */
  lemma {:induction false} OriginalSame(plan: Plan, name: FName, caps: seq<TVal>, arg: TVal, fuel: nat)
    requires GoodPlan(plan) && Entry(plan.x, name, caps, arg) && FunctionFound(plan, name)
    requires !EvalTail(plan.x.p.funcs, BodyOf(plan, name), [arg], caps, Some(name), fuel).Stuck?
    ensures EvalTail(Out(plan), BodyOf(plan, name), [arg], caps, Some(name), fuel)
         == EvalTail(plan.x.p.funcs, BodyOf(plan, name), [arg], caps, Some(name), fuel)
    decreases fuel, 6
  {
    hide Build, GoodPlan, EvalTail, Out, RewTail, Entry, Applies, FuncApplies;
    var e: Decisions := seq(|plan.d|, k => None);
    BodySame(plan, e, name, caps, arg, fuel);
    RewriteNothing(plan.kind, e, FirstApply(plan, name), BodyOf(plan, name));
  }

  /** The captures of a closure built at a site of known literals are those literals' values. */
  lemma LitsDescribed(x: Analysis, funcs: seq<AnfFunc>, clone: FName, s: Node, lits: seq<Comp>, xs: seq<TVal>)
    requires IsCloneOf(x, funcs, clone, s, lits)
    requires DescribesAll(Build(x.p), x.sol, Build(x.p).cloFields[s].caps, xs)
    ensures s in Build(x.p).cloFields && Build(x.p).cloFields[s].name in Build(x.p).index
    ensures Build(x.p).index[Build(x.p).cloFields[s].name] < |x.p.funcs|
    ensures LitValues(lits, xs) && EnvBelow(x.p.funcs[Build(x.p).index[Build(x.p).cloFields[s].name]].body, |lits|) == true
    ensures var body := x.p.funcs[Build(x.p).index[Build(x.p).cloFields[s].name]].body;
      LookupAnf(funcs, clone) == Some(AnfFunc(clone, false, SpecializeBody(body, lits)))
  {
    hide Build, EnvBelow, LookupAnf, SpecializeBody;
    forall k | 0 <= k < |lits| ensures LitValue(lits[k]) == Some(xs[k]) {
      AllAt(Build(x.p), x.sol, Build(x.p).cloFields[s].caps, xs, k);
    }
  }

  /** What the installed call computes when its head is `hv`. */
  function Direct(funcs: seq<AnfFunc>, kind: Kind, name: FName, hv: TVal, arg: TVal, fuel: nat): Outcome<TVal> {
    Enter(funcs, name, if kind.Known? then EnvOf(hv) else [], arg, fuel)
  }

  lemma {:induction false} DirectSame(plan: Plan, i: nat, hv: TVal, arg: TVal, fuel: nat)
    requires GoodPlan(plan) && i < |plan.d| && plan.d[i].Some? && hv.Clo? && Entry(plan.x, hv.code, hv.env, arg)
    requires NodeDescribes(Build(plan.x.p), plan.x.sol, Build(plan.x.p).heads[i], hv)
    requires !Enter(plan.x.p.funcs, hv.code, hv.env, arg, fuel).Stuck?
    ensures Direct(Out(plan), plan.kind, plan.d[i].value, hv, arg, fuel) == Enter(plan.x.p.funcs, hv.code, hv.env, arg, fuel)
    decreases fuel, 1
  {
    hide Build, Good, Enter, Out, Entry, DescribesAll, IsCloneOf, Describes;
    assert hv == Clo(hv.code, hv.env);
    var head := Build(plan.x.p).heads[i];
    assert Justified(plan.x, Out(plan), plan.kind, plan.d[i].value, head);
    var s := SiteOf(Build(plan.x.p), plan.x.sol, At(plan.x.sol, head), hv.code, hv.env);
    if plan.kind.Known? {
      EnterSame(plan, hv.code, hv.env, arg, fuel);
    } else {
      var s', lits :| At(plan.x.sol, head).cloSites == {s'} && IsCloneOf(plan.x, Out(plan), plan.d[i].value, s', lits);
      assert s in At(plan.x.sol, head).cloSites;
      assert s == s';
      CloneSame(plan, plan.d[i].value, s, lits, hv, arg, fuel);
    }
  }

  /** An apply, rewritten or not. */
  lemma {:induction false} ApplySame(
    plan: Plan, e: Decisions, f: Flow, h: Atom, a: Atom, res: Node, ns: seq<Node>, cur: Option<nat>,
    scope: seq<TVal>, caps: seq<TVal>, fuel: nat)
    requires GoodPlan(plan) && ChosenFrom(e, plan.d) && Here(plan.x, f, ns, cur, scope, caps) && !h.Global? && !a.Global?
    requires Extends(GenCall(f, h, a, res, ns, cur), Build(plan.x.p))
    requires EvalAtom(h, scope, caps).Done? && EvalAtom(a, scope, caps).Done?
    requires !AnfLang.Apply(plan.x.p.funcs, EvalAtom(h, scope, caps).value, EvalAtom(a, scope, caps).value, fuel).Stuck?
    ensures |f.heads| < |e|
    ensures var hv, av := EvalAtom(h, scope, caps).value, EvalAtom(a, scope, caps).value;
      var r := AnfLang.Apply(plan.x.p.funcs, hv, av, fuel);
      if e[|f.heads|].Some? then Direct(Out(plan), plan.kind, e[|f.heads|].value, hv, av, fuel) == r
      else AnfLang.Apply(Out(plan), hv, av, fuel) == r
    decreases fuel, 2
  {
    hide Build, GoodPlan, Here, EvalAtom, Enter, Out, Extends, Entry, Direct, GenCall;
    GoodParts(plan);
    var hv, av := EvalAtom(h, scope, caps).value, EvalAtom(a, scope, caps).value;
    var head, arg := CallPlace(plan.x, f, h, a, res, ns, cur, scope, caps);
    var i := CallEntry(plan.x, res, head, arg, hv, av);
    GoodSized(plan);
    if e[|f.heads|].Some? {
      DirectSame(plan, |f.heads|, hv, av, fuel);
    } else {
      EnterSame(plan, hv.code, hv.env, av, fuel);
    }
  }

  lemma GoodSized(plan: Plan)
    requires GoodPlan(plan)
    ensures |plan.d| == |Build(plan.x.p).heads|
  {}

  lemma {:induction false} CompSame(
    plan: Plan, e: Decisions, f: Flow, c: Comp, node: Node, ns: seq<Node>, cur: Option<nat>,
    scope: seq<TVal>, caps: seq<TVal>, fuel: nat)
    requires GoodPlan(plan) && ChosenFrom(e, plan.d) && Here(plan.x, f, ns, cur, scope, caps)
    requires PlainComp(c, Build(plan.x.p).index.Keys) && |f.heads| + CompApplies(c) <= |e|
    requires Extends(GenComp(f, c, node, ns, cur), Build(plan.x.p))
    requires !EvalComp(plan.x.p.funcs, c, scope, caps, fuel).Stuck?
    ensures EvalComp(Out(plan), RewComp(plan.kind, e, |f.heads|, c), scope, caps, fuel)
         == EvalComp(plan.x.p.funcs, c, scope, caps, fuel)
    decreases fuel, 3
  {
    hide Build, GoodPlan, Here, EvalAtom, EvalAtoms, Enter, Out, Extends, EvalPrim, AtomNode, GenGlobal;
    match c
    case Call(h, a) =>
      assert GenComp(f, c, node, ns, cur) == GenCall(f, h, a, node, ns, cur);
      ApplySame(plan, e, f, h, a, node, ns, cur, scope, caps, fuel);
    case CallGlobal(name, a) =>
      GoodParts(plan);
      HereIndex(plan.x, f, ns, cur, scope, caps);
      var arg := GlobalPlace(plan.x, f, name, a, node, ns, cur, scope, caps);
      GlobalEntry(plan.x, node, name, arg, EvalAtom(a, scope, caps).value);
      EnterSame(plan, name, [], EvalAtom(a, scope, caps).value, fuel);
    case _ =>
  }

  lemma {:induction false} TailSame(
    plan: Plan, e: Decisions, f: Flow, t: Tail, ns: seq<Node>, cur: Option<nat>, name: Option<FName>,
    scope: seq<TVal>, caps: seq<TVal>, fuel: nat)
    requires GoodPlan(plan) && ChosenFrom(e, plan.d) && |f.heads| + Applies(t) <= |e|
    requires Here(plan.x, f, ns, cur, scope, caps) && CurOk(plan.x, cur, name)
    requires Plain(t, Build(plan.x.p).index.Keys) && Extends(GenTail(f, t, ns, cur), Build(plan.x.p))
    requires !EvalTail(plan.x.p.funcs, t, scope, caps, name, fuel).Stuck?
    ensures EvalTail(Out(plan), RewTail(plan.kind, e, |f.heads|, t), scope, caps, name, fuel)
         == EvalTail(plan.x.p.funcs, t, scope, caps, name, fuel)
    decreases fuel, 4, t, 1
  {
    hide Build, GoodPlan, Here, EvalAtom, Enter, Out, Extends, EvalComp, AtomNode, GenGlobal, GenComp, CurOk, PlainComp, GenArms, RewArms;
    match t
    case Ret(a) =>
    case Let(c, rest) => LetSame(plan, e, f, t, ns, cur, name, scope, caps, fuel);
    case TailCall(h, a) =>
      assert GenTail(f, t, ns, cur) == GenCall(f, h, a, f.RetNode(cur), ns, cur);
      ApplySame(plan, e, f, h, a, f.RetNode(cur), ns, cur, scope, caps, fuel);
    case TailCallGlobal(g, a) =>
      GoodParts(plan);
      HereIndex(plan.x, f, ns, cur, scope, caps);
      var arg := GlobalPlace(plan.x, f, g, a, f.RetNode(cur), ns, cur, scope, caps);
      GlobalEntry(plan.x, f.RetNode(cur), g, arg, EvalAtom(a, scope, caps).value);
      EnterSame(plan, g, [], EvalAtom(a, scope, caps).value, fuel);
    case Jump(a) =>
      GoodParts(plan);
      JumpEntry(plan.x, f, a, ns, cur, name, scope, caps);
      EnterSame(plan, name.value, caps, EvalAtom(a, scope, caps).value, fuel);
    case Case(_, _) => CaseSame(plan, e, f, t, ns, cur, name, scope, caps, fuel);
    case IfZero(_, _, _) => IfSame(plan, e, f, t, ns, cur, name, scope, caps, fuel);
  }

  lemma {:induction false} LetSame(
    plan: Plan, e: Decisions, f: Flow, t: Tail, ns: seq<Node>, cur: Option<nat>, name: Option<FName>,
    scope: seq<TVal>, caps: seq<TVal>, fuel: nat)
    requires t.Let? && GoodPlan(plan) && ChosenFrom(e, plan.d) && |f.heads| + Applies(t) <= |e|
    requires Here(plan.x, f, ns, cur, scope, caps) && CurOk(plan.x, cur, name)
    requires Plain(t, Build(plan.x.p).index.Keys) && Extends(GenTail(f, t, ns, cur), Build(plan.x.p))
    requires !EvalTail(plan.x.p.funcs, t, scope, caps, name, fuel).Stuck?
    ensures EvalTail(Out(plan), RewTail(plan.kind, e, |f.heads|, t), scope, caps, name, fuel)
         == EvalTail(plan.x.p.funcs, t, scope, caps, name, fuel)
    decreases fuel, 4, t, 0
  {
    hide Build, GoodPlan, Here, Out, Extends, EvalComp, GenComp, CurOk, PlainComp, RewComp;
    var c := t.comp;
    GoodParts(plan);
    var g := GenComp(f.Fresh(), c, f.n, ns, cur);
    FreshPlace(plan.x, f, t, ns, cur, scope, caps);
    CompSame(plan, e, f.Fresh(), c, f.n, ns, cur, scope, caps, fuel);
    var v := EvalComp(plan.x.p.funcs, c, scope, caps, fuel);
    if v.Done? {
      LetPlace(plan.x, f, c, t.rest, ns, cur, scope, caps, fuel);
      CompHeads(f.Fresh(), c, f.n, ns, cur);
      TailSame(plan, e, g, t.rest, [f.n] + ns, cur, name, [v.value] + scope, caps, fuel);
    }
  }

  lemma FreshPlace(x: Analysis, f: Flow, t: Tail, ns: seq<Node>, cur: Option<nat>, scope: seq<TVal>, caps: seq<TVal>)
    requires t.Let? && Here(x, f, ns, cur, scope, caps) && Extends(GenTail(f, t, ns, cur), Build(x.p))
    ensures Here(x, f.Fresh(), ns, cur, scope, caps)
    ensures Extends(GenComp(f.Fresh(), t.comp, f.n, ns, cur), Build(x.p))
  {
    hide Build, Wf, GenComp, CapsOk, DescribesAll;
    var g := GenComp(f.Fresh(), t.comp, f.n, ns, cur);
    LetGrows(f, t.comp, ns, cur);
    TailGrows(g, t.rest, [f.n] + ns, cur);
    ExtendsTrans(g, GenTail(g, t.rest, [f.n] + ns, cur), Build(x.p));
  }

  lemma {:induction false} CaseSame(
    plan: Plan, e: Decisions, f: Flow, t: Tail, ns: seq<Node>, cur: Option<nat>, name: Option<FName>,
    scope: seq<TVal>, caps: seq<TVal>, fuel: nat)
    requires t.Case? && GoodPlan(plan) && ChosenFrom(e, plan.d) && |f.heads| + Applies(t) <= |e|
    requires Here(plan.x, f, ns, cur, scope, caps) && CurOk(plan.x, cur, name)
    requires Plain(t, Build(plan.x.p).index.Keys) && Extends(GenTail(f, t, ns, cur), Build(plan.x.p))
    requires !EvalTail(plan.x.p.funcs, t, scope, caps, name, fuel).Stuck?
    ensures EvalTail(Out(plan), RewTail(plan.kind, e, |f.heads|, t), scope, caps, name, fuel)
         == EvalTail(plan.x.p.funcs, t, scope, caps, name, fuel)
    decreases fuel, 4, t, 0
  {
    hide Build, GoodPlan, Here, EvalAtom, Out, Extends, CurOk, GenArms, RewArms, ArmApplies;
    var arms := t.arms;
    ScrutineeFree(plan.x, f, t.scrut, ns, cur, scope, caps);
    GoodParts(plan);
    var v := EvalAtom(t.scrut, scope, caps).value;
    var k := FindTailArm(arms, v.con).value;
    var arms' := RewArms(plan.kind, e, |f.heads|, arms);
    ArmsAligned(plan.kind, e, |f.heads|, arms, v.con);
    ArmRewritten(plan.kind, e, |f.heads|, arms, k);
    ArmPlace(plan.x, f, arms, k, v, ns, cur, scope, caps);
    var b := Binders(GenArms(f, arms[..k], ns, cur), arms[k].binders);
    ArmHeads(f, arms[..k], ns, cur);
    BinderHeads(GenArms(f, arms[..k], ns, cur), arms[k].binders);
    TailSame(plan, e, b.0, arms[k].body, b.1 + ns, cur, name, Reverse(v.args[..arms[k].binders]) + scope, caps, fuel);
  }

  lemma ArmsAligned(kind: Kind, d: Decisions, i: nat, arms: seq<TailArm>, con: string)
    requires i + ArmApplies(arms) <= |d|
    ensures FindTailArm(RewArms(kind, d, i, arms), con) == FindTailArm(arms, con)
  {
    hide RewArms, ArmApplies;
    forall k | 0 <= k < |arms| ensures RewArms(kind, d, i, arms)[k].con == arms[k].con {
      ArmRewritten(kind, d, i, arms, k);
    }
    SameTailArm(RewArms(kind, d, i, arms), arms, con);
  }

  lemma {:induction false} IfSame(
    plan: Plan, e: Decisions, f: Flow, t: Tail, ns: seq<Node>, cur: Option<nat>, name: Option<FName>,
    scope: seq<TVal>, caps: seq<TVal>, fuel: nat)
    requires t.IfZero? && GoodPlan(plan) && ChosenFrom(e, plan.d) && |f.heads| + Applies(t) <= |e|
    requires Here(plan.x, f, ns, cur, scope, caps) && CurOk(plan.x, cur, name)
    requires Plain(t, Build(plan.x.p).index.Keys) && Extends(GenTail(f, t, ns, cur), Build(plan.x.p))
    requires !EvalTail(plan.x.p.funcs, t, scope, caps, name, fuel).Stuck?
    ensures EvalTail(Out(plan), RewTail(plan.kind, e, |f.heads|, t), scope, caps, name, fuel)
         == EvalTail(plan.x.p.funcs, t, scope, caps, name, fuel)
    decreases fuel, 4, t, 0
  {
    hide Build, GoodPlan, EvalAtom, Out, CurOk, Here, Extends;
    IfPlace(plan.x, f, t, ns, cur, scope, caps);
    TailHeads(f, t.then_, ns, cur);
    if EvalAtom(t.scrut, scope, caps).value.lit.n == 0 {
      TailSame(plan, e, f, t.then_, ns, cur, name, scope, caps, fuel);
    } else {
      TailSame(plan, e, GenTail(f, t.then_, ns, cur), t.else_, ns, cur, name, scope, caps, fuel);
    }
  }

  // ---- main result ----

  function OutProgram(plan: Plan): AnfProgram
    requires Sized(plan)
  {
    var r := RewProgram(plan.kind, plan.d, plan.x.p);
    AnfProgram(r.funcs + plan.clones, r.entry)
  }

  /** The rewritten program ends with the same value, or runs on, whenever the given one does. */
  lemma RewritePreserves(plan: Plan, fuel: nat)
    requires GoodPlan(plan) && !RunProgram(plan.x.p, fuel).Stuck?
    ensures RunProgram(OutProgram(plan), fuel) == RunProgram(plan.x.p, fuel)
  {
    hide GenTail, EvalTail, Wf, Solves, Clean, NothingEscapes, Justified, RewTail, Applies, Plain, RewFuncs;
    var x := plan.x;
    var n := |x.p.funcs|;
    var f := FuncState(x.p, n);
    FuncsGrow(x.p.funcs, n);
    BuildGrows(x.p);
    IndexOfBuild(x.p);
    FuncHeads(x.p.funcs, n);
    TailSame(plan, plan.d, f, x.p.entry, [], None, None, [], [], fuel);
  }
}
