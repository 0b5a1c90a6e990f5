/** The flow solution describes every variable at every point of every run: safety of the analysis as
    an invariant of the execution steps. */
module CfaTraces {
  import opened Basics
  import opened Values
  import opened CirLang
  import opened AnfLang
  import opened Cfa
  import opened CfaGrows
  import opened CfaSound
  import opened CfaRuns

  /** A point of a run: the code about to run, its variables and captures, and the place of the flow
      graph it was analyzed at; `ns` lists the nodes of the variables in scope. */
  datatype Config = Config(
    t: Tail, scope: seq<TVal>, caps: seq<TVal>, fuel: nat, f: Flow, ns: seq<Node>, cur: Option<nat>)

  function NameOf(p: AnfProgram, cur: Option<nat>): Option<FName> {
    if cur.Some? && cur.value < |p.funcs| then Some(p.funcs[cur.value].name) else None
  }

  /** The call a point makes next, if it makes one: the function, its captures and its argument. */
  function CallOf(p: AnfProgram, c: Config): Outcome<(FName, seq<TVal>, TVal)> {
    match c.t
    case Let(comp, _) =>
      if comp.Call? then Applied(comp.f, comp.arg, c.scope, c.caps)
      else if comp.CallGlobal? then
        var av :- EvalAtom(comp.arg, c.scope, c.caps);
        Done((comp.name, [], av))
      else Stuck
    case TailCall(h, a) => Applied(h, a, c.scope, c.caps)
    case TailCallGlobal(g, a) =>
      var av :- EvalAtom(a, c.scope, c.caps);
      Done((g, [], av))
    case Jump(a) =>
      var av :- EvalAtom(a, c.scope, c.caps);
      if NameOf(p, c.cur).None? then Stuck else Done((NameOf(p, c.cur).value, c.caps, av))
    case _ => Stuck
  }

  function Applied(h: Atom, a: Atom, scope: seq<TVal>, caps: seq<TVal>): Outcome<(FName, seq<TVal>, TVal)> {
    var hv :- EvalAtom(h, scope, caps);
    var av :- EvalAtom(a, scope, caps);
    if hv.Clo? then Done((hv.code, hv.env, av)) else Stuck
  }

  predicate CallStep(p: AnfProgram, a: Config, b: Config) {
    var call := CallOf(p, a);
    call.Done? && a.fuel > 0 && call.value.0 in Build(p).index
    && var i := Build(p).index[call.value.0];
    i < |p.funcs| && i < |Build(p).param|
    && b == Config(p.funcs[i].body, [call.value.2], call.value.1, a.fuel - 1, FuncState(p, i), [Build(p).param[i]], Some(i))
  }

  predicate BindStep(p: AnfProgram, a: Config, b: Config) {
    a.t.Let? && var v := EvalComp(p.funcs, a.t.comp, a.scope, a.caps, a.fuel);
    v.Done? && b == a.(t := a.t.rest, scope := [v.value] + a.scope,
                       f := GenComp(a.f.Fresh(), a.t.comp, a.f.n, a.ns, a.cur), ns := [a.f.n] + a.ns)
  }

  predicate ArmStep(a: Config, b: Config) {
    a.t.Case? && var v := EvalAtom(a.t.scrut, a.scope, a.caps);
    v.Done? && v.value.Con? && var found := FindTailArm(a.t.arms, v.value.con);
    found.Some? && a.t.arms[found.value].binders <= |v.value.args|
    && var arm := a.t.arms[found.value];
    var bs := Binders(GenArms(a.f, a.t.arms[..found.value], a.ns, a.cur), arm.binders);
    b == a.(t := arm.body, scope := Reverse(v.value.args[..arm.binders]) + a.scope, f := bs.0, ns := bs.1 + a.ns)
  }

  predicate BranchStep(a: Config, b: Config) {
    a.t.IfZero? && var v := EvalAtom(a.t.scrut, a.scope, a.caps);
    v.Done? && IsInt(v.value)
    && b == if v.value.lit.n == 0 then a.(t := a.t.then_) else a.(t := a.t.else_, f := GenTail(a.f, a.t.then_, a.ns, a.cur))
  }

  predicate Step(p: AnfProgram, a: Config, b: Config) {
    CallStep(p, a, b) || BindStep(p, a, b) || ArmStep(a, b) || BranchStep(a, b)
  }

  /** A run from the program's entry, through bindings, branches and into calls. */
  ghost predicate Run(p: AnfProgram, run: seq<Config>, fuel: nat) {
    && |run| > 0
    && run[0] == Config(p.entry, [], [], fuel, FuncState(p, |p.funcs|), [], None)
    && forall k :: 0 <= k < |run| - 1 ==> Step(p, run[k], run[k + 1])
  }

  /** The configuration is where the analyzer says, and the solution describes what is in scope. */
  ghost predicate Described(x: Analysis, c: Config) {
    && Here(x, c.f, c.ns, c.cur, c.scope, c.caps) && CurOk(x, c.cur, NameOf(x.p, c.cur))
    && Plain(c.t, Build(x.p).index.Keys) == true && Extends(GenTail(c.f, c.t, c.ns, c.cur), Build(x.p))
  }

  lemma StartDescribed(x: Analysis, fuel: nat)
    requires Good(x)
    ensures Described(x, Config(x.p.entry, [], [], fuel, FuncState(x.p, |x.p.funcs|), [], None))
  {
    hide GenTail, Wf, Plain, Solves, Clean, NothingEscapes;
    FuncsGrow(x.p.funcs, |x.p.funcs|);
    BuildGrows(x.p);
    IndexOfBuild(x.p);
  }

  lemma {:induction false} CallDescribed(x: Analysis, a: Config, b: Config)
    requires Good(x) && Described(x, a) && CallStep(x.p, a, b)
    ensures Described(x, b)
  {
    hide Build, Good, Describes, GenTail, Here, Plain, FuncState, EvalAtom, Extends;
    var call := CallOf(x.p, a).value;
    CallEntered(x, a);
    EntryBody(x, call.0, call.1, call.2);
  }

  /** The function a described point calls is entered with described values. */
  lemma {:induction false} CallEntered(x: Analysis, c: Config)
    requires Good(x) && Described(x, c) && CallOf(x.p, c).Done?
    ensures var call := CallOf(x.p, c).value; Entry(x, call.0, call.1, call.2)
  {
    hide Build, Good, Entry, Here, EvalAtom, Extends, GenComp, CurOk, GenGlobal;
    var res := c.f.RetNode(c.cur);
    match c.t
    case Let(comp, rest) => LetCallEntered(x, c);
    case TailCall(h, a) =>
      assert GenTail(c.f, c.t, c.ns, c.cur) == GenCall(c.f, h, a, res, c.ns, c.cur);
      AppliedEntry(x, c.f, h, a, res, c.ns, c.cur, c.scope, c.caps);
    case TailCallGlobal(g, a) =>
      HereIndex(x, c.f, c.ns, c.cur, c.scope, c.caps);
      var arg := GlobalPlace(x, c.f, g, a, res, c.ns, c.cur, c.scope, c.caps);
      GlobalEntry(x, res, g, arg, EvalAtom(a, c.scope, c.caps).value);
    case Jump(a) => JumpEntry(x, c.f, a, c.ns, c.cur, NameOf(x.p, c.cur), c.scope, c.caps);
    case _ =>
  }

  lemma AppliedEntry(x: Analysis, f: Flow, h: Atom, a: Atom, res: Node, ns: seq<Node>, cur: Option<nat>, scope: seq<TVal>, caps: seq<TVal>)
    requires Good(x) && Here(x, f, ns, cur, scope, caps) && !h.Global? && !a.Global?
    requires Extends(GenCall(f, h, a, res, ns, cur), Build(x.p)) && Applied(h, a, scope, caps).Done?
    ensures var call := Applied(h, a, scope, caps).value; Entry(x, call.0, call.1, call.2)
  {
    hide Build, Good, Entry, Here, EvalAtom, Extends, GenCall;
    var head, arg := CallPlace(x, f, h, a, res, ns, cur, scope, caps);
    var i := CallEntry(x, res, head, arg, EvalAtom(h, scope, caps).value, EvalAtom(a, scope, caps).value);
  }

  lemma {:induction false} LetCallEntered(x: Analysis, c: Config)
    requires c.t.Let? && Good(x) && Described(x, c) && CallOf(x.p, c).Done?
    ensures var call := CallOf(x.p, c).value; Entry(x, call.0, call.1, call.2)
  {
    hide Build, Good, Entry, EvalAtom, CurOk, GenGlobal, DescribesAll, CapsOk, Linked;
    var f, comp := c.f, c.t.comp;
    LetGrows(f, comp, c.ns, c.cur);
    TailGrows(GenComp(f.Fresh(), comp, f.n, c.ns, c.cur), c.t.rest, [f.n] + c.ns, c.cur);
    ExtendsTrans(GenComp(f.Fresh(), comp, f.n, c.ns, c.cur), GenTail(f, c.t, c.ns, c.cur), Build(x.p));
    assert Here(x, f.Fresh(), c.ns, c.cur, c.scope, c.caps);
    if comp.Call? {
      assert GenComp(f.Fresh(), comp, f.n, c.ns, c.cur) == GenCall(f.Fresh(), comp.f, comp.arg, f.n, c.ns, c.cur);
      AppliedEntry(x, f.Fresh(), comp.f, comp.arg, f.n, c.ns, c.cur, c.scope, c.caps);
    } else {
      var arg := GlobalPlace(x, f.Fresh(), comp.name, comp.arg, f.n, c.ns, c.cur, c.scope, c.caps);
      GlobalEntry(x, f.n, comp.name, arg, EvalAtom(comp.arg, c.scope, c.caps).value);
    }
  }

  lemma {:induction false} StepDescribed(x: Analysis, a: Config, b: Config)
    requires Good(x) && Described(x, a) && Step(x.p, a, b)
    ensures Described(x, b)
  {
    hide Build, Good, CallStep, Here, EvalAtom, Extends, GenComp, CurOk, EvalComp, PlainComp;
    if CallStep(x.p, a, b) {
      CallDescribed(x, a, b);
    } else if BindStep(x.p, a, b) {
      LetPlace(x, a.f, a.t.comp, a.t.rest, a.ns, a.cur, a.scope, a.caps, a.fuel);
    } else if ArmStep(a, b) {
      ScrutineeFree(x, a.f, a.t.scrut, a.ns, a.cur, a.scope, a.caps);
      var v := EvalAtom(a.t.scrut, a.scope, a.caps).value;
      ArmPlace(x, a.f, a.t.arms, FindTailArm(a.t.arms, v.con).value, v, a.ns, a.cur, a.scope, a.caps);
    } else {
      IfPlace(x, a.f, a.t, a.ns, a.cur, a.scope, a.caps);
    }
  }

  /** At every point of every run, each variable in scope holds a value its node's solution describes,
      and each capture one its environment slot describes. */
  lemma {:induction false} RunDescribed(x: Analysis, run: seq<Config>, fuel: nat, k: nat)
    requires Good(x) && Run(x.p, run, fuel) && k < |run|
    ensures DescribesAll(Build(x.p), x.sol, run[k].ns, run[k].scope)
    ensures CapsOk(Build(x.p), x.sol, run[k].cur, run[k].caps)
    ensures Described(x, run[k])
  {
    hide Build, Good, Wf, Place, DescribesAll, CapsOk, CurOk, Plain, Extends, Step, GenTail;
    if k == 0 {
      StartDescribed(x, fuel);
    } else {
      RunDescribed(x, run, fuel, k - 1);
      assert Step(x.p, run[k - 1], run[k - 1 + 1]);
      StepDescribed(x, run[k - 1], run[k]);
    }
  }

  /** A variable whose node tracks a literal never holds anything else, and one whose node knows a
      single function never holds a closure of another. */
  lemma RunLiterals(x: Analysis, run: seq<Config>, fuel: nat, k: nat, i: nat)
    requires Good(x) && Run(x.p, run, fuel) && k < |run| && i < |run[k].scope|
    ensures |run[k].ns| == |run[k].scope|
    ensures var av := At(x.sol, run[k].ns[i]); var v := run[k].scope[i];
      && (av.lit.Just? ==> LitValue(av.lit.lit) == Some(v))
      && (v.Clo? ==> v.code in av.fns)
      && !av.lit.Bottom?
  {
    hide Build, Good, Run, Described;
    RunDescribed(x, run, fuel, k);
    AllAt(Build(x.p), x.sol, run[k].ns, run[k].scope, i);
  }
}
