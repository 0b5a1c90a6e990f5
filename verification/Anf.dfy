/** A-normal form: atoms, computations and tails, with their evaluator. */
module AnfLang {
  import opened Basics
  import opened Values
  import opened CirLang

  datatype Atom = Var(i: nat) | EnvRef(k: nat) | Global(g: FName) | Erased

  /** The right-hand side of a `let`. `Use` is a computation that is just an atom. */
  datatype Comp =
    | Use(a: Atom)
    | MkClosure(name: FName, caps: seq<Atom>)
    | Call(f: Atom, arg: Atom)
    | CallGlobal(name: FName, arg: Atom)
    | CallKnown(name: FName, env: Atom, arg: Atom)
    | Prim(op: PrimOp, args: seq<Atom>)

  datatype TailArm = TailArm(con: string, binders: nat, body: Tail)

  datatype Tail =
    | Ret(a: Atom)
    | Let(comp: Comp, rest: Tail)
    | TailCall(f: Atom, arg: Atom)
    | Jump(arg: Atom)
    | TailCallGlobal(name: FName, arg: Atom)
    | TailCallKnown(name: FName, env: Atom, arg: Atom)
    | Case(scrut: Atom, arms: seq<TailArm>)
    | IfZero(scrut: Atom, then_: Tail, else_: Tail)

  datatype AnfFunc = AnfFunc(name: FName, recursive: bool, body: Tail)

  datatype AnfProgram = AnfProgram(funcs: seq<AnfFunc>, entry: Tail)

  function FindTailArm(arms: seq<TailArm>, con: string): (r: Option<nat>)
    ensures r.Some? ==> r.value < |arms| && arms[r.value].con == con
  {
    if arms == [] then None
    else if arms[0].con == con then Some(0)
    else match FindTailArm(arms[1..], con) case None => None case Some(k) => Some(k + 1)
  }

  /** Arms are found by constructor name alone. */
  lemma {:induction false} SameTailArm(arms: seq<TailArm>, others: seq<TailArm>, con: string)
    requires |arms| == |others|
    requires forall k :: 0 <= k < |arms| ==> arms[k].con == others[k].con
    ensures FindTailArm(arms, con) == FindTailArm(others, con)
  {
    if arms != [] { SameTailArm(arms[1..], others[1..], con); }
  }

  function LookupAnf(funcs: seq<AnfFunc>, name: FName): (r: Option<AnfFunc>)
    ensures r.Some? ==> r.value in funcs && r.value.name == name
    ensures r.None? ==> forall f :: f in funcs ==> f.name != name
  {
    if funcs == [] then None
    else if funcs[0].name == name then Some(funcs[0])
    else LookupAnf(funcs[1..], name)
  }

  function EvalAtom(a: Atom, scope: seq<TVal>, caps: seq<TVal>): (r: Outcome<TVal>)
    ensures !r.Timeout?
  {
    match a
    case Var(i) => if i < |scope| then Done(scope[i]) else Stuck
    case EnvRef(k) => if k < |caps| then Done(caps[k]) else Stuck
    case Global(g) => Done(Clo(g, []))
    case Erased => Done(Null)
  }

  function EvalAtoms(atoms: seq<Atom>, scope: seq<TVal>, caps: seq<TVal>): (r: Outcome<seq<TVal>>)
    ensures r.Done? ==> |r.value| == |atoms|
  {
    if atoms == [] then Done([])
    else
      var xs :- EvalAtoms(atoms[..|atoms| - 1], scope, caps);
      var x :- EvalAtom(atoms[|atoms| - 1], scope, caps);
      Done(xs + [x])
  }

  /** The captures a directly called function reads through its environment argument: those of the
      closure object it is given; any other object carries none. */
  function EnvOf(v: TVal): seq<TVal> {
    if v.Clo? then v.env else []
  }

  /** Enter function `name` with environment `caps`. */
  function Enter(funcs: seq<AnfFunc>, name: FName, caps: seq<TVal>, arg: TVal, fuel: nat): Outcome<TVal>
    decreases fuel, 0, 0
  {
    if fuel == 0 then Timeout
    else
      match LookupAnf(funcs, name)
      case None => Stuck
      case Some(g) => EvalTail(funcs, g.body, [arg], caps, Some(name), fuel - 1)
  }

  function Apply(funcs: seq<AnfFunc>, f: TVal, arg: TVal, fuel: nat): Outcome<TVal>
    decreases fuel, 0, 1
  {
    if !f.Clo? then Stuck else Enter(funcs, f.code, f.env, arg, fuel)
  }

  function EvalComp(funcs: seq<AnfFunc>, c: Comp, scope: seq<TVal>, caps: seq<TVal>, fuel: nat): Outcome<TVal>
    decreases fuel, 1
  {
    match c
    case Use(a) => EvalAtom(a, scope, caps)
    case MkClosure(name, atoms) =>
      var xs :- EvalAtoms(atoms, scope, caps);
      Done(Clo(name, xs))
    case Call(f, a) =>
      var fv :- EvalAtom(f, scope, caps);
      var av :- EvalAtom(a, scope, caps);
      Apply(funcs, fv, av, fuel)
    case CallGlobal(name, a) =>
      var av :- EvalAtom(a, scope, caps);
      Enter(funcs, name, [], av, fuel)
    case CallKnown(name, e, a) =>
      var ev :- EvalAtom(e, scope, caps);
      var av :- EvalAtom(a, scope, caps);
      Enter(funcs, name, EnvOf(ev), av, fuel)
    case Prim(op, args) =>
      var xs :- EvalAtoms(args, scope, caps);
      EvalPrim(op, xs)
  }

  /** Evaluate a tail; `cur` is the function whose body this is, the target of a jump, which keeps
      the current environment. */
  function EvalTail(funcs: seq<AnfFunc>, t: Tail, scope: seq<TVal>, caps: seq<TVal>, cur: Option<FName>, fuel: nat)
    : Outcome<TVal>
    decreases fuel, 2, t
  {
    match t
    case Ret(a) => EvalAtom(a, scope, caps)
    case Let(c, rest) =>
      var v :- EvalComp(funcs, c, scope, caps, fuel);
      EvalTail(funcs, rest, [v] + scope, caps, cur, fuel)
    case TailCall(f, a) =>
      var fv :- EvalAtom(f, scope, caps);
      var av :- EvalAtom(a, scope, caps);
      Apply(funcs, fv, av, fuel)
    case Jump(a) =>
      var av :- EvalAtom(a, scope, caps);
      if cur.None? then Stuck else Enter(funcs, cur.value, caps, av, fuel)
    case TailCallGlobal(name, a) =>
      var av :- EvalAtom(a, scope, caps);
      Enter(funcs, name, [], av, fuel)
    case TailCallKnown(name, e, a) =>
      var ev :- EvalAtom(e, scope, caps);
      var av :- EvalAtom(a, scope, caps);
      Enter(funcs, name, EnvOf(ev), av, fuel)
    case Case(s, arms) =>
      var x :- EvalAtom(s, scope, caps);
      if !x.Con? then Stuck
      else (match FindTailArm(arms, x.con)
        case None => Stuck
        case Some(k) =>
          if arms[k].binders > |x.args| then Stuck
          else EvalTail(funcs, arms[k].body, Reverse(x.args[..arms[k].binders]) + scope, caps, cur, fuel))
    case IfZero(s, t, e) =>
      var x :- EvalAtom(s, scope, caps);
      if !IsInt(x) then Stuck
      else if x.lit.n == 0 then EvalTail(funcs, t, scope, caps, cur, fuel)
      else EvalTail(funcs, e, scope, caps, cur, fuel)
  }

  function RunProgram(p: AnfProgram, fuel: nat): Outcome<TVal> {
    EvalTail(p.funcs, p.entry, [], [], None, fuel)
  }
}
