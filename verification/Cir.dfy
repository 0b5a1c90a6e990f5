/** The backend IR before and after closure conversion, with an evaluator for each stage. */
module CirLang {
  import opened Basics
  import opened Values

  /** A lifted function's name: the hint and the counter value it was made from. A clone made by
      capture specialization records the function it copies. */
  datatype FName = FName(hint: string, id: nat) | Clone(base: FName, index: nat)

  datatype Arm = Arm(con: string, binders: nat, body: Cir)

  datatype Cir =
    | Var(i: nat)
    | EnvRef(k: nat)
    | Global(g: FName)
    | Erased
    | Lam(body: Cir)
    | Fix(body: Cir)
    | App(f: Cir, a: Cir)
    | CallClosure(f: Cir, a: Cir)
    | Let(v: Cir, b: Cir)
    | Case(scrut: Cir, arms: seq<Arm>)
    | IfZero(scrut: Cir, then_: Cir, else_: Cir)
    | MkClosure(name: FName, caps: seq<Cir>)
    | Prim(op: PrimOp, args: seq<Cir>)

  datatype Func = Func(name: FName, recursive: bool, body: Cir)

  datatype Program = Program(funcs: seq<Func>, entry: Cir)

  // ---- scopes ----

  /** Does the variable with de Bruijn index `i`, counted at the root of `c`, occur free in `c`? */
  ghost predicate Free(c: Cir, i: nat) {
    match c
    case Var(j) => i == j
    case EnvRef(_) => false
    case Global(_) => false
    case Erased => false
    case Lam(b) => Free(b, i + 1)
    case Fix(b) => Free(b, i + 1)
    case App(f, a) => Free(f, i) || Free(a, i)
    case CallClosure(f, a) => Free(f, i) || Free(a, i)
    case Let(v, b) => Free(v, i) || Free(b, i + 1)
    case Case(s, arms) =>
      Free(s, i) || exists k :: 0 <= k < |arms| && Free(arms[k].body, i + arms[k].binders)
    case IfZero(s, t, e) => Free(s, i) || Free(t, i) || Free(e, i)
    case MkClosure(_, caps) => exists k :: 0 <= k < |caps| && Free(caps[k], i)
    case Prim(_, args) => exists k :: 0 <= k < |args| && Free(args[k], i)
  }

  /** Terms as they are before closure conversion; a fixpoint is a recursive function. */
  predicate IsSource(c: Cir) {
    match c
    case Var(_) => true
    case EnvRef(_) => false
    case Global(_) => false
    case Erased => true
    case Lam(b) => IsSource(b)
    case Fix(b) => b.Lam? && IsSource(b.body)
    case App(f, a) => IsSource(f) && IsSource(a)
    case CallClosure(_, _) => false
    case Let(v, b) => IsSource(v) && IsSource(b)
    case Case(s, arms) => IsSource(s) && forall k :: 0 <= k < |arms| ==> IsSource(arms[k].body)
    case IfZero(s, t, e) => IsSource(s) && IsSource(t) && IsSource(e)
    case MkClosure(_, _) => false
    case Prim(_, args) => forall k :: 0 <= k < |args| ==> IsSource(args[k])
  }

  /** The arm that matches constructor `con`: the first one naming it. */
  function FindArm(arms: seq<Arm>, con: string): (r: Option<nat>)
    ensures r.Some? ==> r.value < |arms| && arms[r.value].con == con
  {
    if arms == [] then None
    else if arms[0].con == con then Some(0)
    else match FindArm(arms[1..], con) case None => None case Some(k) => Some(k + 1)
  }

  /** Arms are found by constructor name alone. */
  lemma {:induction false} SameArm(arms: seq<Arm>, others: seq<Arm>, con: string)
    requires |arms| == |others|
    requires forall k :: 0 <= k < |arms| ==> arms[k].con == others[k].con
    ensures FindArm(arms, con) == FindArm(others, con)
  {
    if arms != [] { SameArm(arms[1..], others[1..], con); }
  }

  // ---- source semantics: closures carry bodies ----

  datatype SCode = LamCode(body: Cir) | RecCode(inner: Cir)

  type SVal = Val<SCode>

  /** Evaluate a source term; index 0 of `env` is the innermost variable. Only calls use fuel. */
  function EvalS(c: Cir, env: seq<SVal>, fuel: nat): Outcome<SVal>
    decreases fuel, c, 1
  {
    match c
    case Var(i) => if i < |env| then Done(env[i]) else Stuck
    case EnvRef(_) => Stuck
    case Global(_) => Stuck
    case Erased => Done(Null)
    case Lam(b) => Done(Clo(LamCode(b), env))
    case Fix(b) => if b.Lam? then Done(Clo(RecCode(b.body), env)) else Stuck
    case App(f, a) =>
      var fv :- EvalS(f, env, fuel);
      var av :- EvalS(a, env, fuel);
      if !fv.Clo? then Stuck
      else if fuel == 0 then Timeout
      else (match fv.code
        case LamCode(b) => EvalS(b, [av] + fv.env, fuel - 1)
        case RecCode(inner) => EvalS(inner, [av, fv] + fv.env, fuel - 1))
    case CallClosure(_, _) => Stuck
    case Let(v, b) =>
      var x :- EvalS(v, env, fuel);
      EvalS(b, [x] + env, fuel)
    case Case(s, arms) =>
      var x :- EvalS(s, env, fuel);
      if !x.Con? then Stuck
      else (match FindArm(arms, x.con)
        case None => Stuck
        case Some(k) =>
          if arms[k].binders > |x.args| then Stuck
          else EvalS(arms[k].body, Reverse(x.args[..arms[k].binders]) + env, fuel))
    case IfZero(s, t, e) =>
      var x :- EvalS(s, env, fuel);
      if !IsInt(x) then Stuck
      else if x.lit.n == 0 then EvalS(t, env, fuel)
      else EvalS(e, env, fuel)
    case MkClosure(_, _) => Stuck
    case Prim(op, args) =>
      var xs :- EvalSSeq(args, env, fuel);
      EvalPrim(op, xs)
  }

  function EvalSSeq(cs: seq<Cir>, env: seq<SVal>, fuel: nat): (r: Outcome<seq<SVal>>)
    ensures r.Done? ==> |r.value| == |cs|
    decreases fuel, cs, 0
  {
    if cs == [] then Done([])
    else
      var xs :- EvalSSeq(cs[..|cs| - 1], env, fuel);
      var x :- EvalS(cs[|cs| - 1], env, fuel);
      Done(xs + [x])
  }

  // ---- target semantics: closures carry a function name and captures ----

  type TVal = Val<FName>

  /** The function of that name (the first one, as a lookup by name finds it). */
  function Lookup(funcs: seq<Func>, name: FName): (r: Option<Func>)
    ensures r.Some? ==> r.value in funcs && r.value.name == name
    ensures r.None? ==> forall f :: f in funcs ==> f.name != name
  {
    if funcs == [] then None
    else if funcs[0].name == name then Some(funcs[0])
    else Lookup(funcs[1..], name)
  }

  /** Evaluate a converted term with locals `env` (innermost first) and captured values `caps`. */
  function EvalT(funcs: seq<Func>, c: Cir, env: seq<TVal>, caps: seq<TVal>, fuel: nat): Outcome<TVal>
    decreases fuel, c, 1
  {
    match c
    case Var(i) => if i < |env| then Done(env[i]) else Stuck
    case EnvRef(k) => if k < |caps| then Done(caps[k]) else Stuck
    case Global(g) => Done(Clo(g, []))
    case Erased => Done(Null)
    case Lam(_) => Stuck
    case Fix(_) => Stuck
    case App(_, _) => Stuck
    case CallClosure(f, a) =>
      var fv :- EvalT(funcs, f, env, caps, fuel);
      var av :- EvalT(funcs, a, env, caps, fuel);
      if !fv.Clo? then Stuck
      else if fuel == 0 then Timeout
      else (match Lookup(funcs, fv.code)
        case None => Stuck
        case Some(g) => EvalT(funcs, g.body, [av], fv.env, fuel - 1))
    case Let(v, b) =>
      var x :- EvalT(funcs, v, env, caps, fuel);
      EvalT(funcs, b, [x] + env, caps, fuel)
    case Case(s, arms) =>
      var x :- EvalT(funcs, s, env, caps, fuel);
      if !x.Con? then Stuck
      else (match FindArm(arms, x.con)
        case None => Stuck
        case Some(k) =>
          if arms[k].binders > |x.args| then Stuck
          else EvalT(funcs, arms[k].body, Reverse(x.args[..arms[k].binders]) + env, caps, fuel))
    case IfZero(s, t, e) =>
      var x :- EvalT(funcs, s, env, caps, fuel);
      if !IsInt(x) then Stuck
      else if x.lit.n == 0 then EvalT(funcs, t, env, caps, fuel)
      else EvalT(funcs, e, env, caps, fuel)
    case MkClosure(name, cs) =>
      var xs :- EvalTSeq(funcs, cs, env, caps, fuel);
      Done(Clo(name, xs))
    case Prim(op, args) =>
      var xs :- EvalTSeq(funcs, args, env, caps, fuel);
      EvalPrim(op, xs)
  }

  function EvalTSeq(funcs: seq<Func>, cs: seq<Cir>, env: seq<TVal>, caps: seq<TVal>, fuel: nat)
    : (r: Outcome<seq<TVal>>)
    ensures r.Done? ==> |r.value| == |cs|
    decreases fuel, cs, 0
  {
    if cs == [] then Done([])
    else
      var xs :- EvalTSeq(funcs, cs[..|cs| - 1], env, caps, fuel);
      var x :- EvalT(funcs, cs[|cs| - 1], env, caps, fuel);
      Done(xs + [x])
  }
}
