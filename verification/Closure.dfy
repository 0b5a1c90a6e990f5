/** Closure conversion and lambda lifting: the conversion as a function of the term and the name
    counter, the converter object that computes it, and the simulation proof. */
module Closure {
  import opened Basics
  import opened Values
  import opened CirLang

  // ---- free-variable collection ----

  /** The free variables of `c`, normalized to the scope just inside the function's `start` binders,
      in traversal order and with repetitions. */
  function CollectFree(c: Cir, start: nat, depth: nat): (r: seq<nat>)
    requires start <= depth
    ensures forall e :: e in r ==> e >= start
    decreases c, 1
  {
    match c
    case Var(i) => if i >= depth then [i - (depth - start)] else []
    case EnvRef(_) => []
    case Global(_) => []
    case Erased => []
    case Lam(b) => CollectFree(b, start, depth + 1)
    case Fix(b) => CollectFree(b, start, depth + 1)
    case App(f, a) => CollectFree(f, start, depth) + CollectFree(a, start, depth)
    case CallClosure(f, a) => CollectFree(f, start, depth) + CollectFree(a, start, depth)
    case Let(v, b) => CollectFree(v, start, depth) + CollectFree(b, start, depth + 1)
    case Case(s, arms) => CollectFree(s, start, depth) + CollectFreeArms(arms, start, depth)
    case IfZero(s, t, e) =>
      CollectFree(s, start, depth) + CollectFree(t, start, depth) + CollectFree(e, start, depth)
    case MkClosure(_, caps) => CollectFreeSeq(caps, start, depth)
    case Prim(_, args) => CollectFreeSeq(args, start, depth)
  }

  function CollectFreeSeq(cs: seq<Cir>, start: nat, depth: nat): (r: seq<nat>)
    requires start <= depth
    ensures forall e :: e in r ==> e >= start
    decreases cs, 0
  {
    if cs == [] then []
    else CollectFreeSeq(cs[..|cs| - 1], start, depth) + CollectFree(cs[|cs| - 1], start, depth)
  }

  function CollectFreeArms(arms: seq<Arm>, start: nat, depth: nat): (r: seq<nat>)
    requires start <= depth
    ensures forall e :: e in r ==> e >= start
    decreases arms, 0
  {
    if arms == [] then []
    else
      var last := arms[|arms| - 1];
      CollectFreeArms(arms[..|arms| - 1], start, depth)
      + CollectFree(last.body, start, depth + last.binders)
  }

  predicate Ascending(s: seq<nat>) {
    forall i, j :: 0 <= i < j < |s| ==> s[i] < s[j]
  }

  /** Insert into an ascending list without repetitions. */
  function Insert(x: nat, s: seq<nat>): (r: seq<nat>)
    requires Ascending(s)
    ensures forall y :: y in r <==> y == x || y in s
    ensures Ascending(r)
  {
    if s == [] then [x]
    else if x < s[0] then [x] + s
    else if x == s[0] then s
    else
      var rest := Insert(x, s[1..]);
      assert forall y :: y in s[1..] ==> s[0] < y;
      assert forall k :: 0 <= k < |rest| ==> rest[k] in rest;
      [s[0]] + rest
  }

  /** What sorting and then removing neighbouring repetitions leaves. */
  function SortDedup(s: seq<nat>): (r: seq<nat>)
    ensures forall y :: y in r <==> y in s
    ensures Ascending(r)
  {
    if s == [] then [] else Insert(s[0], SortDedup(s[1..]))
  }

  function Position(s: seq<nat>, x: nat): (r: Option<nat>)
    ensures x in s <==> r.Some?
    ensures r.Some? ==> r.value < |s| && s[r.value] == x
  {
    if s == [] then None
    else if s[0] == x then Some(0)
    else match Position(s[1..], x) case None => None case Some(k) => Some(k + 1)
  }

  /** The captures of a function of `binders` binders, in environment order. */
  function FreeVars(body: Cir, binders: nat): (fvs: seq<nat>)
    ensures forall k :: 0 <= k < |fvs| ==> fvs[k] >= binders
    ensures Ascending(fvs)
  {
    var fvs := SortDedup(CollectFree(body, binders, binders));
    assert forall k :: 0 <= k < |fvs| ==> fvs[k] in fvs;
    fvs
  }

  lemma {:induction false} CollectFreeMeansFree(c: Cir, start: nat, depth: nat, e: nat)
    requires start <= depth
    ensures e in CollectFree(c, start, depth) <==> e >= start && Free(c, e + (depth - start))
    decreases c, 1
  {
    match c
    case Var(i) =>
    case EnvRef(_) =>
    case Global(_) =>
    case Erased =>
    case Lam(b) => CollectFreeMeansFree(b, start, depth + 1, e);
    case Fix(b) => CollectFreeMeansFree(b, start, depth + 1, e);
    case App(f, a) =>
      CollectFreeMeansFree(f, start, depth, e);
      CollectFreeMeansFree(a, start, depth, e);
    case CallClosure(f, a) =>
      CollectFreeMeansFree(f, start, depth, e);
      CollectFreeMeansFree(a, start, depth, e);
    case Let(v, b) =>
      CollectFreeMeansFree(v, start, depth, e);
      CollectFreeMeansFree(b, start, depth + 1, e);
    case Case(s, arms) =>
      CollectFreeMeansFree(s, start, depth, e);
      CollectFreeArmsMeansFree(arms, start, depth, e);
    case IfZero(s, t, el) =>
      CollectFreeMeansFree(s, start, depth, e);
      CollectFreeMeansFree(t, start, depth, e);
      CollectFreeMeansFree(el, start, depth, e);
    case MkClosure(_, caps) => CollectFreeSeqMeansFree(caps, start, depth, e);
    case Prim(_, args) => CollectFreeSeqMeansFree(args, start, depth, e);
  }

  lemma {:induction false} CollectFreeSeqMeansFree(cs: seq<Cir>, start: nat, depth: nat, e: nat)
    requires start <= depth
    ensures e in CollectFreeSeq(cs, start, depth)
       <==> e >= start && exists k :: 0 <= k < |cs| && Free(cs[k], e + (depth - start))
    decreases cs, 0
  {
    if cs != [] {
      var n := |cs| - 1;
      CollectFreeSeqMeansFree(cs[..n], start, depth, e);
      CollectFreeMeansFree(cs[n], start, depth, e);
      var i := e + (depth - start);
      assert forall k :: 0 <= k < n ==> Free(cs[..n][k], i) == Free(cs[k], i);
    }
  }

  lemma {:induction false} CollectFreeArmsMeansFree(arms: seq<Arm>, start: nat, depth: nat, e: nat)
    requires start <= depth
    ensures e in CollectFreeArms(arms, start, depth)
       <==> e >= start && exists k :: 0 <= k < |arms| && Free(arms[k].body, e + (depth - start) + arms[k].binders)
    decreases arms, 0
  {
    hide Free;
    if arms != [] {
      var n := |arms| - 1;
      CollectFreeArmsMeansFree(arms[..n], start, depth, e);
      CollectFreeMeansFree(arms[n].body, start, depth + arms[n].binders, e);
      var i := e + (depth - start);
      assert forall k :: 0 <= k < n ==> arms[..n][k] == arms[k];
      assert (exists k :: 0 <= k < |arms| && Free(arms[k].body, i + arms[k].binders))
        <==> (exists k :: 0 <= k < n && Free(arms[k].body, i + arms[k].binders)) || Free(arms[n].body, i + arms[n].binders);
    }
  }

  // ---- rebinding ----

  /** How a converted body is placed in its function: unchanged (the program entry), in a lifted
      lambda capturing `fvs`, or in a lifted recursive function, where entry index 1 is the function
      itself. `rebind` and `rebind_recursive` of the source are one traversal with two variable
      rules. */
  datatype View =
    | EntryView
    | LamView(fvs: seq<nat>)
    | RecView(fvs: seq<nat>, name: FName)

  /** The closure a recursive function rebuilds from its own environment. */
  function SelfClosure(name: FName, n: nat): Cir {
    MkClosure(name, seq(n, k requires 0 <= k < n => EnvRef(k)))
  }

  function RebindVar(view: View, i: nat, depth: nat): Cir {
    match view
    case EntryView => Var(i)
    case LamView(fvs) =>
      if i >= depth + 1 then
        (match Position(fvs, i - (depth + 1) + 1) case Some(k) => EnvRef(k) case None => Var(i))
      else Var(i)
    case RecView(fvs, name) =>
      if i < depth then Var(i)
      else if i - depth == 0 then Var(i)
      else if i - depth == 1 then SelfClosure(name, |fvs|)
      else (match Position(fvs, i - depth) case Some(k) => EnvRef(k) case None => Var(i))
  }

  /** Rewrite a converted body; `depth` counts the binders crossed since the body's root. */
  function Rebind(view: View, c: Cir, depth: nat): Cir {
    match c
    case Var(i) => RebindVar(view, i, depth)
    case EnvRef(_) => c
    case Global(_) => c
    case Erased => c
    case Lam(b) => Lam(Rebind(view, b, depth + 1))
    case Fix(b) => Fix(Rebind(view, b, depth + 1))
    case App(f, a) => App(Rebind(view, f, depth), Rebind(view, a, depth))
    case CallClosure(f, a) => CallClosure(Rebind(view, f, depth), Rebind(view, a, depth))
    case Let(v, b) => Let(Rebind(view, v, depth), Rebind(view, b, depth + 1))
    case Case(s, arms) =>
      Case(Rebind(view, s, depth),
           seq(|arms|, k requires 0 <= k < |arms| =>
             Arm(arms[k].con, arms[k].binders, Rebind(view, arms[k].body, depth + arms[k].binders))))
    case IfZero(s, t, e) => IfZero(Rebind(view, s, depth), Rebind(view, t, depth), Rebind(view, e, depth))
    case MkClosure(name, caps) =>
      MkClosure(name, seq(|caps|, k requires 0 <= k < |caps| => Rebind(view, caps[k], depth)))
    case Prim(op, args) =>
      Prim(op, seq(|args|, k requires 0 <= k < |args| => Rebind(view, args[k], depth)))
  }

  function RebindSeq(view: View, cs: seq<Cir>, depth: nat): (r: seq<Cir>)
    ensures |r| == |cs|
  {
    seq(|cs|, k requires 0 <= k < |cs| => Rebind(view, cs[k], depth))
  }

  // ---- conversion ----

  /** A converted term, the functions lifted on the way (in order), and the next counter value. */
  datatype Conv = Conv(term: Cir, funcs: seq<Func>, next: nat)
  datatype ConvSeq = ConvSeq(terms: seq<Cir>, funcs: seq<Func>, next: nat)
  datatype ConvArms = ConvArms(arms: seq<Arm>, funcs: seq<Func>, next: nat)

  /** The captured variables, as the enclosing scope numbers them. */
  function Captures(fvs: seq<nat>, binders: nat): seq<Cir>
    requires forall k :: 0 <= k < |fvs| ==> fvs[k] >= binders
  {
    seq(|fvs|, k requires 0 <= k < |fvs| => Var(fvs[k] - binders))
  }

  function Go(c: Cir, n: nat): Conv
    decreases c, 1
  {
    match c
    case Var(_) => Conv(c, [], n)
    case EnvRef(_) => Conv(c, [], n)
    case Global(_) => Conv(c, [], n)
    case Erased => Conv(c, [], n)
    case Lam(b) => Lift(b, false, "lam", n)
    case Fix(b) => if b.Lam? then LiftRec(b.body, n) else Lift(b, true, "fix", n)
    case App(f, a) =>
      var cf := Go(f, n);
      var ca := Go(a, cf.next);
      Conv(CallClosure(cf.term, ca.term), cf.funcs + ca.funcs, ca.next)
    case CallClosure(f, a) =>
      var cf := Go(f, n);
      var ca := Go(a, cf.next);
      Conv(CallClosure(cf.term, ca.term), cf.funcs + ca.funcs, ca.next)
    case Let(v, b) =>
      var cv := Go(v, n);
      var cb := Go(b, cv.next);
      Conv(Let(cv.term, cb.term), cv.funcs + cb.funcs, cb.next)
    case Case(s, arms) =>
      var cs := Go(s, n);
      var ca := GoArms(arms, cs.next);
      Conv(Case(cs.term, ca.arms), cs.funcs + ca.funcs, ca.next)
    case IfZero(s, t, e) =>
      var cs := Go(s, n);
      var ct := Go(t, cs.next);
      var ce := Go(e, ct.next);
      Conv(IfZero(cs.term, ct.term, ce.term), cs.funcs + ct.funcs + ce.funcs, ce.next)
    case MkClosure(name, caps) =>
      var cs := GoSeq(caps, n);
      Conv(MkClosure(name, cs.terms), cs.funcs, cs.next)
    case Prim(op, args) =>
      var cs := GoSeq(args, n);
      Conv(Prim(op, cs.terms), cs.funcs, cs.next)
  }

  /** Lift a one-binder body: nested functions first, then the name. */
  function Lift(b: Cir, recursive: bool, hint: string, n: nat): Conv
    decreases b, 2
  {
    var fvs := FreeVars(b, 1);
    var cb := Go(b, n);
    var name := FName(hint, cb.next);
    Conv(MkClosure(name, Captures(fvs, 1)),
         cb.funcs + [Func(name, recursive, Rebind(LamView(fvs), cb.term, 0))],
         cb.next + 1)
  }

  /** Lift a two-binder recursive body into one function: the name first, then nested functions. */
  function LiftRec(inner: Cir, n: nat): Conv
    decreases inner, 2
  {
    var fvs := FreeVars(inner, 2);
    var name := FName("rec", n);
    var cb := Go(inner, n + 1);
    Conv(MkClosure(name, Captures(fvs, 2)),
         cb.funcs + [Func(name, true, Rebind(RecView(fvs, name), cb.term, 0))],
         cb.next)
  }

  function GoSeq(cs: seq<Cir>, n: nat): (r: ConvSeq)
    ensures |r.terms| == |cs|
    decreases cs, 0
  {
    if cs == [] then ConvSeq([], [], n)
    else
      var front := GoSeq(cs[..|cs| - 1], n);
      var last := Go(cs[|cs| - 1], front.next);
      ConvSeq(front.terms + [last.term], front.funcs + last.funcs, last.next)
  }

  function GoArms(arms: seq<Arm>, n: nat): (r: ConvArms)
    ensures |r.arms| == |arms|
    decreases arms, 0
  {
    if arms == [] then ConvArms([], [], n)
    else
      var front := GoArms(arms[..|arms| - 1], n);
      var last := arms[|arms| - 1];
      var cb := Go(last.body, front.next);
      ConvArms(front.arms + [Arm(last.con, last.binders, cb.term)], front.funcs + cb.funcs, cb.next)
  }

  function Convert(entry: Cir): Program {
    var r := Go(entry, 0);
    Program(r.funcs, r.term)
  }
}
