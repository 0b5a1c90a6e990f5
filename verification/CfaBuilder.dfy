/** The analyzer object: one traversal of the program fills its node counter, environment slots,
    constraints, sites and recorded heads. */
module CfaBuilder {
  import opened Basics
  import opened Values
  import opened CirLang
  import opened AnfLang
  import opened Cfa
  import CfaGrows
  import CfaSolve

  class Analyzer {
    var nNodes: nat
    const param: seq<Node>
    const ret: seq<Node>
    const entryRet: Node
    const openNode: Node
    const funcIndex: map<FName, nat>
    var envSlot: map<(nat, nat), Node>
    var fields: map<Node, seq<Node>>
    var cloFields: map<Node, CloSite>
    var cstrs: seq<Cstr>
    var callHeads: seq<Node>

    /** What the object has gathered so far. */
    function State(): Flow
      reads this
    {
      Flow(nNodes, param, ret, entryRet, openNode, funcIndex, envSlot, fields, cloFields, cstrs, callHeads)
    }

    constructor (funcs: seq<AnfFunc>)
      ensures State() == Start(funcs)
    {
      var k := |funcs|;
      nNodes := 2 * k + 2;
      param := seq(k, i requires 0 <= i < k => i);
      ret := seq(k, i requires 0 <= i < k => k + i);
      entryRet, openNode := 2 * k, 2 * k + 1;
      funcIndex := IndexOf(funcs);
      envSlot, fields, cloFields := map[], map[], map[];
      cstrs, callHeads := [Open(2 * k + 1)], [];
    }

    method Fresh() returns (n: Node)
      modifies this`nNodes
      ensures n == old(nNodes) && State() == old(State()).Fresh()
    {
      n := nNodes;
      nNodes := nNodes + 1;
    }

    method Emit(c: Cstr)
      modifies this`cstrs
      ensures State() == old(State()).Emit(c)
    {
      cstrs := cstrs + [c];
    }

    method EnvSlotNode(func: nat, slot: nat) returns (n: Node)
      modifies this
      ensures (State(), n) == EnvSlot(old(State()), func, slot)
    {
      if (func, slot) in envSlot {
        n := envSlot[(func, slot)];
      } else {
        n := Fresh();
        envSlot := envSlot[(func, slot) := n];
      }
    }

    method AtomNode(a: Atom, scope: seq<Node>, cur: Option<nat>) returns (n: Node)
      modifies this
      ensures (State(), n) == Cfa.AtomNode(old(State()), a, scope, cur)
    {
      match a {
        case Var(i) => n := if i < |scope| then scope[i] else openNode;
        case EnvRef(k) =>
          if cur.Some? {
            n := EnvSlotNode(cur.value, k);
          } else {
            n := openNode;
          }
        case Global(_) => n := openNode;
        case Erased => n := openNode;
      }
    }

    method AtomNodes(atoms: seq<Atom>, scope: seq<Node>, cur: Option<nat>) returns (ns: seq<Node>)
      modifies this
      ensures (State(), ns) == Cfa.AtomNodes(old(State()), atoms, scope, cur)
    {
      hide Cfa.AtomNode;
      ns := [];
      for i := 0 to |atoms|
        invariant (State(), ns) == Cfa.AtomNodes(old(State()), atoms[..i], scope, cur)
      {
        var n := AtomNode(atoms[i], scope, cur);
        ns := ns + [n];
        assert atoms[..i + 1][..i] == atoms[..i];
      }
      assert atoms[..|atoms|] == atoms;
    }

    method Captures(func: nat, caps: seq<Atom>, scope: seq<Node>, cur: Option<nat>) returns (ns: seq<Node>)
      modifies this
      ensures (State(), ns) == Cfa.Captures(old(State()), func, caps, scope, cur)
    {
      hide Cfa.AtomNode, EnvSlot;
      ns := [];
      for i := 0 to |caps|
        invariant (State(), ns) == Cfa.Captures(old(State()), func, caps[..i], scope, cur)
      {
        var from := AtomNode(caps[i], scope, cur);
        var to := EnvSlotNode(func, i);
        Emit(Copy(to, from));
        ns := ns + [from];
        assert caps[..i + 1][..i] == caps[..i];
      }
      assert caps[..|caps|] == caps;
    }

    method Escapes(atoms: seq<Atom>, scope: seq<Node>, cur: Option<nat>)
      modifies this
      ensures State() == Cfa.Escapes(old(State()), atoms, scope, cur)
    {
      hide Cfa.AtomNode;
      for i := 0 to |atoms|
        invariant State() == Cfa.Escapes(old(State()), atoms[..i], scope, cur)
      {
        var n := AtomNode(atoms[i], scope, cur);
        Emit(Escape(n));
        assert atoms[..i + 1][..i] == atoms[..i];
      }
      assert atoms[..|atoms|] == atoms;
    }

    /** The constraints of a computation bound to `node`. */
    method Comp(c: AnfLang.Comp, node: Node, scope: seq<Node>, cur: Option<nat>)
      modifies this
      ensures State() == GenComp(old(State()), c, node, scope, cur)
    {
      hide Cfa.AtomNode, Cfa.Captures, Cfa.Escapes, GenGlobal, GenPrim;
      match c {
        case Use(a) =>
          var from := AtomNode(a, scope, cur);
          Emit(Copy(node, from));
        case MkClosure(name, caps) =>
          Emit(Closure(node, name));
          Emit(NotLit(node));
          if name in funcIndex {
            var capNodes := Captures(funcIndex[name], caps, scope, cur);
            cloFields := cloFields[node := CloSite(name, capNodes)];
            Emit(ClosureSite(node));
          } else {
            Escapes(caps, scope, cur);
          }
        case Call(f, a) =>
          var head := AtomNode(f, scope, cur);
          var arg := AtomNode(a, scope, cur);
          Emit(Cstr.Call(node, head, arg));
          callHeads := callHeads + [head];
        case CallGlobal(name, a) => Global(name, a, node, scope, cur);
        case CallKnown(_, _, _) =>
        case Prim(op, args) => Primitive(op, args, node, scope, cur);
      }
    }

    method Global(name: FName, a: Atom, res: Node, scope: seq<Node>, cur: Option<nat>)
      modifies this
      ensures State() == GenGlobal(old(State()), name, a, res, scope, cur)
    {
      hide Cfa.AtomNode;
      var arg := AtomNode(a, scope, cur);
      if name in funcIndex {
        Emit(GlobalCall(res, funcIndex[name], arg));
      } else {
        Emit(Open(res));
        Emit(Escape(arg));
      }
    }

    method Primitive(op: PrimOp, args: seq<Atom>, node: Node, scope: seq<Node>, cur: Option<nat>)
      modifies this
      ensures State() == GenPrim(old(State()), op, args, node, scope, cur)
    {
      hide Cfa.AtomNode, Cfa.AtomNodes, Cfa.Escapes;
      match op {
        case TupleOp =>
          Emit(Site(node));
          Emit(NotLit(node));
          var fieldNodes := AtomNodes(args, scope, cur);
          fields := fields[node := fieldNodes];
        case ProjOp(i) =>
          if |args| != 1 {
            Emit(NotLit(node));
          } else {
            var tup := AtomNode(args[0], scope, cur);
            Emit(Cstr.Proj(node, tup, i));
          }
        case ConOp(_) =>
          if args == [] {
            Emit(Literal(node, AnfLang.Comp.Prim(op, args)));
          } else {
            Emit(NotLit(node));
            Escapes(args, scope, cur);
          }
        case LitOp(_) => Emit(Literal(node, AnfLang.Comp.Prim(op, [])));
        case IntOp(_) => Emit(NotLit(node));
      }
    }

    method Binders(m: nat) returns (ns: seq<Node>)
      modifies this
      ensures (State(), ns) == Cfa.Binders(old(State()), m)
    {
      ns := [];
      for i := 0 to m
        invariant (State(), ns) == Cfa.Binders(old(State()), i)
      {
        var b := Fresh();
        Emit(Open(b));
        ns := [b] + ns;
      }
    }

    /** The constraints of a tail of function `cur`. */
    method Tail(t: AnfLang.Tail, scope: seq<Node>, cur: Option<nat>)
      modifies this
      ensures State() == GenTail(old(State()), t, scope, cur)
      decreases t, 1
    {
      hide Cfa.AtomNode, GenComp, GenGlobal;
      var res := State().RetNode(cur);
      match t {
        case Ret(a) =>
          var from := AtomNode(a, scope, cur);
          Emit(Copy(res, from));
        case Let(c, rest) =>
          var node := Fresh();
          Comp(c, node, scope, cur);
          Tail(rest, [node] + scope, cur);
        case TailCall(f, a) =>
          var head := AtomNode(f, scope, cur);
          var arg := AtomNode(a, scope, cur);
          Emit(Cstr.Call(res, head, arg));
          callHeads := callHeads + [head];
        case TailCallGlobal(name, a) => Global(name, a, res, scope, cur);
        case TailCallKnown(_, _, _) =>
        case Jump(a) =>
          var from := AtomNode(a, scope, cur);
          if cur.Some? && cur.value < |param| {
            Emit(Copy(param[cur.value], from));
          }
        case Case(_, arms) => Arms(arms, scope, cur);
        case IfZero(_, a, b) =>
          Tail(a, scope, cur);
          Tail(b, scope, cur);
      }
    }

    method Arms(arms: seq<TailArm>, scope: seq<Node>, cur: Option<nat>)
      modifies this
      ensures State() == GenArms(old(State()), arms, scope, cur)
      decreases arms, 0
    {
      for i := 0 to |arms|
        invariant State() == GenArms(old(State()), arms[..i], scope, cur)
      {
        var bs := Binders(arms[i].binders);
        Tail(arms[i].body, bs + scope, cur);
        assert arms[..i + 1][..i] == arms[..i];
      }
      assert arms[..|arms|] == arms;
    }
  }

  /** Build the graph of a program and solve it. */
  method Analyze(p: AnfProgram) returns (f: Flow, sol: Solution)
    ensures f == Build(p) && Solves(f, sol) && forall other :: Solves(f, other) ==> LeqSol(sol, other)
  {
    hide GenTail, CfaGrows.Wf, Sat;
    var a := new Analyzer(p.funcs);
    for i := 0 to |p.funcs|
      invariant a.State() == GenFuncs(Start(p.funcs), p.funcs, i)
    {
      var scope := if i < |a.param| then [a.param[i]] else [];
      a.Tail(p.funcs[i].body, scope, Some(i));
    }
    a.Tail(p.entry, [], None);
    f := a.State();
    CfaGrows.BuildGrows(p);
    sol := CfaSolve.SolveFlow(f);
  }
}
