/** The flow graph of a specialized program maps, node by node, into the graph of the program it was made
    from: a clone's nodes to those of the function it copies. So specialization makes no value escape. */
module CloneFlow {
  import opened Basics
  import opened Values
  import opened CirLang
  import opened AnfLang
  import opened Cfa
  import opened CfaGrows
  import opened CfaSound
  import opened Rewrite
  import opened Specialize
  import CfaRuns
  import Capspec

  type Nodes = map<Node, Node>

  /** A program with a solution, and what specialization made of it. */
  datatype Cloning = Cloning(
    p: AnfProgram, sol: Solution, clean: set<Node>, d: Decisions, clones: seq<AnfFunc>, keys: seq<Capspec.Key>)

  /** A node with a closure site holds that site's function. */
  ghost predicate SitesNamed(f: Flow, sol: Solution) {
    forall n: Node, s :: s in At(sol, n).cloSites && s in f.cloFields ==> f.cloFields[s].name in At(sol, n).fns
  }

  ghost predicate Ready(x: Cloning) {
    var f := Build(x.p);
    && PlainProgram(x.p) && Solves(f, x.sol) && NothingEscapes(f, x.clean) && SitesNamed(f, x.sol)
    && Capspec.NoClones(x.p) && Capspec.EnvFits(x.p) && Capspec.CloneTable(x.p, x.clones, x.keys)
    && Capspec.DecisionsOf(x.p, f, x.sol, x.clones, x.keys, x.d) && Capspec.KeysUsed(x.p, f, x.sol, x.keys)
    && |x.d| == ProgramApplies(x.p)
    && (forall n: Node :: At(x.sol, n).lit.Just? ==> IsLiteral(At(x.sol, n).lit.lit))
    && (forall n: Node :: At(x.sol, n).fns <= f.index.Keys)
  }

  // ---- mapped constraints ----

  function To(m: Nodes, n: Node): Node {
    if n in m then m[n] else 0
  }

  /** The function a clone copies. */
  function KeyIndex(x: Cloning, j: nat): nat {
    if j < |x.keys| && x.keys[j].0 in Build(x.p).index then Build(x.p).index[x.keys[j].0] else 0
  }

  /** The function a function of the specialized program comes from. */
  function Callee(x: Cloning, i: nat): nat {
    if i < |x.p.funcs| then i else KeyIndex(x, i - |x.p.funcs|)
  }

  function Image(x: Cloning, m: Nodes, c: Cstr): Cstr {
    match c
    case Copy(to, from) => Copy(To(m, to), To(m, from))
    case Closure(node, name) => Closure(To(m, node), name)
    case Site(node) => Site(To(m, node))
    case ClosureSite(node) => ClosureSite(To(m, node))
    case Open(node) => Open(To(m, node))
    case Literal(node, lit) => Literal(To(m, node), lit)
    case NotLit(node) => NotLit(To(m, node))
    case Proj(to, tup, idx) => Proj(To(m, to), To(m, tup), idx)
    case Call(res, head, arg) => Cstr.Call(To(m, res), To(m, head), To(m, arg))
    case GlobalCall(res, callee, arg) => GlobalCall(To(m, res), Callee(x, callee), To(m, arg))
    case Escape(node) => Escape(To(m, node))
  }

  predicate CstrKnown(m: Nodes, c: Cstr) {
    match c
    case Copy(to, from) => to in m && from in m
    case Closure(node, _) => node in m
    case Site(node) => node in m
    case ClosureSite(node) => node in m
    case Open(node) => node in m
    case Literal(node, _) => node in m
    case NotLit(node) => node in m
    case Proj(to, tup, _) => to in m && tup in m
    case Call(res, head, arg) => res in m && head in m && arg in m
    case GlobalCall(res, _, arg) => res in m && arg in m
    case Escape(node) => node in m
  }

  /** The constraint holds of the nodes it maps to, and what escapes there is clean. */
  ghost predicate CstrMaps(x: Cloning, m: Nodes, c: Cstr) {
    CstrKnown(m, c) && Sat(Build(x.p), x.sol, Image(x, m, c)) && (c.Escape? ==> To(m, c.node) in x.clean)
  }

  lemma CstrMapsMore(x: Cloning, m: Nodes, m': Nodes, c: Cstr)
    requires CstrMaps(x, m, c) && SubMap(m, m')
    ensures CstrMaps(x, m', c)
  {
    hide Sat, Build;
    assert Image(x, m, c) == Image(x, m', c);
  }

  // ---- mapped graphs ----

  predicate Maps(m: Nodes, n': Node, n: Node) {
    n' in m && m[n'] == n
  }

  predicate SeqMaps(m: Nodes, ns': seq<Node>, ns: seq<Node>) {
    |ns'| == |ns| && forall k :: 0 <= k < |ns| ==> Maps(m, ns'[k], ns[k])
  }

  predicate SlotMaps(f: Flow, m: Nodes, func: nat, k: nat, n': Node) {
    (func, k) in f.envSlot && Maps(m, n', f.envSlot[(func, k)])
  }

  predicate FieldsMap(f: Flow, m: Nodes, s: Node, ns: seq<Node>) {
    s in m && m[s] in f.fields && SeqMaps(m, ns, f.fields[m[s]])
  }

  /** Parameters, returns and names of the specialized program. */
  ghost predicate BaseMaps(x: Cloning, g: Flow, m: Nodes) {
    var f := Build(x.p);
    && |g.param| == |g.ret| == |x.p.funcs| + |x.clones|
    && (forall i :: 0 <= i < |g.param| ==> Callee(x, i) < |f.param| && Maps(m, g.param[i], f.param[Callee(x, i)]))
    && (forall i :: 0 <= i < |g.ret| ==> Callee(x, i) < |f.ret| && Maps(m, g.ret[i], f.ret[Callee(x, i)]))
    && Maps(m, g.entryRet, f.entryRet) && Maps(m, g.openNode, f.openNode)
    && (forall l :: l in f.index ==> l in g.index && g.index[l] == f.index[l] && f.index[l] < |x.p.funcs|)
    && forall j :: 0 <= j < |x.clones| ==> x.clones[j].name in g.index && g.index[x.clones[j].name] == |x.p.funcs| + j
  }

  ghost predicate FlowMaps(x: Cloning, g: Flow, m: Nodes) {
    && (forall n: Node :: n in m <==> n < g.n) && BaseMaps(x, g, m)
    && (forall k :: k in g.envSlot ==> SlotMaps(Build(x.p), m, k.0, k.1, g.envSlot[k]))
    && (forall s :: s in g.fields ==> FieldsMap(Build(x.p), m, s, g.fields[s]))
    && (forall c :: c in g.cstrs ==> CstrMaps(x, m, c))
  }

  lemma SeqMapsMore(m: Nodes, m': Nodes, ns': seq<Node>, ns: seq<Node>)
    requires SeqMaps(m, ns', ns) && SubMap(m, m')
    ensures SeqMaps(m', ns', ns)
  {
    forall k | 0 <= k < |ns| ensures Maps(m', ns'[k], ns[k]) { assert Maps(m, ns'[k], ns[k]); }
  }

  lemma BaseMapsMore(x: Cloning, g: Flow, m: Nodes, m': Nodes)
    requires BaseMaps(x, g, m) && SubMap(m, m')
    ensures BaseMaps(x, g, m')
  {
    hide Build, Callee;
  }

  /** A new node stands for any node. */
  lemma FreshMaps(x: Cloning, g: Flow, m: Nodes, n: Node) returns (m': Nodes)
    requires FlowMaps(x, g, m)
    ensures m' == m[g.n := n] && SubMap(m, m') && FlowMaps(x, g.Fresh(), m')
  {
    hide Build, CstrMaps, BaseMaps, SeqMaps;
    m' := m[g.n := n];
    assert SubMap(m, m');
    BaseMapsMore(x, g, m, m');
    assert BaseMaps(x, g.Fresh(), m') by { BaseSame(x, g, g.Fresh(), m'); }
    forall c | c in g.cstrs ensures CstrMaps(x, m', c) { CstrMapsMore(x, m, m', c); }
    forall s | s in g.fields ensures FieldsMap(Build(x.p), m', s, g.fields[s]) {
      SeqMapsMore(m, m', g.fields[s], Build(x.p).fields[m[s]]);
    }
  }

  lemma BaseSame(x: Cloning, g: Flow, h: Flow, m: Nodes)
    requires BaseMaps(x, g, m) && h.param == g.param && h.ret == g.ret && h.entryRet == g.entryRet
    requires h.openNode == g.openNode && h.index == g.index
    ensures BaseMaps(x, h, m)
  {
    hide Build, Callee;
  }

  lemma EmitMaps(x: Cloning, g: Flow, m: Nodes, c: Cstr)
    requires FlowMaps(x, g, m) && CstrMaps(x, m, c)
    ensures FlowMaps(x, g.Emit(c), m)
  {
    hide Build, CstrMaps, BaseMaps, FieldsMap, SlotMaps;
    BaseSame(x, g, g.Emit(c), m);
  }

  /** Heads and closure sites are not looked at. */
  lemma SidesMap(x: Cloning, g: Flow, h: Flow, m: Nodes)
    requires FlowMaps(x, g, m) && h == g.(heads := h.heads, cloFields := h.cloFields)
    ensures FlowMaps(x, h, m)
  {
    hide Build, CstrMaps, BaseMaps, FieldsMap, SlotMaps;
    BaseSame(x, g, h, m);
  }

  lemma NewFieldsMap(x: Cloning, g: Flow, m: Nodes, s: Node, ns: seq<Node>)
    requires FlowMaps(x, g, m) && FieldsMap(Build(x.p), m, s, ns)
    ensures FlowMaps(x, g.(fields := g.fields[s := ns]), m)
  {
    hide Build, CstrMaps, BaseMaps, FieldsMap, SlotMaps;
    BaseSame(x, g, g.(fields := g.fields[s := ns]), m);
  }

  lemma SlotMapped(x: Cloning, g: Flow, m: Nodes, func: nat, k: nat) returns (m': Nodes)
    requires FlowMaps(x, g, m) && (func, k) in Build(x.p).envSlot
    ensures var r := EnvSlot(g, func, k);
      SubMap(m, m') && FlowMaps(x, r.0, m') && SlotMaps(Build(x.p), m', func, k, r.1)
  {
    hide Build, CstrMaps, BaseMaps, FieldsMap;
    m' := m;
    if (func, k) !in g.envSlot {
      m' := FreshMaps(x, g, m, Build(x.p).envSlot[(func, k)]);
      var h := g.Fresh();
      BaseSame(x, h, h.(envSlot := g.envSlot[(func, k) := g.n]), m');
    }
  }

  // ---- places ----

  /** A body of the original program, or a clone's, `depth` binders inside, with `size` literals bound in
      front. */
  datatype View = Original | InClone(depth: nat, size: nat)

  function Deeper(v: View, n: nat): View {
    match v
    case Original => Original
    case InClone(depth, size) => InClone(depth + n, size)
  }

  function ViewAtom(v: View, a: Atom): Atom {
    if v.Original? then a else Specialize.ShiftAtom(a, v.depth, v.size)
  }

  function ViewAtoms(v: View, atoms: seq<Atom>): (r: seq<Atom>)
    ensures |r| == |atoms|
  {
    if v.Original? then atoms else Specialize.ShiftAtoms(atoms, v.depth, v.size)
  }

  function ViewComp(v: View, c: Comp): Comp {
    if v.Original? then c else ShiftComp(c, v.depth, v.size)
  }

  predicate ViewBelow(v: View, a: Atom) {
    v.InClone? ==> AtomBelow(a, v.size)
  }

  /** A literal of a clone stands for the environment slot it replaces. */
  predicate LitMaps(f: Flow, m: Nodes, func: nat, ns': seq<Node>, depth: nat, size: nat, k: nat) {
    k < size && depth + size <= |ns'| && SlotMaps(f, m, func, k, ns'[depth + size - 1 - k])
  }

  predicate OuterMaps(m: Nodes, ns': seq<Node>, ns: seq<Node>, size: nat, i: nat) {
    i < |ns| && i + size < |ns'| && Maps(m, ns'[i + size], ns[i])
  }

  ghost predicate ScopeMaps(x: Cloning, v: View, m: Nodes, ns': seq<Node>, ns: seq<Node>, cur: Option<nat>) {
    match v
    case Original => SeqMaps(m, ns', ns)
    case InClone(depth, size) =>
      && cur.Some? && depth <= |ns| && |ns'| == |ns| + size
      && (forall i :: 0 <= i < depth ==> Maps(m, ns'[i], ns[i]))
      && (forall i :: depth <= i < |ns| ==> OuterMaps(m, ns', ns, size, i))
      && (forall k :: 0 <= k < size ==> LitMaps(Build(x.p), m, cur.value, ns', depth, size, k))
  }

  predicate CurMaps(x: Cloning, v: View, cur': Option<nat>, cur: Option<nat>) {
    if v.Original? then cur' == cur && (cur.Some? ==> cur.value < |x.p.funcs|)
    else cur'.Some? && cur.Some? && |x.p.funcs| <= cur'.value < |x.p.funcs| + |x.clones| && cur.value == Callee(x, cur'.value)
  }

  /** The two analyses at corresponding points. */
  ghost predicate Spot(
    x: Cloning, v: View, g: Flow, m: Nodes, ns': seq<Node>, cur': Option<nat>, f: Flow, ns: seq<Node>, cur: Option<nat>)
  {
    && FlowMaps(x, g, m) && ScopeMaps(x, v, m, ns', ns, cur) && CurMaps(x, v, cur', cur)
    && Wf(f) && Place(f, ns, cur) && f.index == Build(x.p).index
  }

  lemma ScopeMapsMore(x: Cloning, v: View, m: Nodes, m': Nodes, ns': seq<Node>, ns: seq<Node>, cur: Option<nat>)
    requires ScopeMaps(x, v, m, ns', ns, cur) && SubMap(m, m')
    ensures ScopeMaps(x, v, m', ns', ns, cur)
  {
    hide Build;
    if v.Original? {
      SeqMapsMore(m, m', ns', ns);
    } else {
      forall i | v.depth <= i < |ns| ensures OuterMaps(m', ns', ns, v.size, i) { assert OuterMaps(m, ns', ns, v.size, i); }
      forall k | 0 <= k < v.size ensures LitMaps(Build(x.p), m', cur.value, ns', v.depth, v.size, k) {
        assert LitMaps(Build(x.p), m, cur.value, ns', v.depth, v.size, k);
      }
    }
  }

  /** Binding corresponding nodes. */
  lemma ScopeDeeper(
    x: Cloning, v: View, m: Nodes, bs': seq<Node>, bs: seq<Node>, ns': seq<Node>, ns: seq<Node>, cur: Option<nat>)
    requires ScopeMaps(x, v, m, ns', ns, cur) && SeqMaps(m, bs', bs)
    ensures ScopeMaps(x, Deeper(v, |bs|), m, bs' + ns', bs + ns, cur)
  {
    hide Build;
    var n, w, all', all := |bs|, Deeper(v, |bs|), bs' + ns', bs + ns;
    if v.InClone? {
      forall i | 0 <= i < w.depth ensures Maps(m, all'[i], all[i]) {
        if i >= n { assert Maps(m, ns'[i - n], ns[i - n]); }
      }
      forall i | w.depth <= i < |all| ensures OuterMaps(m, all', all, w.size, i) {
        assert OuterMaps(m, ns', ns, v.size, i - n);
      }
      forall k | 0 <= k < w.size ensures LitMaps(Build(x.p), m, cur.value, all', w.depth, w.size, k) {
        assert LitMaps(Build(x.p), m, cur.value, ns', v.depth, v.size, k);
      }
    }
  }

  /** Moving on from a place. */
  lemma SpotMore(
    x: Cloning, v: View, g: Flow, m: Nodes, ns': seq<Node>, cur': Option<nat>, f: Flow, ns: seq<Node>, cur: Option<nat>,
    h: Flow, m': Nodes, e: Flow)
    requires Spot(x, v, g, m, ns', cur', f, ns, cur) && SubMap(m, m') && FlowMaps(x, h, m') && Grown(f, e)
    ensures Spot(x, v, h, m', ns', cur', e, ns, cur)
  {
    hide Build, FlowMaps, ScopeMaps, Wf, CurMaps;
    ScopeMapsMore(x, v, m, m', ns', ns, cur);
  }

  /** The two analyses return to corresponding nodes. */
  lemma RetMaps(
    x: Cloning, v: View, g: Flow, m: Nodes, ns': seq<Node>, cur': Option<nat>, f: Flow, ns: seq<Node>, cur: Option<nat>)
    requires Spot(x, v, g, m, ns', cur', f, ns, cur) && Extends(f, Build(x.p))
    ensures Maps(m, g.RetNode(cur'), f.RetNode(cur))
  {
    hide Build, CstrMaps, ScopeMaps, FieldsMap, SlotMaps, Linked;
  }

  // ---- atoms ----

  lemma AtomMapped(
    x: Cloning, v: View, g: Flow, m: Nodes, a: Atom, ns': seq<Node>, cur': Option<nat>, f: Flow, ns: seq<Node>, cur: Option<nat>)
    returns (m': Nodes)
    requires Spot(x, v, g, m, ns', cur', f, ns, cur) && ViewBelow(v, a) && Extends(AtomNode(f, a, ns, cur).0, Build(x.p))
    ensures var r := AtomNode(g, ViewAtom(v, a), ns', cur');
      SubMap(m, m') && FlowMaps(x, r.0, m') && Maps(m', r.1, AtomNode(f, a, ns, cur).1)
  {
    hide Build, CstrMaps, FieldsMap, Linked;
    m' := m;
    match a
    case Var(i) =>
      if v.InClone? && v.depth <= i < |ns| { assert OuterMaps(m, ns', ns, v.size, i); }
    case EnvRef(k) =>
      if v.InClone? {
        assert LitMaps(Build(x.p), m, cur.value, ns', v.depth, v.size, k);
      } else if cur.Some? {
        m' := SlotMapped(x, g, m, cur.value, k);
      }
    case _ =>
  }

  predicate ViewAtomsBelow(v: View, atoms: seq<Atom>) {
    forall k :: 0 <= k < |atoms| ==> ViewBelow(v, atoms[k])
  }

  lemma ViewPrefix(v: View, atoms: seq<Atom>, k: nat)
    requires k < |atoms|
    ensures ViewAtoms(v, atoms)[..k] == ViewAtoms(v, atoms[..k]) && ViewAtoms(v, atoms)[k] == ViewAtom(v, atoms[k])
  {}

  lemma {:induction false} AtomsMapped(
    x: Cloning, v: View, g: Flow, m: Nodes, atoms: seq<Atom>, ns': seq<Node>, cur': Option<nat>, f: Flow, ns: seq<Node>, cur: Option<nat>)
    returns (m': Nodes)
    requires Spot(x, v, g, m, ns', cur', f, ns, cur) && ViewAtomsBelow(v, atoms)
    requires Extends(AtomNodes(f, atoms, ns, cur).0, Build(x.p))
    ensures var r := AtomNodes(g, ViewAtoms(v, atoms), ns', cur');
      SubMap(m, m') && FlowMaps(x, r.0, m') && SeqMaps(m', r.1, AtomNodes(f, atoms, ns, cur).1)
  {
    hide Build, Spot, FlowMaps, ViewBelow, ViewAtom, Wf, Place, Linked, AtomNode;
    if atoms == [] {
      m' := m;
      SpotFlow(x, v, g, m, ns', cur', f, ns, cur);
    } else {
      var k := |atoms| - 1;
      var as' := ViewAtoms(v, atoms);
      ViewPrefix(v, atoms, k);
      SpotPlace(x, v, g, m, ns', cur', f, ns, cur);
      AtomsGrow(f, atoms[..k], ns, cur);
      var front, front' := AtomNodes(f, atoms[..k], ns, cur), AtomNodes(g, as'[..k], ns', cur');
      PlaceExtends(f, front.0, ns, cur);
      AtomGrows(front.0, atoms[k], ns, cur);
      ExtendsTrans(front.0, AtomNode(front.0, atoms[k], ns, cur).0, Build(x.p));
      var m1 := AtomsMapped(x, v, g, m, atoms[..k], ns', cur', f, ns, cur);
      SpotMore(x, v, g, m, ns', cur', f, ns, cur, front'.0, m1, front.0);
      m' := AtomMapped(x, v, front'.0, m1, atoms[k], ns', cur', front.0, ns, cur);
      SeqMapsMore(m1, m', front'.1, front.1);
    }
  }

  lemma SpotFlow(
    x: Cloning, v: View, g: Flow, m: Nodes, ns': seq<Node>, cur': Option<nat>, f: Flow, ns: seq<Node>, cur: Option<nat>)
    requires Spot(x, v, g, m, ns', cur', f, ns, cur)
    ensures FlowMaps(x, g, m)
  {
    hide FlowMaps, ScopeMaps, Wf, Place, CurMaps, Build;
  }

  lemma SpotPlace(
    x: Cloning, v: View, g: Flow, m: Nodes, ns': seq<Node>, cur': Option<nat>, f: Flow, ns: seq<Node>, cur: Option<nat>)
    requires Spot(x, v, g, m, ns', cur', f, ns, cur)
    ensures Wf(f) && Place(f, ns, cur) && f.index == Build(x.p).index
  {
    hide FlowMaps, ScopeMaps, Wf, Place, CurMaps, Build;
  }

  /** A constraint of the program's graph holds of its solution. */
  lemma HoldsIn(x: Cloning, c: Cstr)
    requires Ready(x) && c in Build(x.p).cstrs
    ensures Sat(Build(x.p), x.sol, c) && (c.Escape? ==> c.node in x.clean)
  {
    hide Sat, Build, PlainProgram, SitesNamed, Capspec.NoClones, Capspec.EnvFits, Capspec.CloneTable, Capspec.DecisionsOf,
      Capspec.KeysUsed, ProgramApplies;
  }

  /** Emitting a constraint whose image the program's graph emits. */
  lemma EmitMapped(x: Cloning, g: Flow, m: Nodes, c: Cstr, f: Flow, image: Cstr)
    requires Ready(x) && FlowMaps(x, g, m) && CstrKnown(m, c) && Image(x, m, c) == image && Extends(f.Emit(image), Build(x.p))
    ensures FlowMaps(x, g.Emit(c), m)
  {
    hide Build, FlowMaps, Ready, Sat;
    EmittedIn(f, image, Build(x.p));
    HoldsIn(x, image);
    EmitMaps(x, g, m, c);
  }

  lemma {:induction false} EscapesMapped(
    x: Cloning, v: View, g: Flow, m: Nodes, atoms: seq<Atom>, ns': seq<Node>, cur': Option<nat>, f: Flow, ns: seq<Node>, cur: Option<nat>)
    returns (m': Nodes)
    requires Ready(x) && Spot(x, v, g, m, ns', cur', f, ns, cur) && ViewAtomsBelow(v, atoms)
    requires Extends(Escapes(f, atoms, ns, cur), Build(x.p))
    ensures SubMap(m, m') && FlowMaps(x, Escapes(g, ViewAtoms(v, atoms), ns', cur'), m')
  {
    hide Build, Spot, FlowMaps, ViewBelow, ViewAtom, Wf, Place, Linked, AtomNode, Ready;
    if atoms == [] {
      m' := m;
      SpotFlow(x, v, g, m, ns', cur', f, ns, cur);
    } else {
      var k := |atoms| - 1;
      var as' := ViewAtoms(v, atoms);
      ViewPrefix(v, atoms, k);
      SpotPlace(x, v, g, m, ns', cur', f, ns, cur);
      EscapesGrow(f, atoms[..k], ns, cur);
      var front, front' := Escapes(f, atoms[..k], ns, cur), Escapes(g, as'[..k], ns', cur');
      PlaceExtends(f, front, ns, cur);
      AtomGrows(front, atoms[k], ns, cur);
      var a, a' := AtomNode(front, atoms[k], ns, cur), AtomNode(front', as'[k], ns', cur');
      ExtendsTrans(a.0, a.0.Emit(Escape(a.1)), Build(x.p));
      ExtendsTrans(front, a.0, Build(x.p));
      var m1 := EscapesMapped(x, v, g, m, atoms[..k], ns', cur', f, ns, cur);
      SpotMore(x, v, g, m, ns', cur', f, ns, cur, front', m1, front);
      m' := AtomMapped(x, v, front', m1, atoms[k], ns', cur', front, ns, cur);
      EmitMapped(x, a'.0, m', Escape(a'.1), a.0, Escape(a.1));
    }
  }

  lemma {:induction false} CapturesMapped(
    x: Cloning, v: View, g: Flow, m: Nodes, func: nat, atoms: seq<Atom>, ns': seq<Node>, cur': Option<nat>, f: Flow, ns: seq<Node>, cur: Option<nat>)
    returns (m': Nodes)
    requires Ready(x) && Spot(x, v, g, m, ns', cur', f, ns, cur) && ViewAtomsBelow(v, atoms)
    requires Extends(Cfa.Captures(f, func, atoms, ns, cur).0, Build(x.p))
    ensures SubMap(m, m') && FlowMaps(x, Cfa.Captures(g, func, ViewAtoms(v, atoms), ns', cur').0, m')
  {
    hide Build, Spot, FlowMaps, ViewBelow, ViewAtom, Wf, Place, Linked, AtomNode, EnvSlot, Ready;
    if atoms == [] {
      m' := m;
      SpotFlow(x, v, g, m, ns', cur', f, ns, cur);
    } else {
      var k := |atoms| - 1;
      var as' := ViewAtoms(v, atoms);
      ViewPrefix(v, atoms, k);
      SpotPlace(x, v, g, m, ns', cur', f, ns, cur);
      CapturesGrow(f, func, atoms[..k], ns, cur);
      var front, front' := Cfa.Captures(f, func, atoms[..k], ns, cur), Cfa.Captures(g, func, as'[..k], ns', cur');
      PlaceExtends(f, front.0, ns, cur);
      AtomGrows(front.0, atoms[k], ns, cur);
      var from, from' := AtomNode(front.0, atoms[k], ns, cur), AtomNode(front'.0, as'[k], ns', cur');
      EnvSlotGrows(from.0, func, k);
      var to, to' := EnvSlot(from.0, func, k), EnvSlot(from'.0, func, k);
      ExtendsTrans(to.0, to.0.Emit(Copy(to.1, from.1)), Build(x.p));
      ExtendsTrans(from.0, to.0, Build(x.p));
      ExtendsTrans(front.0, from.0, Build(x.p));
      var m1 := CapturesMapped(x, v, g, m, func, atoms[..k], ns', cur', f, ns, cur);
      SpotMore(x, v, g, m, ns', cur', f, ns, cur, front'.0, m1, front.0);
      var m2 := AtomMapped(x, v, front'.0, m1, atoms[k], ns', cur', front.0, ns, cur);
      m' := SlotMapped(x, from'.0, m2, func, k);
      EmitMapped(x, to'.0, m', Copy(to'.1, from'.1), to.0, Copy(to.1, from.1));
    }
  }

  // ---- calls ----

  lemma CallMapped(
    x: Cloning, v: View, g: Flow, m: Nodes, h: Atom, a: Atom, res': Node, ns': seq<Node>, cur': Option<nat>,
    f: Flow, res: Node, ns: seq<Node>, cur: Option<nat>) returns (m': Nodes)
    requires Ready(x) && Spot(x, v, g, m, ns', cur', f, ns, cur) && ViewBelow(v, h) && ViewBelow(v, a) && Maps(m, res', res)
    requires Extends(GenCall(f, h, a, res, ns, cur), Build(x.p))
    ensures SubMap(m, m') && FlowMaps(x, GenCall(g, ViewAtom(v, h), ViewAtom(v, a), res', ns', cur'), m')
  {
    hide Build, Spot, FlowMaps, ViewBelow, ViewAtom, Wf, Place, Linked, AtomNode, Ready;
    SpotPlace(x, v, g, m, ns', cur', f, ns, cur);
    AtomGrows(f, h, ns, cur);
    var head, head' := AtomNode(f, h, ns, cur), AtomNode(g, ViewAtom(v, h), ns', cur');
    PlaceExtends(f, head.0, ns, cur);
    AtomGrows(head.0, a, ns, cur);
    var arg, arg' := AtomNode(head.0, a, ns, cur), AtomNode(head'.0, ViewAtom(v, a), ns', cur');
    assert Extends(arg.0.Emit(Cstr.Call(res, head.1, arg.1)), GenCall(f, h, a, res, ns, cur));
    ExtendsTrans(arg.0.Emit(Cstr.Call(res, head.1, arg.1)), GenCall(f, h, a, res, ns, cur), Build(x.p));
    ExtendsTrans(arg.0, arg.0.Emit(Cstr.Call(res, head.1, arg.1)), Build(x.p));
    ExtendsTrans(head.0, arg.0, Build(x.p));
    var m1 := AtomMapped(x, v, g, m, h, ns', cur', f, ns, cur);
    SpotMore(x, v, g, m, ns', cur', f, ns, cur, head'.0, m1, head.0);
    m' := AtomMapped(x, v, head'.0, m1, a, ns', cur', head.0, ns, cur);
    EmitMapped(x, arg'.0, m', Cstr.Call(res', head'.1, arg'.1), arg.0, Cstr.Call(res, head.1, arg.1));
    SidesMap(x, arg'.0.Emit(Cstr.Call(res', head'.1, arg'.1)), GenCall(g, ViewAtom(v, h), ViewAtom(v, a), res', ns', cur'), m');
  }

  lemma GlobalMapped(
    x: Cloning, v: View, g: Flow, m: Nodes, name: FName, a: Atom, res': Node, ns': seq<Node>, cur': Option<nat>,
    f: Flow, res: Node, ns: seq<Node>, cur: Option<nat>) returns (m': Nodes)
    requires Ready(x) && Spot(x, v, g, m, ns', cur', f, ns, cur) && ViewBelow(v, a) && Maps(m, res', res) && name in f.index
    requires Extends(GenGlobal(f, name, a, res, ns, cur), Build(x.p))
    ensures SubMap(m, m') && FlowMaps(x, GenGlobal(g, name, ViewAtom(v, a), res', ns', cur'), m')
  {
    hide Build, Spot, FlowMaps, ViewBelow, ViewAtom, Wf, Place, Linked, AtomNode, Ready;
    SpotPlace(x, v, g, m, ns', cur', f, ns, cur);
    SpotFlow(x, v, g, m, ns', cur', f, ns, cur);
    KnownIndex(x, g, m, name);
    AtomGrows(f, a, ns, cur);
    var arg, arg' := AtomNode(f, a, ns, cur), AtomNode(g, ViewAtom(v, a), ns', cur');
    ExtendsTrans(arg.0, arg.0.Emit(GlobalCall(res, f.index[name], arg.1)), Build(x.p));
    AtomIndex(g, ViewAtom(v, a), ns', cur');
    m' := AtomMapped(x, v, g, m, a, ns', cur', f, ns, cur);
    EmitMapped(x, arg'.0, m', GlobalCall(res', g.index[name], arg'.1), arg.0, GlobalCall(res, f.index[name], arg.1));
  }

  lemma AtomIndex(g: Flow, a: Atom, ns: seq<Node>, cur: Option<nat>)
    ensures AtomNode(g, a, ns, cur).0.index == g.index
  {}

  lemma KnownIndex(x: Cloning, g: Flow, m: Nodes, name: FName)
    requires FlowMaps(x, g, m) && name in Build(x.p).index
    ensures name in g.index && g.index[name] == Build(x.p).index[name] && Callee(x, g.index[name]) == Build(x.p).index[name]
  {
    hide Build, CstrMaps, FieldsMap, SlotMaps, KeyIndex;
  }

  lemma CloneIndex(x: Cloning, g: Flow, m: Nodes, j: nat)
    requires FlowMaps(x, g, m) && j < |x.clones|
    ensures x.clones[j].name in g.index && Callee(x, g.index[x.clones[j].name]) == KeyIndex(x, j)
  {
    hide Build, CstrMaps, FieldsMap, SlotMaps, KeyIndex;
  }

  /** A decided head holds the function whose clone is called instead. */
  lemma DecidedCall(x: Cloning, i: nat, res: Node, head: Node, arg: Node, name: FName) returns (j: nat)
    requires Ready(x) && Cstr.Call(res, head, arg) in Build(x.p).cstrs
    requires i < |x.d| && i < |Build(x.p).heads| && Build(x.p).heads[i] == head && x.d[i] == Some(name)
    ensures j < |x.clones| && x.clones[j].name == name && CallFlows(Build(x.p), x.sol, KeyIndex(x, j), res, arg)
  {
    hide Build, PlainProgram, Capspec.NoClones, Capspec.EnvFits, Capspec.IsClone, Capspec.KeysUsed, ProgramApplies, CallFlows, Capspec.Recursive, LookupAnf;
    var f := Build(x.p);
    HoldsIn(x, Cstr.Call(res, head, arg));
    assert Capspec.Decision(x.p, f, x.sol, x.clones, x.keys, f.heads[i], x.d[i]);
    j :| 0 <= j < |x.clones| && j < |x.keys| && x.clones[j].name == name
      && Capspec.Specializable(x.p, f, x.sol, head, x.keys[j]);
    var s :| At(x.sol, head).cloSites == {s} && Capspec.SiteIs(f, x.sol, s, x.keys[j]);
    assert s in At(x.sol, head).cloSites;
    BuildGrows(x.p);
    CfaRuns.SiteLinked(f, s);
    CfaRuns.LinkedKnown(f, f.cloFields[s]);
  }

  /** An apply that became a direct call of a clone. */
  lemma RewrittenMapped(
    x: Cloning, g: Flow, m: Nodes, name: FName, h: Atom, a: Atom, res': Node, ns': seq<Node>,
    f: Flow, res: Node, ns: seq<Node>, cur: Option<nat>) returns (m': Nodes)
    requires Ready(x) && Spot(x, Original, g, m, ns', cur, f, ns, cur) && Maps(m, res', res)
    requires Extends(GenCall(f, h, a, res, ns, cur), Build(x.p))
    requires |f.heads| < |x.d| && x.d[|f.heads|] == Some(name)
    ensures SubMap(m, m') && FlowMaps(x, GenGlobal(g, name, a, res', ns', cur), m')
  {
    hide Build, Spot, FlowMaps, Wf, Place, Linked, AtomNode, Ready, ScopeMaps, CallFlows, KeyIndex;
    SpotPlace(x, Original, g, m, ns', cur, f, ns, cur);
    SpotFlow(x, Original, g, m, ns', cur, f, ns, cur);
    AtomGrows(f, h, ns, cur);
    var head := AtomNode(f, h, ns, cur);
    PlaceExtends(f, head.0, ns, cur);
    AtomGrows(head.0, a, ns, cur);
    var arg, arg' := AtomNode(head.0, a, ns, cur), AtomNode(g, a, ns', cur);
    var e, all := arg.0.Emit(Cstr.Call(res, head.1, arg.1)), GenCall(f, h, a, res, ns, cur);
    assert Extends(e, all) && all.heads[|f.heads|] == head.1;
    ExtendsTrans(e, all, Build(x.p));
    EmittedIn(arg.0, Cstr.Call(res, head.1, arg.1), Build(x.p));
    KeptSpot(x, g, m, ns', f, ns, cur, head.0);
    m' := AtomMapped(x, Original, g, m, a, ns', cur, head.0, ns, cur);
    var j := DecidedCall(x, |f.heads|, res, head.1, arg.1, name);
    CloneIndex(x, g, m, j);
    AtomIndex(g, a, ns', cur);
    assert Image(x, m', GlobalCall(res', g.index[name], arg'.1)) == GlobalCall(res, KeyIndex(x, j), arg.1);
    EmitMaps(x, arg'.0, m', GlobalCall(res', g.index[name], arg'.1));
  }

  /** The program's analysis may move on alone. */
  lemma KeptSpot(
    x: Cloning, g: Flow, m: Nodes, ns': seq<Node>, f: Flow, ns: seq<Node>, cur: Option<nat>, e: Flow)
    requires Spot(x, Original, g, m, ns', cur, f, ns, cur) && Grown(f, e)
    ensures Spot(x, Original, g, m, ns', cur, e, ns, cur)
  {
    hide Build, FlowMaps, ScopeMaps, Wf, CurMaps;
    SpotFlow(x, Original, g, m, ns', cur, f, ns, cur);
    SpotMore(x, Original, g, m, ns', cur, f, ns, cur, g, m, e);
  }

  // ---- computations ----

  lemma TupleMapped(
    x: Cloning, v: View, g: Flow, m: Nodes, args: seq<Atom>, node': Node, ns': seq<Node>, cur': Option<nat>,
    f: Flow, node: Node, ns: seq<Node>, cur: Option<nat>) returns (m': Nodes)
    requires Ready(x) && Spot(x, v, g, m, ns', cur', f, ns, cur) && ViewAtomsBelow(v, args) && Maps(m, node', node)
    requires Unused(f, node) && Extends(GenPrim(f, TupleOp, args, node, ns, cur), Build(x.p))
    ensures SubMap(m, m') && FlowMaps(x, GenPrim(g, TupleOp, ViewAtoms(v, args), node', ns', cur'), m')
  {
    hide Build, Spot, FlowMaps, ViewBelow, ViewAtoms, Wf, Place, Linked, AtomNodes, Ready;
    SpotPlace(x, v, g, m, ns', cur', f, ns, cur);
    SpotFlow(x, v, g, m, ns', cur', f, ns, cur);
    var f1, g1 := f.Emit(Site(node)), g.Emit(Site(node'));
    var f2, g2 := f1.Emit(NotLit(node)), g1.Emit(NotLit(node'));
    NodeEmits(f, Site(node), NotLit(node));
    PlaceExtends(f, f2, ns, cur);
    AtomsGrow(f2, args, ns, cur);
    var r, r' := AtomNodes(f2, args, ns, cur), AtomNodes(g2, ViewAtoms(v, args), ns', cur');
    var all := r.0.(fields := r.0.fields[node := r.1]);
    assert Extends(r.0, all);
    ExtendsTrans(r.0, all, Build(x.p));
    ExtendsTrans(f2, r.0, Build(x.p));
    ExtendsTrans(f1, f2, Build(x.p));
    EmitMapped(x, g, m, Site(node'), f, Site(node));
    EmitMapped(x, g1, m, NotLit(node'), f1, NotLit(node));
    SpotMore(x, v, g, m, ns', cur', f, ns, cur, g2, m, f2);
    m' := AtomsMapped(x, v, g2, m, args, ns', cur', f2, ns, cur);
    assert all.fields[node] == r.1;
    NewFieldsMap(x, r'.0, m', node', r'.1);
  }

  /** Two constraints on a node that exists. */
  lemma NodeEmits(f: Flow, a: Cstr, b: Cstr)
    requires Wf(f) && CstrIn(f, a) && CstrIn(f, b)
    ensures Grown(f, f.Emit(a)) && Grown(f, f.Emit(a).Emit(b)) && Extends(f.Emit(a), f.Emit(a).Emit(b))
  {
    hide Wf;
    EmitGrows(f, a);
    CstrInMore(f, f.Emit(a), b);
    EmitGrows(f.Emit(a), b);
    ExtendsTrans(f, f.Emit(a), f.Emit(a).Emit(b));
  }

  lemma CstrInMore(f: Flow, g: Flow, c: Cstr)
    requires CstrIn(f, c) && Extends(f, g)
    ensures CstrIn(g, c)
  {}

  lemma PrimMapped(
    x: Cloning, v: View, g: Flow, m: Nodes, op: PrimOp, args: seq<Atom>, node': Node, ns': seq<Node>, cur': Option<nat>,
    f: Flow, node: Node, ns: seq<Node>, cur: Option<nat>) returns (m': Nodes)
    requires Ready(x) && Spot(x, v, g, m, ns', cur', f, ns, cur) && ViewAtomsBelow(v, args) && Maps(m, node', node)
    requires Unused(f, node) && Extends(GenPrim(f, op, args, node, ns, cur), Build(x.p))
    ensures SubMap(m, m') && FlowMaps(x, GenPrim(g, op, ViewAtoms(v, args), node', ns', cur'), m')
  {
    hide Build, Spot, FlowMaps, ViewBelow, ViewAtom, Wf, Place, Linked, AtomNode, Escapes, Ready;
    m' := m;
    SpotPlace(x, v, g, m, ns', cur', f, ns, cur);
    SpotFlow(x, v, g, m, ns', cur', f, ns, cur);
    match op
    case TupleOp => m' := TupleMapped(x, v, g, m, args, node', ns', cur', f, node, ns, cur);
    case ProjOp(i) =>
      if |args| == 1 {
        AtomGrows(f, args[0], ns, cur);
        var tup, tup' := AtomNode(f, args[0], ns, cur), AtomNode(g, ViewAtom(v, args[0]), ns', cur');
        ViewPrefix(v, args, 0);
        ExtendsTrans(tup.0, tup.0.Emit(Cstr.Proj(node, tup.1, i)), Build(x.p));
        m' := AtomMapped(x, v, g, m, args[0], ns', cur', f, ns, cur);
        EmitMapped(x, tup'.0, m', Cstr.Proj(node', tup'.1, i), tup.0, Cstr.Proj(node, tup.1, i));
      } else {
        EmitMapped(x, g, m, NotLit(node'), f, NotLit(node));
      }
    case ConOp(_) =>
      if args == [] {
        EmitMapped(x, g, m, Literal(node', Comp.Prim(op, args)), f, Literal(node, Comp.Prim(op, args)));
      } else {
        m' := BoxMapped(x, v, g, m, args, node', ns', cur', f, node, ns, cur);
      }
    case LitOp(_) => EmitMapped(x, g, m, Literal(node', Comp.Prim(op, [])), f, Literal(node, Comp.Prim(op, [])));
    case IntOp(_) => EmitMapped(x, g, m, NotLit(node'), f, NotLit(node));
  }

  lemma BoxMapped(
    x: Cloning, v: View, g: Flow, m: Nodes, args: seq<Atom>, node': Node, ns': seq<Node>, cur': Option<nat>,
    f: Flow, node: Node, ns: seq<Node>, cur: Option<nat>) returns (m': Nodes)
    requires Ready(x) && Spot(x, v, g, m, ns', cur', f, ns, cur) && ViewAtomsBelow(v, args) && Maps(m, node', node)
    requires node < f.n && Extends(Escapes(f.Emit(NotLit(node)), args, ns, cur), Build(x.p))
    ensures SubMap(m, m') && FlowMaps(x, Escapes(g.Emit(NotLit(node')), ViewAtoms(v, args), ns', cur'), m')
  {
    hide Build, Spot, FlowMaps, ViewBelow, ViewAtoms, Wf, Place, Linked, Escapes, Ready;
    SpotPlace(x, v, g, m, ns', cur', f, ns, cur);
    SpotFlow(x, v, g, m, ns', cur', f, ns, cur);
    EmitGrows(f, NotLit(node));
    PlaceExtends(f, f.Emit(NotLit(node)), ns, cur);
    EscapesGrow(f.Emit(NotLit(node)), args, ns, cur);
    ExtendsTrans(f.Emit(NotLit(node)), Escapes(f.Emit(NotLit(node)), args, ns, cur), Build(x.p));
    EmitMapped(x, g, m, NotLit(node'), f, NotLit(node));
    SpotMore(x, v, g, m, ns', cur', f, ns, cur, g.Emit(NotLit(node')), m, f.Emit(NotLit(node)));
    m' := EscapesMapped(x, v, g.Emit(NotLit(node')), m, args, ns', cur', f.Emit(NotLit(node)), ns, cur);
  }

  lemma ClosureMapped(
    x: Cloning, v: View, g: Flow, m: Nodes, name: FName, caps: seq<Atom>, node': Node, ns': seq<Node>, cur': Option<nat>,
    f: Flow, node: Node, ns: seq<Node>, cur: Option<nat>) returns (m': Nodes)
    requires Ready(x) && Spot(x, v, g, m, ns', cur', f, ns, cur) && ViewAtomsBelow(v, caps) && Maps(m, node', node)
    requires Unused(f, node) && name in f.index && Extends(GenComp(f, Comp.MkClosure(name, caps), node, ns, cur), Build(x.p))
    ensures SubMap(m, m') && FlowMaps(x, GenComp(g, Comp.MkClosure(name, ViewAtoms(v, caps)), node', ns', cur'), m')
  {
    hide Build, Spot, FlowMaps, ViewBelow, ViewAtoms, Wf, Place, Linked, Cfa.Captures, Ready;
    SpotPlace(x, v, g, m, ns', cur', f, ns, cur);
    SpotFlow(x, v, g, m, ns', cur', f, ns, cur);
    KnownIndex(x, g, m, name);
    var i := f.index[name];
    var f1, g1 := f.Emit(Closure(node, name)), g.Emit(Closure(node', name));
    var f2, g2 := f1.Emit(NotLit(node)), g1.Emit(NotLit(node'));
    NodeEmits(f, Closure(node, name), NotLit(node));
    PlaceExtends(f, f2, ns, cur);
    CapturesGrow(f2, i, caps, ns, cur);
    var r, r' := Cfa.Captures(f2, i, caps, ns, cur), Cfa.Captures(g2, i, ViewAtoms(v, caps), ns', cur');
    var f3, g3 := r.0.(cloFields := r.0.cloFields[node := CloSite(name, r.1)]), r'.0.(cloFields := r'.0.cloFields[node' := CloSite(name, r'.1)]);
    assert Extends(r.0, f3);
    ExtendsTrans(f3, f3.Emit(ClosureSite(node)), Build(x.p));
    ExtendsTrans(r.0, f3, Build(x.p));
    ExtendsTrans(f2, r.0, Build(x.p));
    ExtendsTrans(f1, f2, Build(x.p));
    EmitMapped(x, g, m, Closure(node', name), f, Closure(node, name));
    EmitMapped(x, g1, m, NotLit(node'), f1, NotLit(node));
    SpotMore(x, v, g, m, ns', cur', f, ns, cur, g2, m, f2);
    m' := CapturesMapped(x, v, g2, m, i, caps, ns', cur', f2, ns, cur);
    SidesMap(x, r'.0, g3, m');
    EmitMapped(x, g3, m', ClosureSite(node'), f3, ClosureSite(node));
  }

  predicate ViewCompBelow(v: View, c: Comp) {
    v.InClone? ==> CompBelow(c, v.size)
  }

  lemma CompMapped(
    x: Cloning, v: View, g: Flow, m: Nodes, c: Comp, node': Node, ns': seq<Node>, cur': Option<nat>,
    f: Flow, node: Node, ns: seq<Node>, cur: Option<nat>) returns (m': Nodes)
    requires Ready(x) && Spot(x, v, g, m, ns', cur', f, ns, cur) && ViewCompBelow(v, c) && Maps(m, node', node)
    requires Unused(f, node) && PlainComp(c, f.index.Keys) && Extends(GenComp(f, c, node, ns, cur), Build(x.p))
    ensures SubMap(m, m') && FlowMaps(x, GenComp(g, ViewComp(v, c), node', ns', cur'), m')
  {
    hide Build, Spot, FlowMaps, Wf, Place, Linked, AtomNode, GenPrim, Cfa.Captures, Escapes, Ready;
    SpotPlace(x, v, g, m, ns', cur', f, ns, cur);
    match c
    case Use(a) =>
      AtomGrows(f, a, ns, cur);
      var from, from' := AtomNode(f, a, ns, cur), AtomNode(g, ViewAtom(v, a), ns', cur');
      ExtendsTrans(from.0, from.0.Emit(Copy(node, from.1)), Build(x.p));
      m' := AtomMapped(x, v, g, m, a, ns', cur', f, ns, cur);
      EmitMapped(x, from'.0, m', Copy(node', from'.1), from.0, Copy(node, from.1));
    case MkClosure(name, caps) => m' := ClosureMapped(x, v, g, m, name, caps, node', ns', cur', f, node, ns, cur);
    case Call(h, a) => m' := CallMapped(x, v, g, m, h, a, node', ns', cur', f, node, ns, cur);
    case CallGlobal(name, a) => m' := GlobalMapped(x, v, g, m, name, a, node', ns', cur', f, node, ns, cur);
    case Prim(op, args) => m' := PrimMapped(x, v, g, m, op, args, node', ns', cur', f, node, ns, cur);
  }

  // ---- tails ----

  function ViewRewComp(v: View, d: Decisions, i: nat, c: Comp): Comp
    requires v.Original? ==> i + CompApplies(c) <= |d|
  {
    if v.Original? then RewComp(Cloned, d, i, c) else ShiftComp(c, v.depth, v.size)
  }

  /** The body as the specialized program has it: rewritten in place, or embedded in a clone. */
  function ViewTail(v: View, d: Decisions, i: nat, t: Tail): Tail
    requires v.Original? ==> i + Applies(t) <= |d|
  {
    if v.Original? then RewTail(Cloned, d, i, t) else ShiftTail(t, v.depth, v.size)
  }

  function CloneArms(arms: seq<TailArm>, depth: nat, size: nat): (r: seq<TailArm>)
    ensures |r| == |arms|
  {
    seq(|arms|, k requires 0 <= k < |arms| =>
      TailArm(arms[k].con, arms[k].binders, ShiftTail(arms[k].body, depth + arms[k].binders, size)))
  }

  function ViewArms(v: View, d: Decisions, i: nat, arms: seq<TailArm>): (r: seq<TailArm>)
    requires v.Original? ==> i + ArmApplies(arms) <= |d|
    ensures |r| == |arms|
  {
    if v.Original? then RewArms(Cloned, d, i, arms) else CloneArms(arms, v.depth, v.size)
  }

  predicate ViewTailBelow(v: View, t: Tail) {
    v.InClone? ==> EnvBelow(t, v.size)
  }

  /** In the original program the decisions are counted by the heads analyzed so far. */
  predicate Counted(x: Cloning, v: View, f: Flow, i: nat, n: nat) {
    v.Original? ==> |f.heads| == i && i + n <= |x.d|
  }

  lemma BinderMapped(x: Cloning, g: Flow, m: Nodes, ns': seq<Node>, f: Flow, ns: seq<Node>) returns (m': Nodes)
    requires Ready(x) && FlowMaps(x, g, m) && SeqMaps(m, ns', ns) && Extends(f.Fresh().Emit(Open(f.n)), Build(x.p))
    ensures SubMap(m, m') && FlowMaps(x, g.Fresh().Emit(Open(g.n)), m') && SeqMaps(m', [g.n] + ns', [f.n] + ns)
  {
    hide Build, FlowMaps, Ready, Extends;
    m' := FreshMaps(x, g, m, f.n);
    EmitMapped(x, g.Fresh(), m', Open(g.n), f.Fresh(), Open(f.n));
    SeqMapsMore(m, m', ns', ns);
  }

  lemma {:induction false} BindersMapped(x: Cloning, g: Flow, m: Nodes, n: nat, f: Flow) returns (m': Nodes)
    requires Ready(x) && FlowMaps(x, g, m) && Wf(f) && Extends(Binders(f, n).0, Build(x.p))
    ensures SubMap(m, m') && FlowMaps(x, Binders(g, n).0, m') && SeqMaps(m', Binders(g, n).1, Binders(f, n).1)
  {
    hide Build, FlowMaps, Wf, Ready, Extends, Linked;
    if n == 0 {
      m' := m;
    } else {
      BindersGrow(f, n - 1);
      var front, front' := Binders(f, n - 1), Binders(g, n - 1);
      BinderExtends(front.0);
      ExtendsTrans(front.0, Binders(f, n).0, Build(x.p));
      var m1 := BindersMapped(x, g, m, n - 1, f);
      m' := BinderMapped(x, front'.0, m1, front'.1, front.0, front.1);
    }
  }

  lemma BinderExtends(f: Flow)
    ensures Extends(f, f.Fresh().Emit(Open(f.n)))
  {}

  /** A binding: the rest of the body is at corresponding points with corresponding nodes bound. */
  lemma LetMapped(
    x: Cloning, v: View, g: Flow, m: Nodes, i: nat, c: Comp, rest: Tail, ns': seq<Node>, cur': Option<nat>,
    f: Flow, ns: seq<Node>, cur: Option<nat>) returns (m': Nodes)
    requires Ready(x) && Spot(x, v, g, m, ns', cur', f, ns, cur) && ViewCompBelow(v, c) && PlainComp(c, f.index.Keys)
    requires Counted(x, v, f, i, CompApplies(c)) && Extends(GenTail(f, Tail.Let(c, rest), ns, cur), Build(x.p))
    ensures var e, h := GenComp(f.Fresh(), c, f.n, ns, cur), GenComp(g.Fresh(), ViewRewComp(v, x.d, i, c), g.n, ns', cur');
      SubMap(m, m') && Spot(x, Deeper(v, 1), h, m', [g.n] + ns', cur', e, [f.n] + ns, cur)
      && |e.heads| == |f.heads| + CompApplies(c) && Extends(GenTail(e, rest, [f.n] + ns, cur), Build(x.p))
  {
    hide Build, FlowMaps, Wf, Ready, GenComp, RewComp, ScopeMaps, CurMaps;
    SpotPlace(x, v, g, m, ns', cur', f, ns, cur);
    SpotFlow(x, v, g, m, ns', cur', f, ns, cur);
    var e, c' := GenComp(f.Fresh(), c, f.n, ns, cur), ViewRewComp(v, x.d, i, c);
    var h := GenComp(g.Fresh(), c', g.n, ns', cur');
    LetGrows(f, c, ns, cur);
    FreshGrows(f);
    TailGrows(e, rest, [f.n] + ns, cur);
    ExtendsTrans(e, GenTail(e, rest, [f.n] + ns, cur), Build(x.p));
    CompHeads(f.Fresh(), c, f.n, ns, cur);
    var m1 := FreshMaps(x, g, m, f.n);
    SpotMore(x, v, g, m, ns', cur', f, ns, cur, g.Fresh(), m1, f.Fresh());
    m' := BoundMapped(x, v, g.Fresh(), m1, i, c, g.n, ns', cur', f.Fresh(), f.n, ns, cur);
    SpotMore(x, v, g.Fresh(), m1, ns', cur', f.Fresh(), ns, cur, h, m', e);
    SpotDeeper(x, v, h, m', [g.n], [f.n], ns', cur', e, ns, cur);
  }

  /** The bound computation, rewritten when it is a decided apply. */
  lemma BoundMapped(
    x: Cloning, v: View, g: Flow, m: Nodes, i: nat, c: Comp, node': Node, ns': seq<Node>, cur': Option<nat>,
    f: Flow, node: Node, ns: seq<Node>, cur: Option<nat>) returns (m': Nodes)
    requires Ready(x) && Spot(x, v, g, m, ns', cur', f, ns, cur) && ViewCompBelow(v, c) && PlainComp(c, f.index.Keys)
    requires Counted(x, v, f, i, CompApplies(c)) && Unused(f, node) && Maps(m, node', node)
    requires Extends(GenComp(f, c, node, ns, cur), Build(x.p))
    ensures SubMap(m, m') && FlowMaps(x, GenComp(g, ViewRewComp(v, x.d, i, c), node', ns', cur'), m')
  {
    hide Build, FlowMaps, Wf, Ready, GenPrim, ScopeMaps, CompBelow, GenGlobal, AtomNode;
    if v.Original? && c.Call? && x.d[i].Some? {
      m' := RewrittenMapped(x, g, m, x.d[i].value, c.f, c.arg, node', ns', f, node, ns, cur);
    } else {
      m' := CompMapped(x, v, g, m, c, node', ns', cur', f, node, ns, cur);
    }
  }

  lemma SpotDeeper(
    x: Cloning, v: View, g: Flow, m: Nodes, bs': seq<Node>, bs: seq<Node>, ns': seq<Node>, cur': Option<nat>,
    f: Flow, ns: seq<Node>, cur: Option<nat>)
    requires Spot(x, v, g, m, ns', cur', f, ns, cur) && SeqMaps(m, bs', bs) && NodesIn(f, bs)
    ensures Spot(x, Deeper(v, |bs|), g, m, bs' + ns', cur', f, bs + ns, cur)
  {
    hide Build, FlowMaps, ScopeMaps, Wf;
    ScopeDeeper(x, v, m, bs', bs, ns', ns, cur);
  }

  /** How the graph grows over the first of two branches. */
  lemma BranchGrows(x: Cloning, f: Flow, a: Tail, b: Tail, ns: seq<Node>, cur: Option<nat>)
    requires Wf(f) && Place(f, ns, cur) && Extends(GenTail(GenTail(f, a, ns, cur), b, ns, cur), Build(x.p))
    ensures var e := GenTail(f, a, ns, cur);
      Grown(f, e) && Extends(e, Build(x.p)) && |e.heads| == |f.heads| + Applies(a)
  {
    hide Build, Wf, GenTail, Applies, Linked;
    var e := GenTail(f, a, ns, cur);
    TailGrows(f, a, ns, cur);
    PlaceExtends(f, e, ns, cur);
    TailGrows(e, b, ns, cur);
    ExtendsTrans(e, GenTail(e, b, ns, cur), Build(x.p));
    TailHeads(f, a, ns, cur);
  }

  lemma {:induction false} TailMapped(
    x: Cloning, v: View, g: Flow, m: Nodes, i: nat, t: Tail, ns': seq<Node>, cur': Option<nat>, f: Flow, ns: seq<Node>, cur: Option<nat>)
    returns (m': Nodes)
    requires Ready(x) && Spot(x, v, g, m, ns', cur', f, ns, cur) && ViewTailBelow(v, t) && Plain(t, f.index.Keys)
    requires Counted(x, v, f, i, Applies(t)) && Extends(GenTail(f, t, ns, cur), Build(x.p))
    ensures SubMap(m, m') && FlowMaps(x, GenTail(g, ViewTail(v, x.d, i, t), ns', cur'), m')
    decreases t, 1
  {
    hide Build, FlowMaps, Wf, Ready, GenComp, GenGlobal, ScopeMaps, Spot, AtomNode, RewComp, ShiftComp, CompBelow, PlainComp, RewArms, GenArms, Linked;
    SpotPlace(x, v, g, m, ns', cur', f, ns, cur);
    match t
    case Ret(a) => m' := RetMapped(x, v, g, m, a, ns', cur', f, ns, cur);
    case Let(c, rest) =>
      var m1 := LetMapped(x, v, g, m, i, c, rest, ns', cur', f, ns, cur);
      var h := GenComp(g.Fresh(), ViewRewComp(v, x.d, i, c), g.n, ns', cur');
      SpotPlace(x, Deeper(v, 1), h, m1, [g.n] + ns', cur', GenComp(f.Fresh(), c, f.n, ns, cur), [f.n] + ns, cur);
      m' := TailMapped(x, Deeper(v, 1), h, m1, i + CompApplies(c), rest, [g.n] + ns', cur',
                       GenComp(f.Fresh(), c, f.n, ns, cur), [f.n] + ns, cur);
    case TailCall(h, a) => m' := ReturnedCall(x, v, g, m, i, h, a, ns', cur', f, ns, cur);
    case TailCallGlobal(name, a) =>
      GlobalReturns(x, v, g, m, name, a, ns', cur', f, ns, cur);
      m' := GlobalMapped(x, v, g, m, name, a, g.RetNode(cur'), ns', cur', f, f.RetNode(cur), ns, cur);
    case Jump(a) => m' := JumpMapped(x, v, g, m, a, ns', cur', f, ns, cur);
    case Case(_, arms) => m' := ArmsMapped(x, v, g, m, i, arms, ns', cur', f, ns, cur);
    case IfZero(_, a, b) =>
      BranchGrows(x, f, a, b, ns, cur);
      var m1 := TailMapped(x, v, g, m, i, a, ns', cur', f, ns, cur);
      var h := GenTail(g, ViewTail(v, x.d, i, a), ns', cur');
      SpotMore(x, v, g, m, ns', cur', f, ns, cur, h, m1, GenTail(f, a, ns, cur));
      m' := TailMapped(x, v, h, m1, i + Applies(a), b, ns', cur', GenTail(f, a, ns, cur), ns, cur);
  }

  lemma RetMapped(
    x: Cloning, v: View, g: Flow, m: Nodes, a: Atom, ns': seq<Node>, cur': Option<nat>, f: Flow, ns: seq<Node>, cur: Option<nat>)
    returns (m': Nodes)
    requires Ready(x) && Spot(x, v, g, m, ns', cur', f, ns, cur) && ViewBelow(v, a) && Extends(GenTail(f, Ret(a), ns, cur), Build(x.p))
    ensures SubMap(m, m') && FlowMaps(x, GenTail(g, Ret(ViewAtom(v, a)), ns', cur'), m')
  {
    hide Build, FlowMaps, Wf, Ready, ScopeMaps, AtomNode, Spot, ViewAtom, Linked;
    SpotPlace(x, v, g, m, ns', cur', f, ns, cur);
    AtomGrows(f, a, ns, cur);
    var from, from' := AtomNode(f, a, ns, cur), AtomNode(g, ViewAtom(v, a), ns', cur');
    ExtendsTrans(from.0, from.0.Emit(Copy(f.RetNode(cur), from.1)), Build(x.p));
    ExtendsTrans(f, from.0, Build(x.p));
    RetMaps(x, v, g, m, ns', cur', f, ns, cur);
    m' := AtomMapped(x, v, g, m, a, ns', cur', f, ns, cur);
    EmitMapped(x, from'.0, m', Copy(g.RetNode(cur'), from'.1), from.0, Copy(f.RetNode(cur), from.1));
  }

  lemma GlobalReturns(
    x: Cloning, v: View, g: Flow, m: Nodes, name: FName, a: Atom, ns': seq<Node>, cur': Option<nat>, f: Flow, ns: seq<Node>, cur: Option<nat>)
    requires Spot(x, v, g, m, ns', cur', f, ns, cur) && Extends(GenGlobal(f, name, a, f.RetNode(cur), ns, cur), Build(x.p))
    ensures Maps(m, g.RetNode(cur'), f.RetNode(cur))
  {
    hide Build, FlowMaps, Wf, ScopeMaps, AtomNode, Spot, GenGlobal;
    SpotPlace(x, v, g, m, ns', cur', f, ns, cur);
    RetIn(f, cur);
    GlobalGrows(f, name, a, f.RetNode(cur), ns, cur);
    ExtendsTrans(f, GenGlobal(f, name, a, f.RetNode(cur), ns, cur), Build(x.p));
    RetMaps(x, v, g, m, ns', cur', f, ns, cur);
  }

  /** A tail call, rewritten when it is decided. */
  lemma ReturnedCall(
    x: Cloning, v: View, g: Flow, m: Nodes, i: nat, h: Atom, a: Atom, ns': seq<Node>, cur': Option<nat>, f: Flow, ns: seq<Node>, cur: Option<nat>)
    returns (m': Nodes)
    requires Ready(x) && Spot(x, v, g, m, ns', cur', f, ns, cur) && ViewBelow(v, h) && ViewBelow(v, a) && Counted(x, v, f, i, 1)
    requires Extends(GenCall(f, h, a, f.RetNode(cur), ns, cur), Build(x.p))
    ensures SubMap(m, m') && FlowMaps(x, GenTail(g, ViewTail(v, x.d, i, TailCall(h, a)), ns', cur'), m')
  {
    hide Build, FlowMaps, Wf, Ready, ScopeMaps, AtomNode, Spot, GenGlobal;
    SpotPlace(x, v, g, m, ns', cur', f, ns, cur);
    RetIn(f, cur);
    CallGrows(f, h, a, f.RetNode(cur), ns, cur);
    ExtendsTrans(f, GenCall(f, h, a, f.RetNode(cur), ns, cur), Build(x.p));
    RetMaps(x, v, g, m, ns', cur', f, ns, cur);
    if v.Original? && x.d[i].Some? {
      SameCur(x, g, m, ns', cur', f, ns, cur);
      m' := RewrittenMapped(x, g, m, x.d[i].value, h, a, g.RetNode(cur), ns', f, f.RetNode(cur), ns, cur);
    } else {
      m' := CallMapped(x, v, g, m, h, a, g.RetNode(cur'), ns', cur', f, f.RetNode(cur), ns, cur);
      assert GenTail(g, TailCall(ViewAtom(v, h), ViewAtom(v, a)), ns', cur')
          == GenCall(g, ViewAtom(v, h), ViewAtom(v, a), g.RetNode(cur'), ns', cur');
    }
  }

  lemma SameCur(
    x: Cloning, g: Flow, m: Nodes, ns': seq<Node>, cur': Option<nat>, f: Flow, ns: seq<Node>, cur: Option<nat>)
    requires Spot(x, Original, g, m, ns', cur', f, ns, cur)
    ensures cur' == cur
  {
    hide Build, FlowMaps, Wf, ScopeMaps;
  }

  lemma JumpMapped(
    x: Cloning, v: View, g: Flow, m: Nodes, a: Atom, ns': seq<Node>, cur': Option<nat>, f: Flow, ns: seq<Node>, cur: Option<nat>)
    returns (m': Nodes)
    requires Ready(x) && Spot(x, v, g, m, ns', cur', f, ns, cur) && v.Original? && Extends(GenTail(f, Jump(a), ns, cur), Build(x.p))
    ensures SubMap(m, m') && FlowMaps(x, GenTail(g, Jump(a), ns', cur'), m')
  {
    hide Build, FlowMaps, Wf, Ready, ScopeMaps, AtomNode, Spot, Linked;
    SpotPlace(x, v, g, m, ns', cur', f, ns, cur);
    SameCur(x, g, m, ns', cur', f, ns, cur);
    AtomGrows(f, a, ns, cur);
    var from, from' := AtomNode(f, a, ns, cur), AtomNode(g, a, ns', cur');
    m' := m;
    if cur.Some? {
      ExtendsTrans(from.0, from.0.Emit(Copy(f.param[cur.value], from.1)), Build(x.p));
      ExtendsTrans(f, from.0, Build(x.p));
      m' := AtomMapped(x, v, g, m, a, ns', cur', f, ns, cur);
      ParamMaps(x, v, g, m, ns', f, ns, cur);
      SameParams(g, a, ns', cur');
      EmitMapped(x, from'.0, m', Copy(g.param[cur.value], from'.1), from.0, Copy(f.param[cur.value], from.1));
    } else {
      m' := AtomMapped(x, v, g, m, a, ns', cur', f, ns, cur);
    }
  }

  lemma SameParams(g: Flow, a: Atom, ns: seq<Node>, cur: Option<nat>)
    ensures AtomNode(g, a, ns, cur).0.param == g.param
  {}

  lemma ParamMaps(
    x: Cloning, v: View, g: Flow, m: Nodes, ns': seq<Node>, f: Flow, ns: seq<Node>, cur: Option<nat>)
    requires Spot(x, v, g, m, ns', cur, f, ns, cur) && v.Original? && cur.Some? && Extends(f, Build(x.p))
    ensures cur.value < |g.param| && cur.value < |f.param| && Maps(m, g.param[cur.value], f.param[cur.value])
  {
    hide Build, CstrMaps, ScopeMaps, FieldsMap, SlotMaps, Linked;
  }

  function ViewArm(v: View, d: Decisions, i: nat, arm: TailArm): TailArm
    requires v.Original? ==> i + Applies(arm.body) <= |d|
  {
    TailArm(arm.con, arm.binders, ViewTail(Deeper(v, arm.binders), d, i, arm.body))
  }

  lemma ViewArmsSnoc(v: View, d: Decisions, i: nat, front: seq<TailArm>, last: TailArm)
    requires v.Original? ==> i + ArmApplies(front) + Applies(last.body) <= |d| && i + ArmApplies(front + [last]) <= |d|
    ensures ViewArms(v, d, i, front + [last]) == ViewArms(v, d, i, front) + [ViewArm(v, d, i + ArmApplies(front), last)]
  {
    hide RewTail, ShiftTail, Applies;
    var arms := front + [last];
    assert arms[..|arms| - 1] == front && arms[|arms| - 1] == last;
    match v
    case Original =>
    case InClone(depth, size) => CloneArmsSnoc(arms, depth, size);
  }

  lemma CloneArmsSnoc(arms: seq<TailArm>, depth: nat, size: nat)
    requires arms != []
    ensures var k := |arms| - 1;
      CloneArms(arms, depth, size)[..k] == CloneArms(arms[..k], depth, size)
      && CloneArms(arms, depth, size)[k]
         == TailArm(arms[k].con, arms[k].binders, ShiftTail(arms[k].body, depth + arms[k].binders, size))
  {
    hide ShiftTail;
  }

  /** How the graph grows over the last arm. */
  lemma LastArmGrows(x: Cloning, f: Flow, front: seq<TailArm>, last: TailArm, ns: seq<Node>, cur: Option<nat>)
    requires Wf(f) && Place(f, ns, cur) && Extends(GenArms(f, front + [last], ns, cur), Build(x.p))
    ensures var e := GenArms(f, front, ns, cur);
      var b := Binders(e, last.binders);
      Grown(f, e) && Grown(e, b.0) && NodesIn(b.0, b.1) && GenArms(f, front + [last], ns, cur) == GenTail(b.0, last.body, b.1 + ns, cur)
      && Extends(GenTail(b.0, last.body, b.1 + ns, cur), Build(x.p)) && Extends(b.0, Build(x.p)) && Extends(e, Build(x.p))
      && |e.heads| == |f.heads| + ArmApplies(front) && b.0.heads == e.heads
  {
    hide Build, Wf, GenTail, Binders, Linked, Applies, Extends;
    var arms := front + [last];
    var k := |arms| - 1;
    assert arms[..k] == front && arms[k] == last;
    var e := GenArms(f, front, ns, cur);
    var b := Binders(e, last.binders);
    ArmStart(f, arms, k, ns, cur);
    ArmsGrow(f, front, ns, cur);
    BindersGrow(e, last.binders);
    ExtendsTrans(b.0, GenTail(b.0, last.body, b.1 + ns, cur), Build(x.p));
    ExtendsTrans(e, b.0, Build(x.p));
    ArmHeads(f, front, ns, cur);
    BinderHeads(e, last.binders);
  }

  /** The last arm's binders, on both sides. */
  lemma ArmEntered(
    x: Cloning, v: View, g: Flow, m: Nodes, n: nat, ns': seq<Node>, cur': Option<nat>, f: Flow, ns: seq<Node>, cur: Option<nat>)
    returns (m': Nodes)
    requires Ready(x) && Spot(x, v, g, m, ns', cur', f, ns, cur)
    requires Grown(f, Binders(f, n).0) && NodesIn(Binders(f, n).0, Binders(f, n).1) && Extends(Binders(f, n).0, Build(x.p))
    ensures var b, b' := Binders(f, n), Binders(g, n);
      SubMap(m, m') && Spot(x, Deeper(v, n), b'.0, m', b'.1 + ns', cur', b.0, b.1 + ns, cur)
  {
    hide Build, FlowMaps, Wf, Ready, Spot, Binders, Linked, Extends, SubMap;
    SpotPlace(x, v, g, m, ns', cur', f, ns, cur);
    SpotFlow(x, v, g, m, ns', cur', f, ns, cur);
    var b, b' := Binders(f, n), Binders(g, n);
    m' := BindersMapped(x, g, m, n, f);
    SpotMore(x, v, g, m, ns', cur', f, ns, cur, b'.0, m', b.0);
    SpotDeeper(x, v, b'.0, m', b'.1, b.1, ns', cur', b.0, ns, cur);
  }

  lemma {:induction false} ArmsMapped(
    x: Cloning, v: View, g: Flow, m: Nodes, i: nat, arms: seq<TailArm>, ns': seq<Node>, cur': Option<nat>, f: Flow, ns: seq<Node>, cur: Option<nat>)
    returns (m': Nodes)
    requires Ready(x) && Spot(x, v, g, m, ns', cur', f, ns, cur)
    requires forall k :: 0 <= k < |arms| ==> ViewTailBelow(v, arms[k].body) && Plain(arms[k].body, f.index.Keys) == true
    requires Counted(x, v, f, i, ArmApplies(arms)) && Extends(GenArms(f, arms, ns, cur), Build(x.p))
    ensures SubMap(m, m') && FlowMaps(x, GenArms(g, ViewArms(v, x.d, i, arms), ns', cur'), m')
    decreases arms, 0
  {
    hide Build, FlowMaps, Wf, Ready, Spot, GenTail, Plain, ViewTailBelow, Binders, ViewArms, ViewTail, Linked, Applies;
    SpotPlace(x, v, g, m, ns', cur', f, ns, cur);
    if arms == [] {
      m' := m;
      SpotFlow(x, v, g, m, ns', cur', f, ns, cur);
    } else {
      var k := |arms| - 1;
      var last, front := arms[k], arms[..k];
      assert arms == front + [last];
      ViewArmsSnoc(v, x.d, i, front, last);
      var e, h := GenArms(f, front, ns, cur), GenArms(g, ViewArms(v, x.d, i, front), ns', cur');
      var b, b' := Binders(e, last.binders), Binders(h, last.binders);
      LastArmGrows(x, f, front, last, ns, cur);
      var m1 := ArmsMapped(x, v, g, m, i, front, ns', cur', f, ns, cur);
      SpotMore(x, v, g, m, ns', cur', f, ns, cur, h, m1, e);
      var m2 := ArmEntered(x, v, h, m1, last.binders, ns', cur', e, ns, cur);
      DeeperBelow(v, last.binders, last.body);
      m' := TailMapped(x, Deeper(v, last.binders), b'.0, m2, i + ArmApplies(front), last.body, b'.1 + ns', cur', b.0, b.1 + ns, cur);
    }
  }

  lemma DeeperBelow(v: View, n: nat, t: Tail)
    requires ViewTailBelow(v, t)
    ensures ViewTailBelow(Deeper(v, n), t)
  {}

  // ---- whole programs ----

  lemma NamesApart(p: AnfProgram, d: Decisions, clones: seq<AnfFunc>, keys: seq<Capspec.Key>)
    requires UniqueFuncs(p.funcs) && Capspec.NoClones(p) && Capspec.CloneTable(p, clones, keys) && |d| == ProgramApplies(p)
    ensures UniqueFuncs(Capspec.OutFor(d, clones, p).funcs)
  {
    hide RewTail, RewFuncs, Applies, SpecializeBody;
    var q := Capspec.OutFor(d, clones, p);
    forall i, j | 0 <= i < j < |q.funcs| ensures q.funcs[i].name != q.funcs[j].name {
      if i < |p.funcs| { FuncRewritten(Cloned, d, p.funcs, |p.funcs|, i); }
      if j < |p.funcs| {
        FuncRewritten(Cloned, d, p.funcs, |p.funcs|, j);
      } else {
        assert Capspec.IsClone(p, clones[j - |p.funcs|], keys[j - |p.funcs|]);
        if i < |p.funcs| { assert p.funcs[i] in p.funcs; }
      }
    }
  }

  ghost function Out(x: Cloning): AnfProgram
    requires Ready(x)
  {
    Capspec.OutFor(x.d, x.clones, x.p)
  }

  /** What a clone copies: a known function that never jumps, with its captures' literals. */
  lemma KeyFacts(x: Cloning, j: nat) returns (s: Node)
    requires Ready(x) && j < |x.clones|
    ensures var i := KeyIndex(x, j); var f := Build(x.p);
      i < |x.p.funcs| && j < |x.keys| && x.p.funcs[i].name == x.keys[j].0 && f.index == IndexOf(x.p.funcs)
      && |f.param| == |f.ret| == |x.p.funcs|
      && x.clones[j].body == SpecializeBody(x.p.funcs[i].body, x.keys[j].1) && EnvBelow(x.p.funcs[i].body, |x.keys[j].1|) == true
      && s in f.cloFields && f.cloFields[s].name == x.keys[j].0 && Capspec.LitsKnown(x.sol, f.cloFields[s].caps, x.keys[j].1)
  {
    hide Build, EnvBelow, SpecializeBody, Solves, NothingEscapes, SitesNamed, Plain, Capspec.Decision, Capspec.NoClones;
    var f := Build(x.p);
    var key := x.keys[j];
    assert Capspec.IsClone(x.p, x.clones[j], key) && Capspec.KeyUsed(x.p, f, x.sol, key);
    var head :| head in f.heads && Capspec.Specializable(x.p, f, x.sol, head, key);
    s :| At(x.sol, head).cloSites == {s} && Capspec.SiteIs(f, x.sol, s, key);
    BuildGrows(x.p);
    CfaRuns.IndexOfBuild(x.p);
    CfaRuns.SiteLinked(f, s);
    CfaRuns.LinkedKnown(f, f.cloFields[s]);
    var i := f.index[key.0];
    CfaRuns.LookupAt(x.p.funcs, i);
    Capspec.NotRecursive(x.p, i);
  }

  /** A clone's literal flows into the environment slot it replaces. */
  lemma LiteralFlows(x: Cloning, j: nat, s: Node, k: nat)
    requires Ready(x) && j < |x.keys| && s in Build(x.p).cloFields && Build(x.p).cloFields[s].name == x.keys[j].0
    requires Capspec.LitsKnown(x.sol, Build(x.p).cloFields[s].caps, x.keys[j].1) && k < |x.keys[j].1|
    ensures var f := Build(x.p); var lit := x.keys[j].1[k];
      (KeyIndex(x, j), k) in f.envSlot && IsLiteral(lit)
      && Just(lit).Leq(At(x.sol, f.envSlot[(KeyIndex(x, j), k)]).lit)
  {
    hide Build, Ready, Linked;
    var f := Build(x.p);
    var caps := f.cloFields[s].caps;
    BuildGrows(x.p);
    CfaRuns.SiteLinked(f, s);
    CfaRuns.LinkedKnown(f, f.cloFields[s]);
    CfaRuns.LinkedAt(f, f.cloFields[s], k);
    HoldsIn(x, Copy(f.envSlot[(f.index[x.keys[j].0], k)], caps[k]));
    LitTracked(x, caps[k]);
    assert At(x.sol, caps[k]).lit == Just(x.keys[j].1[k]);
  }

  lemma LitTracked(x: Cloning, n: Node)
    requires Ready(x) && At(x.sol, n).lit.Just?
    ensures IsLiteral(At(x.sol, n).lit.lit)
  {
    hide Build, Solves, NothingEscapes, SitesNamed, PlainProgram, Capspec.NoClones, Capspec.EnvFits, Capspec.CloneTable,
      Capspec.DecisionsOf, Capspec.KeysUsed, ProgramApplies;
  }

  /** Parameters, returns and the two shared nodes. */
  function StartTo(x: Cloning, n: Node): Node {
    var f, k := Build(x.p), |x.p.funcs| + |x.clones|;
    if n < k then (if Callee(x, n) < |f.param| then f.param[Callee(x, n)] else 0)
    else if n < 2 * k then (if Callee(x, n - k) < |f.ret| then f.ret[Callee(x, n - k)] else 0)
    else if n == 2 * k then f.entryRet else f.openNode
  }

  lemma CalleeIn(x: Cloning, i: nat)
    requires Ready(x) && i < |x.p.funcs| + |x.clones|
    ensures Callee(x, i) < |x.p.funcs| && |Build(x.p).param| == |Build(x.p).ret| == |x.p.funcs|
  {
    hide Build, Ready, EnvBelow, SpecializeBody, KeyIndex, Capspec.LitsKnown;
    CfaRuns.IndexOfBuild(x.p);
    if i >= |x.p.funcs| { var s := KeyFacts(x, i - |x.p.funcs|); }
  }

  lemma OutFuncs(x: Cloning)
    requires Ready(x)
    ensures |Out(x).funcs| == |x.p.funcs| + |x.clones| && UniqueFuncs(Out(x).funcs)
    ensures forall l :: l in IndexOf(x.p.funcs) ==> l in IndexOf(Out(x).funcs) && IndexOf(Out(x).funcs)[l] == IndexOf(x.p.funcs)[l]
    ensures forall j :: 0 <= j < |x.clones| ==>
      x.clones[j].name in IndexOf(Out(x).funcs) && IndexOf(Out(x).funcs)[x.clones[j].name] == |x.p.funcs| + j
  {
    hide Build, RewTail, RewFuncs, Applies, SpecializeBody, Solves, NothingEscapes, SitesNamed, Plain, Capspec.EnvFits, Capspec.DecisionsOf, Capspec.KeysUsed, IndexOf;
    var q := Out(x);
    NamesApart(x.p, x.d, x.clones, x.keys);
    forall l | l in IndexOf(x.p.funcs) ensures l in IndexOf(q.funcs) && IndexOf(q.funcs)[l] == IndexOf(x.p.funcs)[l] {
      var i := IndexOf(x.p.funcs)[l];
      FuncRewritten(Cloned, x.d, x.p.funcs, |x.p.funcs|, i);
      CfaRuns.IndexAt(q.funcs, i);
    }
    forall j | 0 <= j < |x.clones|
      ensures x.clones[j].name in IndexOf(q.funcs) && IndexOf(q.funcs)[x.clones[j].name] == |x.p.funcs| + j
    {
      assert q.funcs[|x.p.funcs| + j] == x.clones[j];
      CfaRuns.IndexAt(q.funcs, |x.p.funcs| + j);
    }
  }

  lemma StartMapped(x: Cloning) returns (m: Nodes)
    requires Ready(x)
    ensures FlowMaps(x, Start(Out(x).funcs), m)
  {
    hide Build, Out, BaseMaps, IndexOf, Ready, StartTo;
    var g, k := Start(Out(x).funcs), |x.p.funcs| + |x.clones|;
    OutFuncs(x);
    BuildStart(x.p);
    m := map n: nat | 0 <= n < 2 * k + 2 :: StartTo(x, n);
    StartBase(x, g, m);
    HoldsIn(x, Open(Build(x.p).openNode));
    SharedOpen(x, g, m);
    assert Image(x, m, Open(g.openNode)) == Open(Build(x.p).openNode);
    assert CstrMaps(x, m, Open(g.openNode));
    StartParts(Out(x).funcs);
  }

  lemma StartParts(funcs: seq<AnfFunc>)
    ensures var g := Start(funcs);
      g.cstrs == [Open(g.openNode)] && g.n == 2 * |funcs| + 2 && g.envSlot == map[] && g.fields == map[]
  {}

  lemma SharedOpen(x: Cloning, g: Flow, m: Nodes)
    requires BaseMaps(x, g, m)
    ensures Maps(m, g.openNode, Build(x.p).openNode)
  {
    hide Build, Callee;
  }

  lemma StartBase(x: Cloning, g: Flow, m: Nodes)
    requires Ready(x) && g == Start(Out(x).funcs) && |Out(x).funcs| == |x.p.funcs| + |x.clones|
    requires forall n: nat :: n < 2 * (|x.p.funcs| + |x.clones|) + 2 ==> Maps(m, n, StartTo(x, n))
    ensures BaseMaps(x, g, m)
  {
    hide Build, Out, Callee, IndexOf, Ready;
    var k := |x.p.funcs| + |x.clones|;
    OutFuncs(x);
    BuildStart(x.p);
    forall i | 0 <= i < k
      ensures Callee(x, i) < |Build(x.p).param| && Maps(m, g.param[i], Build(x.p).param[Callee(x, i)])
      ensures Callee(x, i) < |Build(x.p).ret| && Maps(m, g.ret[i], Build(x.p).ret[Callee(x, i)])
    {
      CalleeIn(x, i);
      assert Maps(m, i, StartTo(x, i)) && Maps(m, k + i, StartTo(x, k + i));
    }
    assert Maps(m, 2 * k, StartTo(x, 2 * k)) && Maps(m, 2 * k + 1, StartTo(x, 2 * k + 1));
  }

  lemma BuildStart(p: AnfProgram)
    ensures Build(p).index == IndexOf(p.funcs) && Open(Build(p).openNode) in Build(p).cstrs
    ensures forall l :: l in Build(p).index ==> Build(p).index[l] < |p.funcs|
  {
    hide Build, Linked, IndexOf;
    BuildGrows(p);
    CfaRuns.IndexOfBuild(p);
  }

  /** The functions of the original program, rewritten. */
  lemma {:induction false} FuncsMapped(x: Cloning, i: nat) returns (m: Nodes)
    requires Ready(x) && i <= |x.p.funcs|
    ensures i <= |Out(x).funcs| && FlowMaps(x, GenFuncs(Start(Out(x).funcs), Out(x).funcs, i), m)
  {
    hide Build, Out, FlowMaps, Ready, GenTail, Start, Wf, Plain, Linked, Extends, Place;
    OutFuncs(x);
    if i == 0 {
      m := StartMapped(x);
    } else {
      var k := i - 1;
      var g, f, t := GenFuncs(Start(Out(x).funcs), Out(x).funcs, k), CfaRuns.FuncState(x.p, k), x.p.funcs[k].body;
      var m0 := FuncsMapped(x, k);
      CfaRuns.BodyPlace(x.p, k);
      OriginalSpot(x, g, m0, k);
      OutFunc(x, k);
      m := TailMapped(x, Original, g, m0, FuncApplies(x.p.funcs, k), t, [g.param[k]], Some(k), f, [Build(x.p).param[k]], Some(k));
    }
  }

  /** Function `k` of the specialized program. */
  lemma OutFunc(x: Cloning, k: nat)
    requires Ready(x) && k < |x.p.funcs|
    ensures FuncApplies(x.p.funcs, k) + Applies(x.p.funcs[k].body) <= |x.d|
    ensures k < |Out(x).funcs| && Out(x).funcs[k].body == RewTail(Cloned, x.d, FuncApplies(x.p.funcs, k), x.p.funcs[k].body)
    ensures |CfaRuns.FuncState(x.p, k).heads| == FuncApplies(x.p.funcs, k)
    ensures Plain(x.p.funcs[k].body, Build(x.p).index.Keys) == true
  {
    hide Build, RewTail, Applies, SpecializeBody, Solves, NothingEscapes, SitesNamed, Plain, Capspec.EnvFits, Capspec.DecisionsOf, Capspec.KeysUsed, Capspec.CloneTable, GenTail;
    FuncRewritten(Cloned, x.d, x.p.funcs, |x.p.funcs|, k);
    FuncHeads(x.p.funcs, k);
    CfaRuns.IndexOfBuild(x.p);
    assert x.p.funcs[k] in x.p.funcs;
  }

  lemma OriginalSpot(x: Cloning, g: Flow, m: Nodes, k: nat)
    requires Ready(x) && FlowMaps(x, g, m) && k < |x.p.funcs|
    ensures k < |g.param| && k < |Build(x.p).param|
    ensures Spot(x, Original, g, m, [g.param[k]], Some(k), CfaRuns.FuncState(x.p, k), [Build(x.p).param[k]], Some(k))
  {
    hide Build, Ready, Wf, CstrMaps, FieldsMap, SlotMaps, GenTail, Extends, KeyIndex;
    CfaRuns.BodyPlace(x.p, k);
    assert Callee(x, k) == k;
    assert Maps(m, g.param[k], Build(x.p).param[k]);
  }

  /** A clone's literals, bound in front of its body, stand for the environment slots they replace. */
  lemma {:induction false} LitsMapped(
    x: Cloning, j: nat, s: Node, g: Flow, m: Nodes, k: nat, body: Tail, ns': seq<Node>, f: Flow, ns: seq<Node>)
    returns (m': Nodes)
    requires Ready(x) && j < |x.clones| && j < |x.keys| && k <= |x.keys[j].1|
    requires s in Build(x.p).cloFields && Build(x.p).cloFields[s].name == x.keys[j].0
    requires Capspec.LitsKnown(x.sol, Build(x.p).cloFields[s].caps, x.keys[j].1)
    requires Spot(x, InClone(0, k), g, m, ns', Some(|x.p.funcs| + j), f, ns, Some(KeyIndex(x, j)))
    requires EnvBelow(body, |x.keys[j].1|) && Plain(body, f.index.Keys) && Extends(GenTail(f, body, ns, Some(KeyIndex(x, j))), Build(x.p))
    ensures var lits := x.keys[j].1;
      FlowMaps(x, GenTail(g, BindAll(lits[k..], ShiftTail(body, 0, |lits|)), ns', Some(|x.p.funcs| + j)), m')
    decreases |x.keys[j].1| - k
  {
    hide Build, FlowMaps, Ready, Wf, Plain, EnvBelow, ShiftTail, Capspec.LitsKnown, KeyIndex, Extends, Spot;
    var lits, cur' := x.keys[j].1, Some(|x.p.funcs| + j);
    if k == |lits| {
      m' := TailMapped(x, InClone(0, k), g, m, 0, body, ns', cur', f, ns, Some(KeyIndex(x, j)));
    } else {
      LiteralFlows(x, j, s, k);
      SpotFlow(x, InClone(0, k), g, m, ns', cur', f, ns, Some(KeyIndex(x, j)));
      var m1 := FreshMaps(x, g, m, Build(x.p).envSlot[(KeyIndex(x, j), k)]);
      var h := g.Fresh().Emit(Literal(g.n, lits[k]));
      EmitMaps(x, g.Fresh(), m1, Literal(g.n, lits[k]));
      LitSpot(x, g, m, j, k, ns', f, ns, h, m1);
      m' := LitsMapped(x, j, s, h, m1, k + 1, body, [g.n] + ns', f, ns);
      assert lits[k..][1..] == lits[k + 1..];
      LiteralGen(g.Fresh(), lits[k], g.n, ns', cur');
    }
  }

  lemma LiteralGen(g: Flow, lit: Comp, node: Node, ns: seq<Node>, cur: Option<nat>)
    requires IsLiteral(lit)
    ensures GenComp(g, lit, node, ns, cur) == g.Emit(Literal(node, lit))
  {}

  /** One more literal in scope. */
  lemma LitSpot(
    x: Cloning, g: Flow, m: Nodes, j: nat, k: nat, ns': seq<Node>, f: Flow, ns: seq<Node>, h: Flow, m': Nodes)
    requires Spot(x, InClone(0, k), g, m, ns', Some(|x.p.funcs| + j), f, ns, Some(KeyIndex(x, j)))
    requires SubMap(m, m') && FlowMaps(x, h, m') && SlotMaps(Build(x.p), m', KeyIndex(x, j), k, g.n)
    ensures Spot(x, InClone(0, k + 1), h, m', [g.n] + ns', Some(|x.p.funcs| + j), f, ns, Some(KeyIndex(x, j)))
  {
    hide Build, FlowMaps, Wf, KeyIndex;
    var cur, w, all' := Some(KeyIndex(x, j)), InClone(0, k + 1), [g.n] + ns';
    ScopeMapsMore(x, InClone(0, k), m, m', ns', ns, cur);
    forall i | 0 <= i < |ns| ensures OuterMaps(m', all', ns, w.size, i) { assert OuterMaps(m', ns', ns, k, i); }
    forall i | 0 <= i < w.size ensures LitMaps(Build(x.p), m', cur.value, all', 0, w.size, i) {
      if i < k { assert LitMaps(Build(x.p), m', cur.value, ns', 0, k, i); }
    }
  }

  lemma CloneSpot(x: Cloning, g: Flow, m: Nodes, j: nat)
    requires Ready(x) && FlowMaps(x, g, m) && j < |x.clones|
    ensures var i := KeyIndex(x, j);
      |x.p.funcs| + j < |g.param| && i < |x.p.funcs| && i < |Build(x.p).param|
      && Spot(x, InClone(0, 0), g, m, [g.param[|x.p.funcs| + j]], Some(|x.p.funcs| + j),
              CfaRuns.FuncState(x.p, i), [Build(x.p).param[i]], Some(i))
  {
    hide Build, Ready, Wf, CstrMaps, FieldsMap, SlotMaps, GenTail, Extends, KeyIndex;
    CalleeIn(x, |x.p.funcs| + j);
    var i := KeyIndex(x, j);
    CfaRuns.BodyPlace(x.p, i);
    assert Callee(x, |x.p.funcs| + j) == i;
    var ns', ns := [g.param[|x.p.funcs| + j]], [Build(x.p).param[i]];
    assert OuterMaps(m, ns', ns, 0, 0);
  }

  lemma CloneMapped(x: Cloning, j: nat, g: Flow, m: Nodes) returns (m': Nodes)
    requires Ready(x) && j < |x.clones| && FlowMaps(x, g, m)
    ensures |x.p.funcs| + j < |g.param|
    ensures FlowMaps(x, GenTail(g, x.clones[j].body, [g.param[|x.p.funcs| + j]], Some(|x.p.funcs| + j)), m')
  {
    hide Build, Out, FlowMaps, Ready, GenTail, Wf, Plain, Linked, Extends, Spot, EnvBelow, ShiftTail, BindAll, Capspec.LitsKnown, KeyIndex;
    var s := KeyFacts(x, j);
    var i := KeyIndex(x, j);
    CloneSpot(x, g, m, j);
    CfaRuns.BodyPlace(x.p, i);
    OutFunc(x, i);
    m' := LitsMapped(x, j, s, g, m, 0, x.p.funcs[i].body, [g.param[|x.p.funcs| + j]], CfaRuns.FuncState(x.p, i), [Build(x.p).param[i]]);
    assert x.keys[j].1[0..] == x.keys[j].1;
  }

  /** One more clone. */
  lemma NextMapped(x: Cloning, k: nat, m: Nodes) returns (m': Nodes)
    requires Ready(x) && k < |x.clones| && |Out(x).funcs| == |x.p.funcs| + |x.clones|
    requires FlowMaps(x, GenFuncs(Start(Out(x).funcs), Out(x).funcs, |x.p.funcs| + k), m)
    ensures FlowMaps(x, GenFuncs(Start(Out(x).funcs), Out(x).funcs, |x.p.funcs| + k + 1), m')
  {
    hide Build, Out, FlowMaps, Ready, GenTail, Start;
    OutClone(x, k);
    m' := CloneMapped(x, k, GenFuncs(Start(Out(x).funcs), Out(x).funcs, |x.p.funcs| + k), m);
  }

  /** The clones. */
  lemma {:induction false} ClonesMapped(x: Cloning, j: nat) returns (m: Nodes)
    requires Ready(x) && j <= |x.clones| && |Out(x).funcs| == |x.p.funcs| + |x.clones|
    ensures FlowMaps(x, GenFuncs(Start(Out(x).funcs), Out(x).funcs, |x.p.funcs| + j), m)
  {
    hide Build, Out, FlowMaps, Ready, GenFuncs, Start;
    if j == 0 {
      m := FuncsMapped(x, |x.p.funcs|);
    } else {
      var m0 := ClonesMapped(x, j - 1);
      m := NextMapped(x, j - 1, m0);
    }
  }

  lemma OutClone(x: Cloning, j: nat)
    requires Ready(x) && j < |x.clones|
    ensures |x.p.funcs| + j < |Out(x).funcs| && Out(x).funcs[|x.p.funcs| + j] == x.clones[j]
  {
    hide Build, RewTail, Applies, Solves, NothingEscapes, SitesNamed, PlainProgram, Capspec.EnvFits, Capspec.DecisionsOf, Capspec.KeysUsed, Capspec.CloneTable;
  }

  /** The whole graph of the specialized program maps. */
  lemma BuildMapped(x: Cloning) returns (m: Nodes)
    requires Ready(x)
    ensures FlowMaps(x, Build(Out(x)), m)
  {
    hide Out, FlowMaps, Ready, GenTail, Start, GenFuncs;
    OutFuncs(x);
    var m0 := ClonesMapped(x, |x.clones|);
    m := EntryMapped(x, GenFuncs(Start(Out(x).funcs), Out(x).funcs, |x.p.funcs| + |x.clones|), m0);
  }

  lemma EntryMapped(x: Cloning, g: Flow, m: Nodes) returns (m': Nodes)
    requires Ready(x) && FlowMaps(x, g, m)
    ensures FlowMaps(x, GenTail(g, Out(x).entry, [], None), m')
  {
    hide Out, FlowMaps, Ready, GenTail, Wf, Plain, Start, GenFuncs, Spot, Applies, RewTail;
    var n := |x.p.funcs|;
    var f := GenFuncs(Start(x.p.funcs), x.p.funcs, n);
    FuncsGrow(x.p.funcs, n);
    FuncHeads(x.p.funcs, n);
    OutEntry(x);
    EntrySpot(x, g, m, f);
    SelfExtends(Build(x.p));
    m' := TailMapped(x, Original, g, m, FuncApplies(x.p.funcs, n), x.p.entry, [], None, f, [], None);
  }

  lemma SelfExtends(f: Flow)
    ensures Extends(f, f)
  {}

  lemma OutEntry(x: Cloning)
    requires Ready(x)
    ensures FuncApplies(x.p.funcs, |x.p.funcs|) + Applies(x.p.entry) <= |x.d|
    ensures Out(x).entry == RewTail(Cloned, x.d, FuncApplies(x.p.funcs, |x.p.funcs|), x.p.entry)
    ensures Plain(x.p.entry, IndexOf(x.p.funcs).Keys) == true
  {
    hide Build, RewTail, Applies, Solves, NothingEscapes, SitesNamed, Capspec.EnvFits, Capspec.DecisionsOf, Capspec.KeysUsed, Capspec.CloneTable, Plain;
  }

  lemma EntrySpot(x: Cloning, g: Flow, m: Nodes, f: Flow)
    requires FlowMaps(x, g, m) && Grown(Start(x.p.funcs), f) && f == GenFuncs(Start(x.p.funcs), x.p.funcs, |x.p.funcs|)
    ensures Spot(x, Original, g, m, [], None, f, [], None) && f.index == IndexOf(x.p.funcs)
  {
    hide Build, FlowMaps, Wf, GenFuncs;
    CfaRuns.IndexOfBuild(x.p);
  }

  // ---- a solution of the specialized program ----

  /** What a node of the specialized program holds, from what the node it maps to holds: the sites are those
      that map to its sites. */
  function Pull(m: Nodes, v: Av): Av {
    v.(sites := (set s | s in m && m[s] in v.sites), cloSites := (set s | s in m && m[s] in v.cloSites))
  }

  function PullSol(x: Cloning, m: Nodes, n: nat): (r: Solution)
    ensures |r| == n
  {
    seq(n, k requires 0 <= k < n => Pull(m, At(x.sol, To(m, k))))
  }

  lemma PullAt(x: Cloning, g: Flow, m: Nodes, n: Node)
    requires FlowMaps(x, g, m) && n in m
    ensures At(PullSol(x, m, g.n), n) == Pull(m, At(x.sol, m[n]))
  {
    hide Build, BaseMaps, CstrMaps, FieldsMap, SlotMaps;
  }

  lemma PullLeq(x: Cloning, g: Flow, m: Nodes, a: Node, b: Node)
    requires FlowMaps(x, g, m) && a in m && b in m && At(x.sol, m[a]).Leq(At(x.sol, m[b]))
    ensures At(PullSol(x, m, g.n), a).Leq(At(PullSol(x, m, g.n), b))
  {
    hide FlowMaps, PullSol;
    PullAt(x, g, m, a);
    PullAt(x, g, m, b);
  }

  lemma FieldsAt(x: Cloning, g: Flow, m: Nodes, s: Node)
    requires FlowMaps(x, g, m) && s in g.fields
    ensures FieldsMap(Build(x.p), m, s, g.fields[s])
  {
    hide Build, BaseMaps, CstrMaps, FieldsMap, SlotMaps;
  }

  /** A function the original program knows has corresponding parameters and returns. */
  lemma FuncNodes(x: Cloning, g: Flow, m: Nodes, i: nat)
    requires FlowMaps(x, g, m) && i < |g.param| && i < |g.ret|
    ensures var f := Build(x.p);
      Callee(x, i) < |f.param| && Callee(x, i) < |f.ret|
      && Maps(m, g.param[i], f.param[Callee(x, i)]) && Maps(m, g.ret[i], f.ret[Callee(x, i)])
  {
    hide Build, CstrMaps, FieldsMap, SlotMaps, Callee;
  }

  lemma PullCall(x: Cloning, g: Flow, m: Nodes, i: nat, res: Node, arg: Node)
    requires FlowMaps(x, g, m) && res in m && arg in m
    requires CallFlows(Build(x.p), x.sol, Callee(x, i), m[res], m[arg])
    ensures CallFlows(g, PullSol(x, m, g.n), i, res, arg)
  {
    hide Build, FlowMaps, PullSol, Callee;
    if i < |g.param| && i < |g.ret| {
      FuncNodes(x, g, m, i);
      PullLeq(x, g, m, arg, g.param[i]);
      PullLeq(x, g, m, g.ret[i], res);
    }
  }

  /** A step to a field maps to a step to a field. */
  lemma PullStep(x: Cloning, g: Flow, m: Nodes, a: Node, b: Node)
    requires FlowMaps(x, g, m) && a in m && StepsTo(g, PullSol(x, m, g.n), a, b)
    ensures b in m && StepsTo(Build(x.p), x.sol, m[a], m[b])
  {
    hide Build, FlowMaps, PullSol;
    PullAt(x, g, m, a);
    var s :| s in At(PullSol(x, m, g.n), a).sites && s in g.fields && b in g.fields[s];
    FieldsAt(x, g, m, s);
    var k :| 0 <= k < |g.fields[s]| && g.fields[s][k] == b;
    assert Maps(m, g.fields[s][k], Build(x.p).fields[m[s]][k]);
  }

  lemma {:induction false} PullPath(x: Cloning, g: Flow, m: Nodes, path: seq<Node>, node: Node) returns (image: seq<Node>)
    requires FlowMaps(x, g, m) && node in m && Reaches(g, PullSol(x, m, g.n), path, node)
    ensures |path| > 0 && |image| > 0
    ensures Reaches(Build(x.p), x.sol, image, m[node]) && path[|path| - 1] in m && image[|image| - 1] == m[path[|path| - 1]]
    decreases |path|
  {
    hide Build, FlowMaps, PullSol, StepsTo;
    if |path| == 1 {
      image := [m[node]];
    } else {
      var front, k := path[..|path| - 1], |path| - 2;
      forall i | 0 <= i < |front| - 1 ensures StepsTo(g, PullSol(x, m, g.n), front[i], front[i + 1]) {
        assert StepsTo(g, PullSol(x, m, g.n), path[i], path[i + 1]);
      }
      var before := PullPath(x, g, m, front, node);
      assert StepsTo(g, PullSol(x, m, g.n), path[k], path[k + 1]);
      PullStep(x, g, m, path[k], path[k + 1]);
      image := before + [m[path[k + 1]]];
      forall i | 0 <= i < |image| - 1 ensures StepsTo(Build(x.p), x.sol, image[i], image[i + 1]) {
        if i < |before| - 1 { assert StepsTo(Build(x.p), x.sol, before[i], before[i + 1]); }
      }
    }
  }

  lemma PullEscaped(x: Cloning, g: Flow, m: Nodes, node: Node)
    requires Ready(x) && FlowMaps(x, g, m) && node in m && Escaped(Build(x.p), x.sol, m[node])
    ensures Escaped(g, PullSol(x, m, g.n), node)
  {
    hide Build, FlowMaps, PullSol, Ready, Reaches;
    var sol := PullSol(x, m, g.n);
    forall path | Reaches(g, sol, path, node) ensures |path| > 0 && ParamsOpen(g, sol, At(sol, path[|path| - 1])) {
      var image := PullPath(x, g, m, path, node);
      var n := path[|path| - 1];
      PullAt(x, g, m, n);
      forall l | l in At(sol, n).fns && l in g.index && g.index[l] < |g.param| ensures At(sol, g.param[g.index[l]]).open {
        FnKnown(x, m[n], l);
        KnownIndex(x, g, m, l);
        SameLengths(x, g, m);
        FuncNodes(x, g, m, g.index[l]);
        ParamOpen(x, g, m, l);
      }
    }
  }

  lemma FnKnown(x: Cloning, n: Node, l: FName)
    requires Ready(x) && l in At(x.sol, n).fns
    ensures l in Build(x.p).index
  {
    hide Build, Solves, NothingEscapes, SitesNamed, PlainProgram, Capspec.NoClones, Capspec.EnvFits, Capspec.CloneTable,
      Capspec.DecisionsOf, Capspec.KeysUsed, ProgramApplies;
  }

  lemma ParamOpen(x: Cloning, g: Flow, m: Nodes, l: FName)
    requires FlowMaps(x, g, m) && l in Build(x.p).index && l in g.index && Callee(x, g.index[l]) == Build(x.p).index[l]
    requires g.index[l] < |g.param| && Build(x.p).index[l] < |Build(x.p).param|
    requires At(x.sol, Build(x.p).param[Build(x.p).index[l]]).open
    ensures At(PullSol(x, m, g.n), g.param[g.index[l]]).open
  {
    hide Build, FlowMaps, PullSol, Callee;
    SameLengths(x, g, m);
    FuncNodes(x, g, m, g.index[l]);
    PullAt(x, g, m, g.param[g.index[l]]);
  }

  lemma SameLengths(x: Cloning, g: Flow, m: Nodes)
    requires FlowMaps(x, g, m)
    ensures |g.param| == |g.ret|
  {
    hide Build, CstrMaps, FieldsMap, SlotMaps, Callee;
  }

  /** The pulled solution satisfies what the original one satisfies. */
  lemma PullSat(x: Cloning, g: Flow, m: Nodes, c: Cstr)
    requires Ready(x) && FlowMaps(x, g, m) && CstrMaps(x, m, c)
    ensures Sat(g, PullSol(x, m, g.n), c)
  {
    hide Build, FlowMaps, PullSol, Ready, Escaped, CallFlows, Callee;
    match c
    case Copy(to, from) => PullLeq(x, g, m, from, to);
    case Proj(to, tup, idx) => PullProj(x, g, m, to, tup, idx);
    case Call(res, head, arg) => PullApply(x, g, m, res, head, arg);
    case GlobalCall(res, callee, arg) => PullCall(x, g, m, callee, res, arg);
    case Escape(node) => PullEscaped(x, g, m, node);
    case Closure(node, _) => PullAt(x, g, m, node);
    case Site(node) => PullAt(x, g, m, node);
    case ClosureSite(node) => PullAt(x, g, m, node);
    case Open(node) => PullAt(x, g, m, node);
    case Literal(node, _) => PullAt(x, g, m, node);
    case NotLit(node) => PullAt(x, g, m, node);
  }

  lemma PullProj(x: Cloning, g: Flow, m: Nodes, to: Node, tup: Node, idx: nat)
    requires FlowMaps(x, g, m) && to in m && tup in m && Sat(Build(x.p), x.sol, Cstr.Proj(m[to], m[tup], idx))
    ensures Sat(g, PullSol(x, m, g.n), Cstr.Proj(to, tup, idx))
  {
    hide Build, FlowMaps, PullSol;
    PullAt(x, g, m, to);
    PullAt(x, g, m, tup);
    var sol := PullSol(x, m, g.n);
    forall s | s in At(sol, tup).sites ensures ProjFlows(g, sol, At(sol, to), s, idx) {
      assert ProjFlows(Build(x.p), x.sol, At(x.sol, m[to]), m[s], idx);
      if s in g.fields {
        FieldsAt(x, g, m, s);
        if idx < |g.fields[s]| {
          assert Maps(m, g.fields[s][idx], Build(x.p).fields[m[s]][idx]);
          PullLeq(x, g, m, g.fields[s][idx], to);
        }
      }
    }
  }

  lemma PullApply(x: Cloning, g: Flow, m: Nodes, res: Node, head: Node, arg: Node)
    requires Ready(x) && FlowMaps(x, g, m) && res in m && head in m && arg in m
    requires Sat(Build(x.p), x.sol, Cstr.Call(m[res], m[head], m[arg]))
    ensures Sat(g, PullSol(x, m, g.n), Cstr.Call(res, head, arg))
  {
    hide Build, FlowMaps, PullSol, Ready, Escaped, CallFlows, Callee;
    PullAt(x, g, m, res);
    PullAt(x, g, m, head);
    var sol := PullSol(x, m, g.n);
    forall l | l in At(sol, head).fns && l in g.index ensures CallFlows(g, sol, g.index[l], res, arg) {
      FnKnown(x, m[head], l);
      KnownIndex(x, g, m, l);
      PullCall(x, g, m, g.index[l], res, arg);
    }
    if At(sol, head).open { PullEscaped(x, g, m, arg); }
  }

  // ---- specialization makes nothing escape ----

  /** If no closure escapes in a program, none does in what specialization makes of it. */
  lemma NothingNewEscapes(x: Cloning, sol': Solution) returns (clean': set<Node>)
    requires Ready(x) && Clean(Build(x.p), x.sol, x.clean)
    requires Solves(Build(Out(x)), sol') && forall other :: Solves(Build(Out(x)), other) ==> LeqSol(sol', other)
    ensures Clean(Build(Out(x)), sol', clean') && NothingEscapes(Build(Out(x)), clean')
  {
    hide Build, FlowMaps, Ready, Out, PullSol, Sat, Clean;
    var g := Build(Out(x));
    var m := BuildMapped(x);
    forall c | c in g.cstrs ensures Sat(g, PullSol(x, m, g.n), c) {
      CstrAt(x, g, m, c);
      PullSat(x, g, m, c);
    }
    assert Solves(g, PullSol(x, m, g.n));
    clean' := set n | n in m && m[n] in x.clean;
    CleanPulled(x, g, m, sol', clean');
    forall c | c in g.cstrs && c.Escape? ensures c.node in clean' { CstrAt(x, g, m, c); }
  }

  lemma CstrAt(x: Cloning, g: Flow, m: Nodes, c: Cstr)
    requires FlowMaps(x, g, m) && c in g.cstrs
    ensures CstrMaps(x, m, c)
  {
    hide Build, BaseMaps, CstrMaps, FieldsMap, SlotMaps;
  }

  lemma CleanPulled(x: Cloning, g: Flow, m: Nodes, sol': Solution, clean': set<Node>)
    requires FlowMaps(x, g, m) && Clean(Build(x.p), x.sol, x.clean) && LeqSol(sol', PullSol(x, m, g.n))
    requires clean' == set n | n in m && m[n] in x.clean
    ensures Clean(g, sol', clean')
  {
    hide Build, FlowMaps, PullSol;
    forall n | n in clean'
      ensures At(sol', n).fns == {} && forall s :: s in At(sol', n).sites ==> FieldsClean(g, clean', s)
    {
      PullAt(x, g, m, n);
      assert n < |sol'| ==> sol'[n].Leq(At(PullSol(x, m, g.n), n));
      forall s | s in At(sol', n).sites ensures FieldsClean(g, clean', s) {
        assert FieldsClean(Build(x.p), x.clean, m[s]);
        if s in g.fields {
          FieldsAt(x, g, m, s);
          forall k | 0 <= k < |g.fields[s]| ensures g.fields[s][k] in clean' {
            assert Maps(m, g.fields[s][k], Build(x.p).fields[m[s]][k]);
          }
        }
      }
    }
  }
}
