/** Capture specialization: an apply that can only reach closures built at one site with literal
    captures becomes a direct call of a captureless clone, one clone for each function and literals. */
module Capspec {
  import opened Basics
  import opened Values
  import opened CirLang
  import opened AnfLang
  import opened Cfa
  import opened CfaGrows
  import opened CfaSound
  import opened CfaRuns
  import opened Rewrite
  import opened RewriteProof
  import opened RewriteSites
  import opened Specialize
  import CfaBuilder
  import Defunc

  type Key = (FName, seq<Comp>)

  // ---- what may be specialized ----

  predicate Recursive(p: AnfProgram, name: FName) {
    exists f :: f in p.funcs && f.name == name && f.recursive
  }

  ghost predicate LitsKnown(sol: Solution, caps: seq<Node>, lits: seq<Comp>) {
    |lits| == |caps| && forall k :: 0 <= k < |lits| ==> At(sol, caps[k]).lit == Just(lits[k])
  }

  /** The head can only be a closure of non-recursive `key.0` built with the literals `key.1`. */
  ghost predicate Specializable(p: AnfProgram, f: Flow, sol: Solution, head: Node, key: Key) {
    var v := At(sol, head);
    !v.open && v.sites == {} && !Recursive(p, key.0) && LookupAnf(p.funcs, key.0).Some?
    && exists s :: v.cloSites == {s} && SiteIs(f, sol, s, key)
  }

  ghost predicate SiteIs(f: Flow, sol: Solution, s: Node, key: Key) {
    s in f.cloFields && f.cloFields[s].name == key.0 && LitsKnown(sol, f.cloFields[s].caps, key.1)
  }

  // ---- the clones ----

  ghost predicate IsClone(p: AnfProgram, c: AnfFunc, key: Key) {
    var g := LookupAnf(p.funcs, key.0);
    c.name.Clone? && c.name.base == key.0 && !c.recursive
    && g.Some? && c.body == SpecializeBody(g.value.body, key.1)
  }

  /** Clone `k` specializes `keys[k]`; names and keys are pairwise distinct. */
  ghost predicate CloneTable(p: AnfProgram, clones: seq<AnfFunc>, keys: seq<Key>) {
    && |clones| == |keys| && (forall k :: 0 <= k < |keys| ==> IsClone(p, clones[k], keys[k]))
    && UniqueFuncs(clones)
    && forall j, k :: 0 <= j < k < |keys| ==> keys[j] != keys[k]
  }

  /** A decision is taken exactly when the head may be specialized, and names that key's clone. */
  ghost predicate Decision(p: AnfProgram, f: Flow, sol: Solution, clones: seq<AnfFunc>, keys: seq<Key>, head: Node, d: Option<FName>) {
    match d
    case None => forall key :: !Specializable(p, f, sol, head, key)
    case Some(name) => exists k :: 0 <= k < |clones| && k < |keys| && clones[k].name == name && Specializable(p, f, sol, head, keys[k])
  }

  ghost predicate DecisionsOf(p: AnfProgram, f: Flow, sol: Solution, clones: seq<AnfFunc>, keys: seq<Key>, d: Decisions) {
    |d| == |f.heads| && forall i :: 0 <= i < |d| ==> Decision(p, f, sol, clones, keys, f.heads[i], d[i])
  }

  /** Every clone is made for some head. */
  ghost predicate KeysUsed(p: AnfProgram, f: Flow, sol: Solution, keys: seq<Key>) {
    forall k :: 0 <= k < |keys| ==> KeyUsed(p, f, sol, keys[k])
  }

  ghost predicate KeyUsed(p: AnfProgram, f: Flow, sol: Solution, key: Key) {
    exists head :: head in f.heads && Specializable(p, f, sol, head, key)
  }

  // ---- the pass ----

  class Specializer {
    const p: AnfProgram
    var clones: seq<AnfFunc>
    var keys: seq<Key>
    var nextId: map<FName, nat>

    constructor (p: AnfProgram)
      ensures this.p == p && Valid() && clones == [] && keys == []
    {
      this.p := p;
      clones, keys, nextId := [], [], map[];
    }

    ghost predicate Valid()
      reads this
    {
      CloneTable(p, clones, keys) && forall k :: 0 <= k < |clones| ==> IdTaken(clones[k].name)
    }

    ghost predicate IdTaken(name: FName)
      reads this
    {
      name.Clone? && name.base in nextId && name.index < nextId[name.base]
    }

    /** The clone of `key`: the one made before, or a new one under the function's next number. */
    method CloneName(key: Key) returns (name: FName)
      requires Valid() && LookupAnf(p.funcs, key.0).Some?
      modifies this
      ensures Valid() && old(clones) <= clones && (keys == old(keys) || keys == old(keys) + [key])
      ensures exists k :: 0 <= k < |keys| && clones[k].name == name && keys[k] == key
    {
      hide SpecializeBody;
      for i := 0 to |keys|
        invariant forall k :: 0 <= k < i ==> keys[k] != key
        invariant Valid() && clones == old(clones) && keys == old(keys)
      {
        if keys[i] == key {
          return clones[i].name;
        }
      }
      var id := if key.0 in nextId then nextId[key.0] else 0;
      name := Clone(key.0, id);
      nextId := nextId[key.0 := id + 1];
      var body := SpecializeBody(LookupAnf(p.funcs, key.0).value.body, key.1);
      clones := clones + [AnfFunc(name, false, body)];
      keys := keys + [key];
      assert clones[|keys| - 1].name == name && keys[|keys| - 1] == key;
    }

    /** Read off the literals of the captures, stopping at the first that is not one. */
    method Literals(sol: Solution, caps: seq<Node>) returns (lits: Option<seq<Comp>>)
      ensures lits.Some? ==> LitsKnown(sol, caps, lits.value)
      ensures lits.None? ==> forall ls :: !LitsKnown(sol, caps, ls)
    {
      var found: seq<Comp> := [];
      for i := 0 to |caps|
        invariant |found| == i && forall k :: 0 <= k < i ==> At(sol, caps[k]).lit == Just(found[k])
      {
        var l := At(sol, caps[i]).lit;
        if !l.Just? {
          return None;
        }
        found := found + [l.lit];
      }
      lits := Some(found);
    }

    /** The key of a head that may be specialized. */
    method KeyOf(f: Flow, sol: Solution, head: Node) returns (key: Option<Key>)
      ensures key.Some? ==> Specializable(p, f, sol, head, key.value)
      ensures key.None? ==> forall k :: !Specializable(p, f, sol, head, k)
    {
      var v := At(sol, head);
      key := None;
      if !v.open && v.sites == {} && |v.cloSites| == 1 {
        var s :| s in v.cloSites;
        Defunc.SingletonIs(v.cloSites, s);
        if s in f.cloFields && !Recursive(p, f.cloFields[s].name) && LookupAnf(p.funcs, f.cloFields[s].name).Some? {
          var lits := Literals(sol, f.cloFields[s].caps);
          if lits.Some? {
            assert SiteIs(f, sol, s, (f.cloFields[s].name, lits.value));
            key := Some((f.cloFields[s].name, lits.value));
          }
        }
      }
    }

    method Decide(f: Flow, sol: Solution, head: Node) returns (d: Option<FName>)
      requires Valid()
      modifies this
      ensures Valid() && old(clones) <= clones && old(keys) <= keys
      ensures Decision(p, f, sol, clones, keys, head, d) && (d.None? ==> clones == old(clones))
      ensures forall k :: |old(keys)| <= k < |keys| ==> Specializable(p, f, sol, head, keys[k])
    {
      hide Specializable, SpecializeBody;
      var key := KeyOf(f, sol, head);
      d := None;
      if key.Some? {
        KeyKnown(p, f, sol, head, key.value);
        var name := CloneName(key.value);
        d := Some(name);
      }
    }
  }

  lemma KeyKnown(p: AnfProgram, f: Flow, sol: Solution, head: Node, key: Key)
    requires Specializable(p, f, sol, head, key)
    ensures LookupAnf(p.funcs, key.0).Some?
  {}

  lemma DecisionKept(
    p: AnfProgram, f: Flow, sol: Solution, clones: seq<AnfFunc>, keys: seq<Key>, more: seq<AnfFunc>, moreKeys: seq<Key>,
    head: Node, d: Option<FName>)
    requires Decision(p, f, sol, clones, keys, head, d) && clones <= more && keys <= moreKeys && |clones| == |keys|
    ensures Decision(p, f, sol, more, moreKeys, head, d)
  {
    hide Specializable;
    if d.Some? {
      var k :| 0 <= k < |clones| && clones[k].name == d.value && Specializable(p, f, sol, head, keys[k]);
      assert more[k] == clones[k] && moreKeys[k] == keys[k];
    }
  }

  ghost function OutFor(d: Decisions, clones: seq<AnfFunc>, p: AnfProgram): AnfProgram
    requires ProgramApplies(p) <= |d|
  {
    var r := RewProgram(Cloned, d, p);
    AnfProgram(r.funcs + clones, r.entry)
  }

  /** The head is one closure site `s`, no tuple and nothing unknown; a function of the site's name exists,
      none of that name is recursive, and every capture built there is one literal. */
  ghost predicate OneLiteralSite(p: AnfProgram, f: Flow, sol: Solution, v: Av, s: Node) {
    !v.open && v.sites == {} && v.cloSites == {s} && s in f.cloFields
    && (exists g :: g in p.funcs && g.name == f.cloFields[s].name)
    && (forall g :: g in p.funcs && g.name == f.cloFields[s].name ==> !g.recursive)
    && forall k :: 0 <= k < |f.cloFields[s].caps| ==> At(sol, f.cloFields[s].caps[k]).lit.Just?
  }

  /** The literals a site's captures are. */
  ghost predicate LiteralsAt(f: Flow, sol: Solution, s: Node, lits: seq<Comp>) {
    s in f.cloFields && |lits| == |f.cloFields[s].caps|
    && forall k :: 0 <= k < |lits| ==> At(sol, f.cloFields[s].caps[k]).lit == Just(lits[k])
  }

  /** A direct call, without environment, of a clone of the site's function with those literals in place of
      the captures. */
  ghost predicate CallsClone(p: AnfProgram, f: Flow, sol: Solution, clones: seq<AnfFunc>, s: Node, c: CallSite, r: CallSite)
    requires c.Indirect?
  {
    s in f.cloFields && exists k, g, lits ::
      0 <= k < |clones| && r == Direct(clones[k].name, None, c.arg, c.tail) && !clones[k].recursive
      && g in p.funcs && g.name == f.cloFields[s].name && LiteralsAt(f, sol, s, lits)
      && clones[k].body == SpecializeBody(g.body, lits)
  }

  /** What becomes of an indirect call with head value `v`: a call of the clone when it is one such site. */
  ghost predicate CallSpecialized(p: AnfProgram, f: Flow, sol: Solution, clones: seq<AnfFunc>, v: Av, c: CallSite, r: CallSite)
    requires c.Indirect?
  {
    (forall s :: OneLiteralSite(p, f, sol, v, s) ==> CallsClone(p, f, sol, clones, s, c, r))
    && ((forall s :: !OneLiteralSite(p, f, sol, v, s)) ==> r == c)
  }

  ghost predicate SiteSpecialized(p: AnfProgram, sol: Solution, clones: seq<AnfFunc>, q: AnfProgram, i: nat)
    requires i < |Sites(p)| == |Sites(q)|
  {
    var c, r, k := Sites(p)[i], Sites(q)[i], Indirects(Sites(p)[..i]);
    if c.Direct? then r == c
    else k < |Build(p).heads| && CallSpecialized(p, Build(p), sol, clones, At(sol, Build(p).heads[k]), c, r)
  }

  /** Every indirect call of `p`, the k-th of them with the k-th recorded head, and no other call. */
  ghost predicate AllSpecialized(p: AnfProgram, sol: Solution, clones: seq<AnfFunc>, q: AnfProgram) {
    |Sites(q)| == |Sites(p)| && |Build(p).heads| == Indirects(Sites(p))
    && forall i :: 0 <= i < |Sites(p)| ==> SiteSpecialized(p, sol, clones, q, i)
  }

  /** The functions of the program and its entry, without what was appended. */
  function Own(n: nat, q: AnfProgram): AnfProgram
    requires n <= |q.funcs|
  {
    AnfProgram(q.funcs[..n], q.entry)
  }

  lemma {:induction false} FoundIs(funcs: seq<AnfFunc>, name: FName)
    requires exists g :: g in funcs && g.name == name
    ensures LookupAnf(funcs, name).Some?
  {}

  lemma SiteHasKey(p: AnfProgram, f: Flow, sol: Solution, head: Node, s: Node) returns (key: Key)
    requires OneLiteralSite(p, f, sol, At(sol, head), s)
    ensures Specializable(p, f, sol, head, key) && key.0 == f.cloFields[s].name
  {
    var caps := f.cloFields[s].caps;
    var lits := seq(|caps|, k requires 0 <= k < |caps| => At(sol, caps[k]).lit.lit);
    key := (f.cloFields[s].name, lits);
    FoundIs(p.funcs, key.0);
    assert SiteIs(f, sol, s, key);
  }

  lemma KeyHasSite(p: AnfProgram, f: Flow, sol: Solution, head: Node, key: Key) returns (s: Node)
    requires Specializable(p, f, sol, head, key)
    ensures OneLiteralSite(p, f, sol, At(sol, head), s) && SiteIs(f, sol, s, key)
  {
    s :| At(sol, head).cloSites == {s} && SiteIs(f, sol, s, key);
    var g := LookupAnf(p.funcs, key.0).value;
  }

  lemma OnlySite(p: AnfProgram, f: Flow, sol: Solution, v: Av, s: Node, t: Node)
    requires OneLiteralSite(p, f, sol, v, s) && OneLiteralSite(p, f, sol, v, t)
    ensures s == t
  {
    assert s in v.cloSites;
  }

  lemma DecisionInstalled(
    p: AnfProgram, sol: Solution, clones: seq<AnfFunc>, keys: seq<Key>, head: Node, d: Option<FName>, c: CallSite, r: CallSite)
    requires CloneTable(p, clones, keys) && Decision(p, Build(p), sol, clones, keys, head, d) && c.Indirect?
    requires r == if d.None? then c else Direct(d.value, None, c.arg, c.tail)
    ensures CallSpecialized(p, Build(p), sol, clones, At(sol, head), c, r)
  {
    hide Build, SpecializeBody, Specializable, OneLiteralSite;
    var f, v := Build(p), At(sol, head);
    if d.None? {
      forall s ensures !OneLiteralSite(p, f, sol, v, s) {
        if OneLiteralSite(p, f, sol, v, s) { var key := SiteHasKey(p, f, sol, head, s); }
      }
    } else {
      var k :| 0 <= k < |clones| && clones[k].name == d.value && Specializable(p, f, sol, head, keys[k]);
      var t := KeyHasSite(p, f, sol, head, keys[k]);
      assert IsClone(p, clones[k], keys[k]);
      var g := LookupAnf(p.funcs, keys[k].0).value;
      assert LiteralsAt(f, sol, t, keys[k].1);
      forall s | OneLiteralSite(p, f, sol, v, s) ensures CallsClone(p, f, sol, clones, s, c, r) {
        OnlySite(p, f, sol, v, s, t);
      }
    }
  }

  /** Rewriting by the decisions of the analysis specializes exactly those calls. */
  lemma DecisionsInstalled(p: AnfProgram, sol: Solution, d: Decisions, clones: seq<AnfFunc>, keys: seq<Key>)
    requires CloneTable(p, clones, keys) && DecisionsOf(p, Build(p), sol, clones, keys, d)
    ensures |d| == ProgramApplies(p) && AllSpecialized(p, sol, clones, RewProgram(Cloned, d, p))
  {
    hide Build, Sites, RewProgram, Decision, CallSpecialized, Indirects, CloneTable;
    HeadsAligned(p);
    ProgramResolved(Cloned, d, p);
    var q := RewProgram(Cloned, d, p);
    forall i | 0 <= i < |Sites(p)| ensures SiteSpecialized(p, sol, clones, q, i) {
      CallRewritten(Cloned, d, p, i);
      var c, k := Sites(p)[i], Indirects(Sites(p)[..i]);
      if c.Indirect? { DecisionInstalled(p, sol, clones, keys, Build(p).heads[k], d[k], c, Sites(q)[i]); }
    }
  }

  lemma OwnRewritten(d: Decisions, clones: seq<AnfFunc>, p: AnfProgram)
    requires ProgramApplies(p) <= |d|
    ensures |OutFor(d, clones, p).funcs| == |p.funcs| + |clones| && OutFor(d, clones, p).funcs[|p.funcs|..] == clones
    ensures Own(|p.funcs|, OutFor(d, clones, p)) == RewProgram(Cloned, d, p)
  {
    hide RewTail, RewFuncs, Applies;
    var r := RewProgram(Cloned, d, p);
    assert (r.funcs + clones)[..|p.funcs|] == r.funcs && (r.funcs + clones)[|p.funcs|..] == clones;
  }

  /** Analyze, decide every head while collecting clones, rewrite, and append the clones. */
  method SpecializeProgram(p: AnfProgram)
    returns (q: AnfProgram, ghost sol: Solution, ghost d: Decisions, ghost clones: seq<AnfFunc>, ghost keys: seq<Key>)
    ensures Solves(Build(p), sol) && forall other :: Solves(Build(p), other) ==> LeqSol(sol, other)
    ensures CloneTable(p, clones, keys) && DecisionsOf(p, Build(p), sol, clones, keys, d)
    ensures KeysUsed(p, Build(p), sol, keys)
    ensures |d| == ProgramApplies(p) && q == OutFor(d, clones, p)
    ensures |p.funcs| <= |q.funcs|
    ensures forall s :: Least(Build(p), s) ==> AllSpecialized(p, s, q.funcs[|p.funcs|..], Own(|p.funcs|, q))
  {
    hide Build, Solves, LeqSol, RewFuncs, RewTail, Applies, FuncApplies, Decision, IsClone, Specializable, AllSpecialized;
    var f, solution := CfaBuilder.Analyze(p);
    HeadsAligned(p);
    var sp := new Specializer(p);
    var decisions: Decisions := [];
    for i := 0 to |f.heads|
      invariant sp.Valid() && |decisions| == i
      invariant forall k :: 0 <= k < i ==> Decision(p, f, solution, sp.clones, sp.keys, f.heads[k], decisions[k])
      invariant Undecided(decisions) ==> sp.clones == []
      invariant KeysUsed(p, f, solution, sp.keys)
    {
      ghost var clones0, keys0 := sp.clones, sp.keys;
      var one := sp.Decide(f, solution, f.heads[i]);
      assert KeysUsed(p, f, solution, sp.keys) by {
        forall k | 0 <= k < |sp.keys| ensures KeyUsed(p, f, solution, sp.keys[k]) {
          assert k < |keys0| ==> sp.keys[k] == keys0[k];
        }
      }
      forall k | 0 <= k < i ensures Decision(p, f, solution, sp.clones, sp.keys, f.heads[k], decisions[k]) {
        DecisionKept(p, f, solution, clones0, keys0, sp.clones, sp.keys, f.heads[k], decisions[k]);
      }
      assert Undecided(decisions + [one]) ==> Undecided(decisions) && one.None? by {
        if Undecided(decisions + [one]) {
          assert (decisions + [one])[i].None?;
          forall k | 0 <= k < i ensures decisions[k].None? { assert (decisions + [one])[k] == decisions[k]; }
        }
      }
      decisions := decisions + [one];
    }
    sol, d, clones, keys := solution, decisions, sp.clones, sp.keys;
    DecisionsInstalled(p, sol, d, clones, keys);
    OwnRewritten(d, clones, p);
    forall s | Least(Build(p), s) ensures s == sol { LeastIsOne(Build(p), s, sol); }
    if forall i :: 0 <= i < |decisions| ==> decisions[i].None? {
      RewriteNoFuncs(Cloned, decisions, p.funcs, |p.funcs|);
      RewriteNothing(Cloned, decisions, FuncApplies(p.funcs, |p.funcs|), p.entry);
      assert p.funcs[..|p.funcs|] == p.funcs;
      assert p.funcs + [] == p.funcs;
      q := p;
    } else {
      var rw := new Rewriter(Cloned, decisions);
      var r := rw.Program(p);
      q := AnfProgram(r.funcs + sp.clones, r.entry);
    }
  }

  // ---- the result is preserved ----

  /** The input has no clone yet. */
  ghost predicate NoClones(p: AnfProgram) {
    forall f :: f in p.funcs ==> f.name.FName?
  }

  /** A non-recursive function never jumps, and reads only captures each of its closure sites supplies. */
  ghost predicate EnvFits(p: AnfProgram) {
    var f := Build(p);
    forall s :: s in f.cloFields && f.cloFields[s].name in f.index && f.index[f.cloFields[s].name] < |p.funcs| ==>
      var g := p.funcs[f.index[f.cloFields[s].name]];
      !g.recursive ==> EnvBelow(g.body, |f.cloFields[s].caps|) == true
  }

  lemma {:induction false} LookupSecond(a: seq<AnfFunc>, b: seq<AnfFunc>, k: nat)
    requires UniqueFuncs(b) && k < |b|
    requires forall i :: 0 <= i < |a| ==> a[i].name != b[k].name
    ensures LookupAnf(a + b, b[k].name) == Some(b[k])
    decreases |a|
  {
    if a == [] {
      assert a + b == b;
      LookupAt(b, k);
    } else {
      assert (a + b)[1..] == a[1..] + b;
      LookupSecond(a[1..], b, k);
    }
  }

  lemma CloneFound(plan: Plan, keys: seq<Key>, k: nat)
    requires Sized(plan) && CloneTable(plan.x.p, plan.clones, keys) && k < |plan.clones| && NoClones(plan.x.p)
    ensures LookupAnf(Out(plan), plan.clones[k].name) == Some(plan.clones[k])
  {
    hide Build, RewTail, Applies, LookupAnf, SpecializeBody;
    var funcs := plan.x.p.funcs;
    var a := RewFuncs(plan.kind, plan.d, funcs, |funcs|);
    assert IsClone(plan.x.p, plan.clones[k], keys[k]);
    forall i | 0 <= i < |a| ensures a[i].name != plan.clones[k].name {
      FuncRewritten(plan.kind, plan.d, funcs, |funcs|, i);
      assert funcs[i] in funcs;
    }
    LookupSecond(a, plan.clones, k);
  }

  lemma NotRecursive(p: AnfProgram, i: nat)
    requires i < |p.funcs| && !Recursive(p, p.funcs[i].name)
    ensures !p.funcs[i].recursive
  {
    assert p.funcs[i] in p.funcs;
  }

  /** The clone of a site's key is a clone of the function closed there. */
  lemma CloneOfSite(x: Analysis, funcs: seq<AnfFunc>, c: AnfFunc, key: Key, s: Node)
    requires Good(x) && EnvFits(x.p) && IsClone(x.p, c, key) && !Recursive(x.p, key.0)
    requires SiteIs(Build(x.p), x.sol, s, key) && LookupAnf(funcs, c.name) == Some(c)
    ensures IsCloneOf(x, funcs, c.name, s, key.1)
  {
    hide Build, SpecializeBody, EnvBelow, LookupAnf, Solves, Clean, NothingEscapes, Plain, Recursive;
    SiteKnown(x, s);
    var j := Build(x.p).index[key.0];
    LookupAt(x.p.funcs, j);
    NotRecursive(x.p, j);
  }

  /** A decision's clone is justified by the site the head's closures come from. */
  lemma DecisionJustified(plan: Plan, keys: seq<Key>, i: nat)
    requires Good(plan.x) && Sized(plan) && plan.kind.Cloned? && NoClones(plan.x.p) && EnvFits(plan.x.p)
    requires CloneTable(plan.x.p, plan.clones, keys)
    requires i < |plan.d| && plan.d[i].Some?
    requires Decision(plan.x.p, Build(plan.x.p), plan.x.sol, plan.clones, keys, Build(plan.x.p).heads[i], plan.d[i])
    ensures Justified(plan.x, Out(plan), Cloned, plan.d[i].value, Build(plan.x.p).heads[i])
  {
    hide Build, Out, LookupAnf, Good, IsClone, EnvFits, NoClones, Recursive, SiteIs, IsCloneOf, ProgramApplies;
    var x, name, head := plan.x, plan.d[i].value, Build(plan.x.p).heads[i];
    var k :| 0 <= k < |plan.clones| && plan.clones[k].name == name && Specializable(x.p, Build(x.p), x.sol, head, keys[k]);
    CloneFound(plan, keys, k);
    var s :| At(x.sol, head).cloSites == {s} && SiteIs(Build(x.p), x.sol, s, keys[k]);
    CloneOfSite(x, Out(plan), plan.clones[k], keys[k], s);
  }

  lemma SiteKnown(x: Analysis, s: Node)
    requires s in Build(x.p).cloFields
    ensures Build(x.p).cloFields[s].name in Build(x.p).index
    ensures Build(x.p).index[Build(x.p).cloFields[s].name] < |x.p.funcs|
    ensures x.p.funcs[Build(x.p).index[Build(x.p).cloFields[s].name]].name == Build(x.p).cloFields[s].name
  {
    hide Build, Linked;
    BuildGrows(x.p);
    IndexOfBuild(x.p);
    SiteLinked(Build(x.p), s);
    LinkedKnown(Build(x.p), Build(x.p).cloFields[s]);
  }

  /** Specializing captures changes no run that does not get stuck. */
  lemma CapspecPreserves(x: Analysis, d: Decisions, clones: seq<AnfFunc>, keys: seq<Key>, fuel: nat)
    requires Good(x) && NoClones(x.p) && EnvFits(x.p) && CloneTable(x.p, clones, keys)
    requires DecisionsOf(x.p, Build(x.p), x.sol, clones, keys, d) && !RunProgram(x.p, fuel).Stuck?
    ensures |d| == ProgramApplies(x.p) && RunProgram(OutFor(d, clones, x.p), fuel) == RunProgram(x.p, fuel)
  {
    hide Build, Good, RunProgram, RewTail, RewFuncs, Decision, CloneTable, NoClones, EnvFits;
    HeadsAligned(x.p);
    var plan := Plan(x, Cloned, d, clones);
    forall i | 0 <= i < |d| && d[i].Some? ensures Justified(x, Out(plan), Cloned, d[i].value, Build(x.p).heads[i]) {
      DecisionJustified(plan, keys, i);
    }
    RewritePreserves(plan, fuel);
  }
}
