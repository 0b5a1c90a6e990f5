/** The constraint solver: repeated passes over all constraints until none changes anything. It stops
    on every graph, and leaves the least solution. */
module CfaSolve {
  import opened Values
  import opened CirLang
  import opened AnfLang
  import opened Cfa
  import opened CfaGrows

  // ---- the order on solutions ----

  lemma LeqAntisymmetric(a: Av, b: Av)
    requires a.Leq(b) && b.Leq(a)
    ensures a == b
  {}

  lemma LeqSolTrans(a: Solution, b: Solution, c: Solution)
    requires LeqSol(a, b) && LeqSol(b, c)
    ensures LeqSol(a, c)
    ensures a == c ==> a == b
  {
    if a == c {
      forall n | 0 <= n < |a| ensures a[n] == b[n] { LeqAntisymmetric(a[n], b[n]); }
    }
  }

  function JoinAt(sol: Solution, n: Node, v: Av): (r: Solution)
    requires n < |sol|
    ensures LeqSol(sol, r)
    ensures r == sol <==> v.Leq(sol[n])
  {
    JoinUnchanged(sol[n], v);
    sol[n := sol[n].Join(v)]
  }

  lemma JoinUnchanged(a: Av, v: Av)
    ensures a.Join(v) == a <==> v.Leq(a)
  {
    if v.Leq(a) { LeqAntisymmetric(a.Join(v), a); }
  }

  lemma JoinAtLeast(sol: Solution, n: Node, v: Av, upper: Solution)
    requires n < |sol| && LeqSol(sol, upper) && v.Leq(upper[n])
    ensures LeqSol(JoinAt(sol, n, v), upper)
  {}

  // ---- a bound on how much a solution can grow ----

  /** The names any closure constraint mentions. */
  function NamesOf(cstrs: seq<Cstr>): set<FName> {
    set c | c in cstrs && c.Closure? :: c.name
  }

  /** Every set in the solution is drawn from the graph's names and nodes. */
  ghost predicate InAv(f: Flow, v: Av) {
    && v.fns <= NamesOf(f.cstrs) && (forall s :: s in v.sites ==> s < f.n) && forall s :: s in v.cloSites ==> s < f.n
  }

  ghost predicate InUniverse(f: Flow, sol: Solution) {
    |sol| == f.n && forall n :: 0 <= n < |sol| ==> InAv(f, sol[n])
  }

  function Rank(v: Av): nat {
    |v.fns| + |v.sites| + |v.cloSites| + (if v.open then 1 else 0)
    + (match v.lit case Bottom => 0 case Just(_) => 1 case Top => 2)
  }

  function Total(sol: Solution): nat {
    if sol == [] then 0 else Total(sol[..|sol| - 1]) + Rank(sol[|sol| - 1])
  }

  function RankBound(f: Flow): nat {
    |NamesOf(f.cstrs)| + 2 * f.n + 3
  }

  lemma SubsetSize<T>(a: set<T>, b: set<T>)
    requires a <= b
    ensures |a| <= |b| && (a != b ==> |a| < |b|)
  {
    assert b == a + (b - a);
    assert |b| == |a| + |b - a|;
  }

  lemma {:induction false} BelowSize(s: set<Node>, n: nat)
    requires forall x :: x in s ==> x < n
    ensures |s| <= n
  {
    if n > 0 {
      BelowSize(s - {n - 1}, n - 1);
      SubsetSize(s, (s - {n - 1}) + {n - 1});
    } else {
      assert s == {};
    }
  }

  lemma RankMonotone(a: Av, b: Av)
    requires a.Leq(b)
    ensures Rank(a) <= Rank(b) && (a != b ==> Rank(a) < Rank(b))
  {
    SubsetSize(a.fns, b.fns);
    SubsetSize(a.sites, b.sites);
    SubsetSize(a.cloSites, b.cloSites);
  }

  lemma {:induction false} TotalMonotone(a: Solution, b: Solution)
    requires LeqSol(a, b)
    ensures Total(a) <= Total(b) && (a != b ==> Total(a) < Total(b))
  {
    hide Rank;
    if a != [] {
      var m := |a| - 1;
      TotalMonotone(a[..m], b[..m]);
      RankMonotone(a[m], b[m]);
      if a[..m] == b[..m] && a[m] == b[m] { assert a == b; }
    }
  }

  lemma RankBounded(f: Flow, v: Av)
    requires InAv(f, v)
    ensures Rank(v) <= RankBound(f)
  {
    SubsetSize(v.fns, NamesOf(f.cstrs));
    BelowSize(v.sites, f.n);
    BelowSize(v.cloSites, f.n);
  }

  lemma {:induction false} TotalBounded(f: Flow, sol: Solution)
    requires forall n :: 0 <= n < |sol| ==> InAv(f, sol[n])
    ensures Total(sol) <= |sol| * RankBound(f)
  {
    hide Rank, RankBound, InAv;
    if sol != [] {
      var m := |sol| - 1;
      TotalBounded(f, sol[..m]);
      RankBounded(f, sol[m]);
    }
  }

  // ---- growing ----

  /** From `before` the solver grew to `now`, within the universe; `changed` says whether at all. */
  ghost predicate Grew(f: Flow, before: Solution, now: Solution, changed: bool) {
    LeqSol(before, now) && InUniverse(f, now) && (changed <==> before != now)
  }

  /** Everything added since `before` is in every solution of `c` above it. */
  ghost predicate Under(f: Flow, c: Cstr, before: Solution, now: Solution) {
    forall upper :: LeqSol(before, upper) && Sat(f, upper, c) ==> LeqSol(now, upper)
  }

  /** What handling a constraint does: it grows no more than the constraint asks for, and when nothing
      changed, the constraint holds. */
  ghost predicate Handled(f: Flow, c: Cstr, before: Solution, now: Solution, changed: bool) {
    Grew(f, before, now, changed) && Under(f, c, before, now) && (!changed ==> Sat(f, now, c))
  }

  lemma GrewMore(f: Flow, before: Solution, mid: Solution, now: Solution, c0: bool, c1: bool)
    requires Grew(f, before, mid, c0) && Grew(f, mid, now, c1)
    ensures Grew(f, before, now, c0 || c1)
  {
    LeqSolTrans(before, mid, now);
  }

  lemma JoinGrew(f: Flow, sol: Solution, n: Node, v: Av)
    requires n < |sol| && InUniverse(f, sol) && InAv(f, v)
    ensures Grew(f, sol, JoinAt(sol, n, v), !v.Leq(sol[n]))
  {}

  lemma UnderJoin(f: Flow, c: Cstr, before: Solution, now: Solution, n: Node, v: Av)
    requires Under(f, c, before, now) && n < |now| == |before|
    requires forall upper :: LeqSol(before, upper) && LeqSol(now, upper) && Sat(f, upper, c) ==> v.Leq(upper[n])
    ensures Under(f, c, before, JoinAt(now, n, v))
  {
    hide Sat;
    forall upper | LeqSol(before, upper) && Sat(f, upper, c) ensures LeqSol(JoinAt(now, n, v), upper) {
      assert LeqSol(now, upper);
      JoinAtLeast(now, n, v, upper);
    }
  }

  const OPEN := Av({}, {}, true, {}, Top)
  const OPEN_ONLY := Av({}, {}, true, {}, Bottom)

  // ---- escape, on values ----

  /** `s` with the parameters of the known functions among `fns` opened. */
  ghost function Opened(f: Flow, s: Solution, fns: set<FName>): (r: Solution)
    ensures |r| == |s|
  {
    seq(|s|, n requires 0 <= n < |s| => s[n].(open := s[n].open || IsParamOf(f, fns, n)))
  }

  ghost predicate IsParamOf(f: Flow, fns: set<FName>, n: Node) {
    exists l :: l in fns && l in f.index && f.index[l] < |f.param| && f.param[f.index[l]] == n
  }

  /** `now` differs from `before` only by open flags set. */
  ghost predicate OnlyOpened(before: Solution, now: Solution) {
    |now| == |before| && forall n :: 0 <= n < |now| ==>
      now[n] == before[n].(open := now[n].open) && (before[n].open ==> now[n].open)
  }

  ghost predicate ReachesTo(f: Flow, sol: Solution, node: Node, n: Node) {
    exists path :: Reaches(f, sol, path, node) && path[|path| - 1] == n
  }

  lemma ReachesSelf(f: Flow, sol: Solution, node: Node)
    ensures ReachesTo(f, sol, node, node)
  {
    assert Reaches(f, sol, [node], node);
  }

  lemma ReachesNext(f: Flow, sol: Solution, node: Node, n: Node, m: Node)
    requires ReachesTo(f, sol, node, n) && StepsTo(f, sol, n, m)
    ensures ReachesTo(f, sol, node, m)
  {
    hide StepsTo;
    var path :| Reaches(f, sol, path, node) && path[|path| - 1] == n;
    assert Reaches(f, sol, path + [m], node);
  }

  /** More sites, more paths. */
  lemma ReachesMore(f: Flow, a: Solution, b: Solution, node: Node, n: Node)
    requires LeqSol(a, b) && ReachesTo(f, a, node, n)
    ensures ReachesTo(f, b, node, n)
  {
    var path :| Reaches(f, a, path, node) && path[|path| - 1] == n;
    forall k | 0 <= k < |path| - 1 ensures StepsTo(f, b, path[k], path[k + 1]) {
      assert StepsTo(f, a, path[k], path[k + 1]);
    }
    assert Reaches(f, b, path, node);
  }

  /** A set of nodes closed under fields, whose functions are all open, is all an escape reaches. */
  lemma {:induction false} ClosedReaches(f: Flow, sol: Solution, node: Node, done: set<Node>, path: seq<Node>)
    requires Reaches(f, sol, path, node) && node in done
    requires forall n, m :: n in done && StepsTo(f, sol, n, m) ==> m in done
    ensures path[|path| - 1] in done
    decreases |path|
  {
    hide StepsTo;
    if |path| > 1 {
      var k := |path| - 2;
      assert Reaches(f, sol, path[..|path| - 1], node);
      ClosedReaches(f, sol, node, done, path[..|path| - 1]);
      assert StepsTo(f, sol, path[k], path[k + 1]);
    }
  }

  lemma StepsSame(f: Flow, a: Solution, b: Solution, n: Node, m: Node)
    requires OnlyOpened(a, b) && StepsTo(f, b, n, m)
    ensures StepsTo(f, a, n, m)
  {}

  lemma EscapedByDone(f: Flow, before: Solution, now: Solution, node: Node, done: set<Node>)
    requires OnlyOpened(before, now) && node in done
    requires forall n, m :: n in done && StepsTo(f, before, n, m) ==> m in done
    requires forall n :: n in done ==> ParamsOpen(f, now, At(before, n))
    ensures Escaped(f, now, node)
  {
    hide StepsTo;
    forall path | Reaches(f, now, path, node) ensures ParamsOpen(f, now, At(now, path[|path| - 1])) {
      forall k | 0 <= k < |path| - 1 ensures StepsTo(f, before, path[k], path[k + 1]) {
        StepsSame(f, before, now, path[k], path[k + 1]);
      }
      ClosedReaches(f, before, node, done, path);
    }
  }

  // ---- what each flow adds is asked for ----

  /** What a projection of site `s` adds to its node. */
  function ProjValue(f: Flow, sol: Solution, s: Node, idx: nat): Av {
    if s !in f.fields then EMPTY else if idx < |f.fields[s]| then At(sol, f.fields[s][idx]) else OPEN_ONLY
  }

  lemma ProjUnder(f: Flow, to: Node, tup: Node, idx: nat, before: Solution, now: Solution, s: Node)
    requires Under(f, Proj(to, tup, idx), before, now) && to < |now| == |before| && tup < |before| && s in before[tup].sites
    ensures Under(f, Proj(to, tup, idx), before, JoinAt(now, to, ProjValue(f, now, s, idx)))
  {
    forall upper | LeqSol(before, upper) && LeqSol(now, upper) && Sat(f, upper, Proj(to, tup, idx))
      ensures ProjValue(f, now, s, idx).Leq(upper[to])
    {
      assert s in At(upper, tup).sites;
      assert ProjFlows(f, upper, At(upper, to), s, idx);
      if s in f.fields && idx < |f.fields[s]| {
        var fld := f.fields[s][idx];
        assert At(now, fld).Leq(At(upper, fld));
      }
    }
    UnderJoin(f, Proj(to, tup, idx), before, now, to, ProjValue(f, now, s, idx));
  }

  lemma ProjValueIn(f: Flow, sol: Solution, s: Node, idx: nat)
    requires InUniverse(f, sol)
    ensures InAv(f, ProjValue(f, sol, s, idx))
  {}

  /** The argument of a call flows to a callee's parameter, its return to the result. */
  lemma CallUnder(f: Flow, c: Cstr, l: nat, res: Node, arg: Node, before: Solution, now: Solution)
    requires Under(f, c, before, now) && |now| == |before| && l < |f.param| && l < |f.ret|
    requires f.param[l] < |now| && f.ret[l] < |now| && res < |now| && arg < |now|
    requires forall upper :: LeqSol(before, upper) && Sat(f, upper, c) ==> CallFlows(f, upper, l, res, arg)
    ensures var mid := JoinAt(now, f.param[l], now[arg]);
      Under(f, c, before, mid) && Under(f, c, before, JoinAt(mid, res, mid[f.ret[l]]))
  {
    hide Sat;
    forall upper | LeqSol(before, upper) && LeqSol(now, upper) && Sat(f, upper, c)
      ensures now[arg].Leq(upper[f.param[l]])
    {
      assert CallFlows(f, upper, l, res, arg);
      assert now[arg].Leq(upper[arg]);
    }
    UnderJoin(f, c, before, now, f.param[l], now[arg]);
    var mid := JoinAt(now, f.param[l], now[arg]);
    forall upper | LeqSol(before, upper) && LeqSol(mid, upper) && Sat(f, upper, c)
      ensures mid[f.ret[l]].Leq(upper[res])
    {
      assert CallFlows(f, upper, l, res, arg);
      assert mid[f.ret[l]].Leq(upper[f.ret[l]]);
    }
    UnderJoin(f, c, before, mid, res, mid[f.ret[l]]);
  }

  lemma HeadCallFlows(f: Flow, res: Node, head: Node, arg: Node, l: FName, before: Solution)
    requires head < |before| && l in before[head].fns && l in f.index
    ensures forall upper :: LeqSol(before, upper) && Sat(f, upper, Cstr.Call(res, head, arg)) ==>
      CallFlows(f, upper, f.index[l], res, arg)
  {
    forall upper | LeqSol(before, upper) && Sat(f, upper, Cstr.Call(res, head, arg))
      ensures CallFlows(f, upper, f.index[l], res, arg)
    {
      assert l in At(upper, head).fns;
    }
  }

  lemma OpenedGrew(f: Flow, sol: Solution, fns: set<FName>, changed: bool)
    requires InUniverse(f, sol) && (changed <==> Opened(f, sol, fns) != sol)
    ensures Grew(f, sol, Opened(f, sol, fns), changed) && OnlyOpened(sol, Opened(f, sol, fns))
    ensures forall v: Av :: v.fns <= fns && Wf(f) && |sol| == f.n ==> ParamsOpen(f, Opened(f, sol, fns), v)
  {}

  /** Opening the parameters of what an escape reaches is what its solutions already do. */
  lemma OpenedUnder(f: Flow, node: Node, n: Node, before: Solution, now: Solution)
    requires Wf(f) && |before| == f.n && n < f.n && OnlyOpened(before, now)
    requires ReachesTo(f, before, node, n) && UnderEscape(f, node, before, now)
    ensures UnderEscape(f, node, before, Opened(f, now, before[n].fns))
  {
    hide Wf;
    var wide := Opened(f, now, before[n].fns);
    forall upper | LeqSol(before, upper) && Escaped(f, upper, node) ensures LeqSol(wide, upper) {
      assert LeqSol(now, upper);
      ReachesMore(f, before, upper, node, n);
      var path :| Reaches(f, upper, path, node) && path[|path| - 1] == n;
      assert ParamsOpen(f, upper, At(upper, n));
      forall m | 0 <= m < |wide| ensures wide[m].Leq(upper[m]) {
        if IsParamOf(f, before[n].fns, m) {
          var l :| l in before[n].fns && l in f.index && f.index[l] < |f.param| && f.param[f.index[l]] == m;
          assert l in At(upper, n).fns;
        }
      }
    }
  }

  ghost predicate UnderEscape(f: Flow, node: Node, before: Solution, now: Solution) {
    forall upper :: LeqSol(before, upper) && Escaped(f, upper, node) ==> LeqSol(now, upper)
  }

  /** The worklist invariant: `done` nodes have their functions open and their sites seen, the fields
      of seen sites are done or waiting, and everything waiting is reached from `node`. */
  ghost predicate Escaping(
    f: Flow, before: Solution, now: Solution, node: Node, seen: set<Node>, work: seq<Node>, done: set<Node>)
  {
    && |before| == f.n && OnlyOpened(before, now) && UnderEscape(f, node, before, now)
    && (node in done || node in work)
    && (forall n :: n in work ==> n < f.n && ReachesTo(f, before, node, n))
    && (forall n :: n in done ==> n < f.n && ParamsOpen(f, now, At(before, n)) && before[n].sites <= seen)
    && (forall s :: s in seen ==> s < f.n)
    && forall s, m :: s in seen && s in f.fields && m in f.fields[s] ==> m in done || m in work
  }

  lemma EscapingStart(f: Flow, sol: Solution, node: Node)
    requires |sol| == f.n && node < f.n
    ensures Escaping(f, sol, sol, node, {}, [node], {})
  {
    ReachesSelf(f, sol, node);
  }

  lemma EscapingDone(f: Flow, before: Solution, now: Solution, node: Node, seen: set<Node>, done: set<Node>)
    requires Escaping(f, before, now, node, seen, [], done)
    ensures Escaped(f, now, node)
  {
    EscapedByDone(f, before, now, node, done);
  }

  /** Taking the last waiting node, opening its functions and queueing the fields of its new sites. */
  lemma EscapingStep(
    f: Flow, before: Solution, now: Solution, node: Node, seen: set<Node>, work: seq<Node>, done: set<Node>,
    later: seq<Node>)
    requires Wf(f) && InUniverse(f, before) && |work| > 0 && Escaping(f, before, now, node, seen, work, done)
    requires var n := work[|work| - 1]; n < f.n && Queued(f, before[n].sites, seen, work[..|work| - 1], later)
    ensures var n := work[|work| - 1];
      Escaping(f, before, Opened(f, now, before[n].fns), node, seen + before[n].sites, later, done + {n})
  {
    hide InAv, Linked;
    var n := work[|work| - 1];
    var front := work[..|work| - 1];
    assert work == front + [n];
    var fns := before[n].fns;
    var wide := Opened(f, now, fns);
    OpenedUnder(f, node, n, before, now);
    forall m | m in later ensures m < f.n && ReachesTo(f, before, node, m) {
      if m !in front {
        var k :| 0 <= k < |later| && later[k] == m;
        assert k >= |front|;
        assert FromSite(f, before[n].sites, later[k]);
        assert StepsTo(f, before, n, m);
        ReachesNext(f, before, node, n, m);
      } else {
        assert m in work;
      }
    }
    assert node in done + {n} || node in later;
    assert InAv(f, before[n]);
    InAvSites(f, before[n]);
  }

  lemma InAvSites(f: Flow, v: Av)
    requires InAv(f, v)
    ensures forall s :: s in v.sites ==> s < f.n
  {}

  ghost predicate FromSite(f: Flow, sites: set<Node>, m: Node) {
    exists s :: s in sites && s in f.fields && m in f.fields[s]
  }

  /** `later` is `work` followed by the fields of the sites not yet seen. */
  ghost predicate Queued(f: Flow, sites: set<Node>, seen: set<Node>, work: seq<Node>, later: seq<Node>) {
    && work <= later
    && (forall k :: |work| <= k < |later| ==> FromSite(f, sites, later[k]))
    && (forall s, m :: s in sites && s !in seen && s in f.fields && m in f.fields[s] ==> m in later)
    && (sites <= seen ==> later == work)
  }

  // ---- the solver ----

  class Solver {
    const f: Flow
    const sol: array<Av>

    constructor (f: Flow)
      requires Wf(f)
      ensures this.f == f && Valid() && fresh(sol)
      ensures forall n :: 0 <= n < sol.Length ==> sol[n] == EMPTY
    {
      this.f := f;
      sol := new Av[f.n](_ => EMPTY);
    }

    ghost predicate Valid()
      reads sol
    {
      Wf(f) && sol.Length == f.n && InUniverse(f, sol[..])
    }

    /** Join `v` into node `n`'s value; report whether it grew. */
    method Join(n: Node, v: Av) returns (changed: bool)
      requires Valid() && n < f.n && InAv(f, v)
      modifies sol
      ensures Valid() && sol[..] == JoinAt(old(sol[..]), n, v) && Grew(f, old(sol[..]), sol[..], changed)
    {
      hide Wf, InAv;
      ghost var before := sol[..];
      JoinGrew(f, before, n, v);
      var joined := sol[n].Join(v);
      changed := joined != sol[n];
      sol[n] := joined;
      assert sol[..] == JoinAt(before, n, v);
    }

    /** A constraint that adds a fixed value to one node. */
    method HandleSeed(ghost c: Cstr, n: Node, v: Av) returns (changed: bool)
      requires Valid() && n < f.n && InAv(f, v)
      requires forall s: Solution :: |s| == f.n ==> (Sat(f, s, c) <==> v.Leq(s[n]))
      modifies sol
      ensures Valid() && Handled(f, c, old(sol[..]), sol[..], changed)
    {
      hide Wf, InAv, Sat;
      ghost var before := sol[..];
      changed := Join(n, v);
      UnderJoin(f, c, before, before, n, v);
    }

    method HandleCopy(to: Node, from: Node) returns (changed: bool)
      requires Valid() && to < f.n && from < f.n
      modifies sol
      ensures Valid() && Handled(f, Copy(to, from), old(sol[..]), sol[..], changed)
    {
      hide Wf, InAv;
      changed := false;
      ghost var before := sol[..];
      if to != from {
        var src := sol[from];
        changed := Join(to, src);
        UnderJoin(f, Copy(to, from), before, before, to, src);
      }
    }

    /** One tuple site of a projection: the field flows on, or, out of range, the node is open. */
    method ProjectSite(to: Node, s: Node, idx: nat) returns (changed: bool)
      requires Valid() && to < f.n
      modifies sol
      ensures Valid() && Grew(f, old(sol[..]), sol[..], changed)
      ensures sol[..] == JoinAt(old(sol[..]), to, ProjValue(f, old(sol[..]), s, idx))
    {
      hide Wf, InAv, JoinAt;
      ProjValueIn(f, sol[..], s, idx);
      JoinedNothing(sol[..], to);
      changed := false;
      if s in f.fields {
        if idx < |f.fields[s]| {
          FieldNode(f, s, idx);
          var fv := sol[f.fields[s][idx]];
          changed := Join(to, fv);
        } else {
          changed := Join(to, OPEN_ONLY);
        }
      }
    }

    method HandleProj(to: Node, tup: Node, idx: nat) returns (changed: bool)
      requires Valid() && to < f.n && tup < f.n
      modifies sol
      ensures Valid() && Handled(f, Proj(to, tup, idx), old(sol[..]), sol[..], changed)
    {
      hide Wf, InAv, Under, JoinAt, InUniverse;
      ghost var c := Proj(to, tup, idx);
      ghost var before := sol[..];
      var tv := sol[tup];
      changed := false;
      UnderNothing(f, c, before);
      if tv.open {
        OpenUnder(f, to, tup, idx, before);
        changed := Join(to, OPEN);
        JoinedAbove(before, to, OPEN, changed);
      }
      var rest := tv.sites;
      while rest != {}
        invariant rest <= tv.sites && Valid() && sol.Length == |before|
        invariant Grew(f, before, sol[..], changed) && Under(f, c, before, sol[..])
        invariant !changed ==> tv.open ==> IsOpen(sol[to])
        invariant !changed ==> forall s :: s in tv.sites - rest ==> ProjFlows(f, before, before[to], s, idx)
        decreases |rest|
      {
        var s :| s in rest;
        ghost var mid := sol[..];
        ProjUnder(f, to, tup, idx, before, mid, s);
        var grew := ProjectSite(to, s, idx);
        GrewMore(f, before, mid, sol[..], changed, grew);
        JoinedAbove(mid, to, ProjValue(f, mid, s, idx), grew);
        changed := changed || grew;
        rest := rest - {s};
      }
    }

    method HandleFlow(ghost c: Cstr, callee: nat, res: Node, arg: Node) returns (changed: bool)
      requires Valid() && callee < |f.param| && res < f.n && arg < f.n
      requires forall upper :: LeqSol(sol[..], upper) && Sat(f, upper, c) ==> CallFlows(f, upper, callee, res, arg)
      modifies sol
      ensures Valid() && Grew(f, old(sol[..]), sol[..], changed)
      ensures Under(f, c, old(sol[..]), sol[..]) && (!changed ==> CallFlows(f, sol[..], callee, res, arg))
    {
      hide InAv, Sat, Under, JoinAt, Linked;
      ghost var before := sol[..];
      UnderNothing(f, c, before);
      CallUnder(f, c, callee, res, arg, before, before);
      var argV := sol[arg];
      changed := Join(f.param[callee], argV);
      ghost var mid := sol[..];
      JoinedAbove(before, f.param[callee], argV, changed);
      var retV := sol[f.ret[callee]];
      var grew := Join(res, retV);
      JoinedAbove(mid, res, retV, grew);
      GrewMore(f, before, mid, sol[..], changed, grew);
      changed := changed || grew;
    }

    method HandleGlobalCall(res: Node, callee: nat, arg: Node) returns (changed: bool)
      requires Valid() && callee < |f.param| && res < f.n && arg < f.n
      modifies sol
      ensures Valid() && Handled(f, GlobalCall(res, callee, arg), old(sol[..]), sol[..], changed)
    {
      hide Wf, InAv, InUniverse, CallFlows;
      changed := HandleFlow(GlobalCall(res, callee, arg), callee, res, arg);
    }

    /** Open the parameter of every known function among `fns`. */
    method OpenParams(fns: set<FName>) returns (changed: bool)
      requires Valid()
      modifies sol
      ensures Valid() && sol[..] == Opened(f, old(sol[..]), fns) && Grew(f, old(sol[..]), sol[..], changed)
    {
      hide Linked, InAv;
      ghost var before := sol[..];
      changed := false;
      var rest := fns;
      while rest != {}
        invariant rest <= fns && sol.Length == f.n == |before|
        invariant forall n :: 0 <= n < f.n ==> sol[n] == before[n].(open := before[n].open || IsParamOf(f, fns - rest, n))
        invariant changed <==> exists n :: 0 <= n < f.n && sol[n] != before[n]
        decreases |rest|
      {
        var l :| l in rest;
        if l in f.index && !sol[f.param[f.index[l]]].open {
          sol[f.param[f.index[l]]] := sol[f.param[f.index[l]]].(open := true);
          changed := true;
        }
        OneMore(f, fns, rest, l);
        rest := rest - {l};
      }
      OpenedGrew(f, before, fns, changed);
      assert sol[..] == Opened(f, before, fns);
    }

    /** Mark the sites seen and queue the fields of the new ones. */
    method Visit(sites: set<Node>, seen: set<Node>, work: seq<Node>) returns (later: seq<Node>)
      ensures Queued(f, sites, seen, work, later)
    {
      later := work;
      var rest := sites;
      while rest != {}
        invariant rest <= sites && work <= later
        invariant forall k :: |work| <= k < |later| ==> FromSite(f, sites, later[k])
        invariant forall s, m :: s in sites - rest && s !in seen && s in f.fields && m in f.fields[s] ==> m in later
        invariant sites <= seen ==> later == work
        decreases |rest|
      {
        var s :| s in rest;
        if s !in seen && s in f.fields {
          later := later + f.fields[s];
        }
        rest := rest - {s};
      }
    }

    /** Open the parameter of every function the value at `node` can reach. */
    method Escape(node: Node) returns (changed: bool)
      requires Valid() && node < f.n
      modifies sol
      ensures Valid() && Grew(f, old(sol[..]), sol[..], changed)
      ensures Escaped(f, sol[..], node) && UnderEscape(f, node, old(sol[..]), sol[..])
    {
      hide Wf, InAv, Escaped, UnderEscape, Queued, FromSite, ReachesTo, ParamsOpen, Opened;
      ghost var before := sol[..];
      changed := false;
      var seen: set<Node> := {};
      var work := [node];
      ghost var done: set<Node> := {};
      EscapingStart(f, before, node);
      while work != []
        invariant Valid() && sol.Length == |before| && Grew(f, before, sol[..], changed)
        invariant Escaping(f, before, sol[..], node, seen, work, done)
        decreases f.n - |seen|, |work|
      {
        var n := work[|work| - 1];
        assert n in work;
        ghost var mid, sites0 := sol[..], seen;
        var v := sol[n];
        var later := Visit(v.sites, seen, work[..|work| - 1]);
        EscapingStep(f, before, mid, node, seen, work, done, later);
        var grew := OpenParams(v.fns);
        GrewMore(f, before, mid, sol[..], changed, grew);
        changed := changed || grew;
        QueueShorter(f, v.sites, seen, work, later);
        seen, work := seen + v.sites, later;
        done := done + {n};
        BelowSize(seen, f.n);
      }
      EscapingDone(f, before, sol[..], node, seen, done);
    }

    /** An indirect apply: connect every known function of the head; an open head also opens the result
        and lets the argument escape. */
    method HandleCall(res: Node, head: Node, arg: Node) returns (changed: bool)
      requires Valid() && res < f.n && head < f.n && arg < f.n
      modifies sol
      ensures Valid() && Handled(f, Cstr.Call(res, head, arg), old(sol[..]), sol[..], changed)
    {
      hide InAv, Under, JoinAt, InUniverse, Escaped, CallFlows, Linked, UnderEscape, Wf;
      ghost var c := Cstr.Call(res, head, arg);
      ghost var before := sol[..];
      var hv := sol[head];
      changed := false;
      UnderNothing(f, c, before);
      var rest := hv.fns;
      while rest != {}
        invariant rest <= hv.fns && Valid() && sol.Length == |before|
        invariant Grew(f, before, sol[..], changed) && Under(f, c, before, sol[..])
        invariant !changed ==> forall l :: l in hv.fns - rest && l in f.index ==> CallFlows(f, before, f.index[l], res, arg)
        decreases |rest|
      {
        var l :| l in rest;
        if l in f.index {
          ghost var mid := sol[..];
          HeadAbove(f, res, head, arg, l, before, mid);
          IndexIn(f, l);
          var grew := HandleFlow(c, f.index[l], res, arg);
          GrewMore(f, before, mid, sol[..], changed, grew);
          UnderTrans(f, c, before, mid, sol[..]);
          changed := changed || grew;
        }
        rest := rest - {l};
      }
      ghost var connected := sol[..];
      if hv.open {
        var grew := OpenCall(c, res, head, arg, before);
        GrewMore(f, before, connected, sol[..], changed, grew);
        UnderTrans(f, c, before, connected, sol[..]);
        changed := changed || grew;
      }
    }

    method OpenCall(ghost c: Cstr, res: Node, ghost head: Node, arg: Node, ghost before: Solution) returns (changed: bool)
      requires Valid() && res < f.n && head < f.n && arg < f.n && c == Cstr.Call(res, head, arg)
      requires LeqSol(before, sol[..]) && before[head].open
      modifies sol
      ensures Valid() && Grew(f, old(sol[..]), sol[..], changed) && Under(f, c, old(sol[..]), sol[..])
      ensures !changed ==> IsOpen(sol[res]) && Escaped(f, sol[..], arg)
    {
      hide InAv, Under, JoinAt, InUniverse, Escaped, CallFlows, Linked, Wf, UnderEscape;
      ghost var now := sol[..];
      CallOpenUnder(f, res, head, arg, now);
      changed := Join(res, OPEN);
      ghost var mid := sol[..];
      JoinedAbove(now, res, OPEN, changed);
      var grew := Escape(arg);
      CallEscapeUnder(f, res, head, arg, mid, sol[..]);
      UnderTrans(f, c, now, mid, sol[..]);
      GrewMore(f, now, mid, sol[..], changed, grew);
      changed := changed || grew;
    }

    method HandleEscape(node: Node) returns (changed: bool)
      requires Valid() && node < f.n
      modifies sol
      ensures Valid() && Handled(f, Cstr.Escape(node), old(sol[..]), sol[..], changed)
    {
      hide InAv, InUniverse, Wf, Escaped;
      changed := Escape(node);
    }

    method Handle(c: Cstr) returns (changed: bool)
      requires Valid() && c in f.cstrs
      modifies sol
      ensures Valid() && Handled(f, c, old(sol[..]), sol[..], changed)
    {
      hide Under, InUniverse, Escaped, CallFlows, Linked, Grew;
      CstrInFlow(f, c);
      match c {
        case Copy(to, from) => changed := HandleCopy(to, from);
        case Closure(node, name) => changed := HandleSeed(c, node, EMPTY.(fns := {name}));
        case Site(node) => changed := HandleSeed(c, node, EMPTY.(sites := {node}));
        case ClosureSite(node) => changed := HandleSeed(c, node, EMPTY.(cloSites := {node}));
        case Open(node) => changed := HandleSeed(c, node, OPEN);
        case Literal(node, lit) => changed := HandleSeed(c, node, EMPTY.(lit := Just(lit)));
        case NotLit(node) => changed := HandleSeed(c, node, EMPTY.(lit := Top));
        case Proj(to, tup, idx) => changed := HandleProj(to, tup, idx);
        case Call(res, head, arg) => changed := HandleCall(res, head, arg);
        case GlobalCall(res, callee, arg) => changed := HandleGlobalCall(res, callee, arg);
        case Escape(node) => changed := HandleEscape(node);
      }
    }

    /** Pass over all constraints until a whole pass changes nothing. */
    method Solve()
      requires Valid() && forall n :: 0 <= n < sol.Length ==> sol[n] == EMPTY
      modifies sol
      ensures Valid() && Solves(f, sol[..])
      ensures forall other :: Solves(f, other) ==> LeqSol(sol[..], other)
    {
      hide Wf, InAv, Sat, Handled, RankBound, Total, Under, InUniverse;
      var changed := true;
      BoundedUniverse(f, sol[..]);
      while changed
        invariant Valid() && BelowSolutions(f, sol[..]) && Total(sol[..]) <= f.n * RankBound(f)
        invariant !changed ==> Solves(f, sol[..])
        decreases f.n * RankBound(f) - Total(sol[..]), changed
      {
        ghost var before := sol[..];
        changed := false;
        for i := 0 to |f.cstrs|
          invariant Valid() && sol.Length == |before| && Grew(f, before, sol[..], changed) && BelowSolutions(f, sol[..])
          invariant !changed ==> forall k :: 0 <= k < i ==> Sat(f, before, f.cstrs[k])
        {
          ghost var mid := sol[..];
          assert f.cstrs[i] in f.cstrs;
          var grew := Handle(f.cstrs[i]);
          HandledBelow(f, f.cstrs[i], mid, sol[..], grew);
          GrewMore(f, before, mid, sol[..], changed, grew);
          changed := changed || grew;
        }
        TotalMonotone(before, sol[..]);
        BoundedUniverse(f, sol[..]);
      }
    }
  }

  ghost predicate BelowSolutions(f: Flow, sol: Solution) {
    forall other :: Solves(f, other) ==> LeqSol(sol, other)
  }

  lemma HandledBelow(f: Flow, c: Cstr, before: Solution, now: Solution, changed: bool)
    requires c in f.cstrs && BelowSolutions(f, before) && Handled(f, c, before, now, changed)
    ensures BelowSolutions(f, now) && Grew(f, before, now, changed) && (!changed ==> Sat(f, before, c))
  {
    hide Sat;
  }

  lemma BoundedUniverse(f: Flow, sol: Solution)
    requires InUniverse(f, sol)
    ensures Total(sol) <= f.n * RankBound(f)
  {
    TotalBounded(f, sol);
  }

  lemma CstrInFlow(f: Flow, c: Cstr)
    requires Wf(f) && c in f.cstrs
    ensures CstrIn(f, c) && (c.Closure? ==> c.name in NamesOf(f.cstrs))
  {}

  lemma IndexIn(f: Flow, l: FName)
    requires Wf(f) && l in f.index
    ensures f.index[l] < |f.param|
  {
    hide Linked;
  }

  lemma UnderTrans(f: Flow, c: Cstr, a: Solution, b: Solution, d: Solution)
    requires Under(f, c, a, b) && Under(f, c, b, d)
    ensures Under(f, c, a, d)
  {
    hide Sat;
  }

  lemma HeadAbove(f: Flow, res: Node, head: Node, arg: Node, l: FName, before: Solution, now: Solution)
    requires LeqSol(before, now) && head < |before| && l in before[head].fns && l in f.index
    ensures forall upper :: LeqSol(now, upper) && Sat(f, upper, Cstr.Call(res, head, arg)) ==>
      CallFlows(f, upper, f.index[l], res, arg)
  {
    HeadCallFlows(f, res, head, arg, l, now);
  }

  lemma CallOpenUnder(f: Flow, res: Node, head: Node, arg: Node, now: Solution)
    requires res < |now| && head < |now| && now[head].open
    ensures InAv(f, OPEN) && Under(f, Cstr.Call(res, head, arg), now, JoinAt(now, res, OPEN))
  {
    hide Escaped;
    UnderNothing(f, Cstr.Call(res, head, arg), now);
    UnderJoin(f, Cstr.Call(res, head, arg), now, now, res, OPEN);
  }

  lemma CallEscapeUnder(f: Flow, res: Node, head: Node, arg: Node, mid: Solution, now: Solution)
    requires head < |mid| && mid[head].open && UnderEscape(f, arg, mid, now)
    ensures Under(f, Cstr.Call(res, head, arg), mid, now)
  {
    hide Escaped;
  }

  lemma QueueShorter(f: Flow, sites: set<Node>, seen: set<Node>, work: seq<Node>, later: seq<Node>)
    requires |work| > 0 && Queued(f, sites, seen, work[..|work| - 1], later)
    ensures |seen + sites| >= |seen| && (|seen + sites| == |seen| ==> |later| < |work|)
  {
    hide FromSite;
    SubsetSize(seen, seen + sites);
    if |seen + sites| == |seen| { assert sites <= seen + sites == seen; }
  }

  lemma OneMore(f: Flow, fns: set<FName>, rest: set<FName>, l: FName)
    requires l in rest && rest <= fns
    ensures forall n :: IsParamOf(f, fns - (rest - {l}), n) <==>
      IsParamOf(f, fns - rest, n) || (l in f.index && f.index[l] < |f.param| && f.param[f.index[l]] == n)
  {}

  lemma UnderNothing(f: Flow, c: Cstr, sol: Solution)
    ensures Under(f, c, sol, sol)
  {}

  lemma OpenUnder(f: Flow, to: Node, tup: Node, idx: nat, sol: Solution)
    requires to < |sol| && tup < |sol| && sol[tup].open
    ensures InAv(f, OPEN) && Under(f, Proj(to, tup, idx), sol, JoinAt(sol, to, OPEN))
  {
    UnderJoin(f, Proj(to, tup, idx), sol, sol, to, OPEN);
  }

  lemma JoinedAbove(sol: Solution, n: Node, v: Av, changed: bool)
    requires n < |sol| && (changed <==> JoinAt(sol, n, v) != sol)
    ensures !changed ==> v.Leq(sol[n]) && JoinAt(sol, n, v) == sol
  {}

  lemma JoinedNothing(sol: Solution, n: Node)
    requires n < |sol|
    ensures JoinAt(sol, n, EMPTY) == sol
  {}

  lemma FieldNode(f: Flow, s: Node, idx: nat)
    requires Wf(f) && s in f.fields && idx < |f.fields[s]|
    ensures f.fields[s][idx] < f.n
  {
    hide Linked;
  }

  /** The least solution of a graph. */
  method SolveFlow(f: Flow) returns (sol: Solution)
    requires Wf(f)
    ensures Solves(f, sol) && forall other :: Solves(f, other) ==> LeqSol(sol, other)
  {
    hide Wf, Sat;
    var solver := new Solver(f);
    solver.Solve();
    sol := solver.sol[..];
  }
}
