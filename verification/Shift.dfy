/** The deferred de Bruijn shift of the normalizer: a list of frames resolved only at variables.

    `Total` and `Apply` are the eager meaning, a sum over all frames; the methods are the loops that
    stop early, and the lemmas are the laws the normalizer relies on. */
module DeferredShift {

  datatype Frame = Frame(thresh0: nat, base: nat, step: nat)

  datatype RawShift = Shift(frames: seq<Frame>, lift: nat)

  /** A frame's current effective cutoff. */
  function Eff(f: Frame, lift: nat): nat
    requires f.base <= lift
  {
    f.thresh0 + (lift - f.base)
  }

  /** The frame list is sorted by effective cutoff: what makes stopping early correct. */
  ghost predicate Sorted(frames: seq<Frame>, lift: nat) {
    && (forall k :: 0 <= k < |frames| ==> frames[k].base <= lift)
    && forall j, k :: 0 <= j < k < |frames| ==> Eff(frames[j], lift) <= Eff(frames[k], lift)
  }

  type Shift = s: RawShift | Sorted(s.frames, s.lift) witness RawShift.Shift([], 0)

  const IDENTITY: Shift := RawShift.Shift([], 0)

  /** What index `i` gains: the sum of all steps whose cutoff it reaches. */
  function Total(frames: seq<Frame>, lift: nat, i: nat): nat
    requires forall k :: 0 <= k < |frames| ==> frames[k].base <= lift
  {
    if frames == [] then 0
    else (if i >= Eff(frames[0], lift) then frames[0].step else 0) + Total(frames[1..], lift, i)
  }

  function Apply(s: Shift, i: nat): nat {
    i + Total(s.frames, s.lift, i)
  }

  function UnderBinders(s: Shift, n: nat): Shift {
    RawShift.Shift(s.frames, s.lift + n)
  }

  /** The smallest input index from `t` on whose output reaches `outCutoff`. */
  function Threshold(s: Shift, outCutoff: nat, t: nat): (r: nat)
    requires t <= outCutoff
    ensures t <= r <= outCutoff && Apply(s, r) >= outCutoff
    ensures forall j :: t <= j < r ==> Apply(s, j) < outCutoff
    decreases outCutoff - t
  {
    if Apply(s, t) >= outCutoff then t else Threshold(s, outCutoff, t + 1)
  }

  /** How many leading frames have an effective cutoff below `e`. */
  function Below(frames: seq<Frame>, lift: nat, e: nat): (p: nat)
    requires forall k :: 0 <= k < |frames| ==> frames[k].base <= lift
    ensures p <= |frames|
    ensures forall k :: 0 <= k < p ==> Eff(frames[k], lift) < e
    ensures p < |frames| ==> Eff(frames[p], lift) >= e
  {
    if frames == [] || Eff(frames[0], lift) >= e then 0 else 1 + Below(frames[1..], lift, e)
  }

  /** Compose the step "indices from `outCutoff` on gain `step`" after the shift. */
  function Pushed(s: Shift, outCutoff: nat, step: nat): Shift {
    if step == 0 then s
    else
      var t := Threshold(s, outCutoff, 0);
      var p := Below(s.frames, s.lift, t);
      var f := Frame(t, s.lift, step);
      InsertSorted(s.frames, s.lift, f, p);
      RawShift.Shift(s.frames[..p] + [f] + s.frames[p..], s.lift)
  }

  // ---- laws ----

  lemma {:induction false} TotalSplit(a: seq<Frame>, b: seq<Frame>, lift: nat, i: nat)
    requires forall k :: 0 <= k < |a| ==> a[k].base <= lift
    requires forall k :: 0 <= k < |b| ==> b[k].base <= lift
    ensures Total(a + b, lift, i) == Total(a, lift, i) + Total(b, lift, i)
  {
    if a == [] {
      assert a + b == b;
    } else {
      TotalSplit(a[1..], b, lift, i);
      assert (a + b)[1..] == a[1..] + b;
    }
  }

  lemma {:induction false} TotalMonotone(frames: seq<Frame>, lift: nat, i: nat, j: nat)
    requires forall k :: 0 <= k < |frames| ==> frames[k].base <= lift
    requires i <= j
    ensures Total(frames, lift, i) <= Total(frames, lift, j)
  {
    if frames != [] { TotalMonotone(frames[1..], lift, i, j); }
  }

  lemma {:induction false} TotalBelow(frames: seq<Frame>, lift: nat, i: nat)
    requires forall k :: 0 <= k < |frames| ==> frames[k].base <= lift && i < Eff(frames[k], lift)
    ensures Total(frames, lift, i) == 0
  {
    if frames != [] { TotalBelow(frames[1..], lift, i); }
  }

  lemma {:induction false} TotalLifted(frames: seq<Frame>, lift: nat, n: nat, i: nat)
    requires forall k :: 0 <= k < |frames| ==> frames[k].base <= lift
    ensures i >= n ==> Total(frames, lift + n, i) == Total(frames, lift, i - n)
    ensures i < n ==> Total(frames, lift + n, i) == 0
  {
    if frames != [] { TotalLifted(frames[1..], lift, n, i); }
  }

  /** A pushed step adds `step` exactly to the indices whose shifted value reaches the cutoff. */
  lemma PushedLaw(s: Shift, outCutoff: nat, step: nat, i: nat)
    ensures Apply(Pushed(s, outCutoff, step), i)
         == Apply(s, i) + (if Apply(s, i) >= outCutoff then step else 0)
  {
    hide Total;
    if step > 0 {
      var t := Threshold(s, outCutoff, 0);
      var p := Below(s.frames, s.lift, t);
      assert s.frames == s.frames[..p] + s.frames[p..];
      TotalInsert(s.frames[..p], Frame(t, s.lift, step), s.frames[p..], s.lift, i);
      if i >= t { TotalMonotone(s.frames, s.lift, t, i); }
    }
  }

  lemma TotalInsert(before: seq<Frame>, f: Frame, after: seq<Frame>, lift: nat, i: nat)
    requires f.base <= lift
    requires forall k :: 0 <= k < |before| ==> before[k].base <= lift
    requires forall k :: 0 <= k < |after| ==> after[k].base <= lift
    ensures Total(before + [f] + after, lift, i)
      == Total(before + after, lift, i) + (if i >= Eff(f, lift) then f.step else 0)
  {
    TotalSplit(before, after, lift, i);
    TotalSplit(before + [f], after, lift, i);
    TotalSplit(before, [f], lift, i);
  }

  lemma InsertSorted(frames: seq<Frame>, lift: nat, f: Frame, p: nat)
    requires Sorted(frames, lift) && f.base <= lift && p <= |frames|
    requires forall k :: 0 <= k < p ==> Eff(frames[k], lift) <= Eff(f, lift)
    requires p < |frames| ==> Eff(f, lift) <= Eff(frames[p], lift)
    ensures Sorted(frames[..p] + [f] + frames[p..], lift)
  {
    var r := frames[..p] + [f] + frames[p..];
    forall k | 0 <= k < |r| ensures r[k] == if k < p then frames[k] else if k == p then f else frames[k - 1] {}
    forall j, k | 0 <= j < k < |r| ensures Eff(r[j], lift) <= Eff(r[k], lift) {
      if j < p && k > p {
        assert Eff(frames[j], lift) <= Eff(frames[k - 1], lift);
      } else if j == p {
        assert Eff(frames[p], lift) <= Eff(frames[k - 1], lift);
      }
    }
  }

  /** Entering binders fixes the new indices and moves the others along. */
  lemma UnderBindersLaw(s: Shift, n: nat, i: nat)
    ensures Apply(UnderBinders(s, n), i) == if i < n then i else Apply(s, i - n) + n
  {
    TotalLifted(s.frames, s.lift, n, i);
  }

  // ---- the loops ----

  /** Resolve an index, stopping at the first frame whose cutoff lies beyond it. */
  method ApplyLoop(s: Shift, i: nat) returns (r: nat)
    ensures r == Apply(s, i)
  {
    var total := 0;
    var cur := s.frames;
    ghost var k := 0;
    while cur != []
      invariant k <= |s.frames| && cur == s.frames[k..]
      invariant total + Total(cur, s.lift, i) == Total(s.frames, s.lift, i)
      decreases |cur|
    {
      if i < Eff(cur[0], s.lift) {
        TotalBelow(cur, s.lift, i);
        break;
      }
      total := total + cur[0].step;
      cur := cur[1..];
      k := k + 1;
    }
    r := i + total;
  }

  method PushedLoop(s: Shift, outCutoff: nat, step: nat) returns (r: Shift)
    ensures r == Pushed(s, outCutoff, step)
  {
    hide Total, Sorted, Below;
    if step == 0 { return s; }
    var t := 0;
    var image := ApplyLoop(s, t);
    while image < outCutoff
      invariant image == Apply(s, t) && t <= outCutoff
      invariant Threshold(s, outCutoff, t) == Threshold(s, outCutoff, 0)
      decreases outCutoff - t
    {
      t := t + 1;
      image := ApplyLoop(s, t);
    }
    var prefix, rest := SplitBelow(s, t);
    var raw := RawShift.Shift(prefix + [Frame(t, s.lift, step)] + rest, s.lift);
    assert raw == Pushed(s, outCutoff, step);
    r := raw;
  }

  /** Walk to the insertion point: the frames below cutoff `t`, and the shared tail after them. */
  method SplitBelow(s: Shift, t: nat) returns (prefix: seq<Frame>, cur: seq<Frame>)
    ensures var p := Below(s.frames, s.lift, t); prefix == s.frames[..p] && cur == s.frames[p..]
  {
    hide Total;
    prefix, cur := [], s.frames;
    while cur != [] && Eff(cur[0], s.lift) < t
      invariant |prefix| <= |s.frames| && prefix == s.frames[..|prefix|] && cur == s.frames[|prefix|..]
      invariant |prefix| + Below(cur, s.lift, t) == Below(s.frames, s.lift, t)
      decreases |cur|
    {
      assert cur[1..] == s.frames[|prefix| + 1..];
      assert prefix + [cur[0]] == s.frames[..|prefix| + 1];
      prefix, cur := prefix + [cur[0]], cur[1..];
    }
  }
}
