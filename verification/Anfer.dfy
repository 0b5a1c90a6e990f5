/** The normalizer object: operands stream their `let`s into one shared accumulator, and the atoms
    already produced are shifted in place as later operands extend it. */
module AnferObject {
  import opened Basics
  import opened Values
  import opened CirLang
  import opened AnfLang
  import opened DeferredShift
  import Normalize

  /** The shared accumulator of computations, innermost last. */
  class Binds {
    var out: seq<Comp>

    constructor ()
      ensures out == []
    {
      out := [];
    }

    method Push(c: Comp)
      modifies this
      ensures out == old(out) + [c]
    {
      out := out + [c];
    }
  }

  class Anfer {
    const mode: Normalize.Mode

    constructor (mode: Normalize.Mode)
      ensures this.mode == mode
    {
      this.mode := mode;
    }

    /** Push the computations of `c` and name its value in the extended scope. */
    method Atomize(c: Cir, s: Shift, b: Binds) returns (a: Atom)
      modifies b
      ensures var r := Normalize.Atomize(c, s, mode.fuse);
        b.out == old(b.out) + r.binds && a == r.atom
      decreases c, 1
    {
      hide Normalize.AtomizeCall, Normalize.Seq, Pushed, Normalize.LetShift, DeferredShift.Apply;
      match c {
        case Var(i) => var j := ApplyLoop(s, i); a := Atom.Var(j);
        case EnvRef(k) => a := Atom.EnvRef(k);
        case Global(g) => a := Atom.Global(g);
        case Erased => a := Atom.Erased;
        case MkClosure(name, caps) =>
          var atoms := Seq(caps, s, b);
          b.Push(Comp.MkClosure(name, atoms));
          a := Atom.Var(0);
        case CallClosure(_, _) => a := AtomizeCall(c, s, b);
        case App(_, _) => a := AtomizeCall(c, s, b);
        case Prim(op, args) =>
          var atoms := Seq(args, s, b);
          b.Push(Comp.Prim(op, atoms));
          a := Atom.Var(0);
        case Let(v, body) =>
          var before := |b.out|;
          var va := Atomize(v, s, b);
          var nv := |b.out| - before;
          b.Push(Use(va));
          var bodyShift := BodyShift(s, nv);
          a := Atomize(body, bodyShift, b);
        case Lam(_) => a := Atom.Erased;
        case Fix(_) => a := Atom.Erased;
        case Case(_, _) => a := Atom.Erased;
        case IfZero(_, _, _) => a := Atom.Erased;
      }
    }

    method AtomizeCall(c: Cir, s: Shift, b: Binds) returns (a: Atom)
      requires c.CallClosure? || c.App?
      modifies b
      ensures var r := Normalize.AtomizeCall(c, s, mode.fuse);
        b.out == old(b.out) + r.binds && a == r.atom
      decreases c, 0, 1
    {
      hide Pushed, Normalize.Atomize;
      if mode.fuse && c.f.MkClosure? && c.f.caps == [] {
        var aa := Atomize(c.a, s, b);
        b.Push(CallGlobal(c.f.name, aa));
      } else {
        var fa, aa := Pair(c, s, b);
        b.Push(Call(fa, aa));
      }
      a := Atom.Var(0);
    }

    /** The two operands of a call, the first shifted past the `let`s of the second. */
    method Pair(c: Cir, s: Shift, b: Binds) returns (fa: Atom, aa: Atom)
      requires c.CallClosure? || c.App?
      modifies b
      ensures var x := Normalize.Atomize(c.f, s, mode.fuse);
        var y := Normalize.Atomize(c.a, Pushed(s, 0, |x.binds|), mode.fuse);
        b.out == old(b.out) + (x.binds + y.binds) && aa == y.atom
        && fa == Normalize.ShiftAtom(x.atom, 0, |y.binds|)
      decreases c, 0, 0
    {
      hide Pushed, Normalize.Atomize;
      var start := |b.out|;
      var first := Atomize(c.f, s, b);
      var pre := |b.out|;
      var sub := PushedLoop(s, 0, pre - start);
      aa := Atomize(c.a, sub, b);
      fa := Normalize.ShiftAtom(first, 0, |b.out| - pre);
    }

    method BodyShift(s: Shift, nv: nat) returns (r: Shift)
      ensures r == Normalize.LetShift(s, nv)
    {
      hide Pushed;
      r := PushedLoop(UnderBinders(s, 1), 1, nv);
    }

    /** Operands left to right, each past the `let`s emitted since this sequence began. */
    method Seq(cs: seq<Cir>, s: Shift, b: Binds) returns (atoms: seq<Atom>)
      modifies b
      ensures var r := Normalize.Seq(cs, s, mode.fuse);
        b.out == old(b.out) + r.binds && atoms == r.atoms
      decreases cs, 0
    {
      hide Pushed, Normalize.Atomize;
      var start := |b.out|;
      atoms := [];
      for i := 0 to |cs|
        invariant var r := Normalize.Seq(cs[..i], s, mode.fuse);
          b.out == old(b.out) + r.binds && atoms == r.atoms
      {
        var pre := |b.out|;
        var sub := PushedLoop(s, 0, pre - start);
        var a := Atomize(cs[i], sub, b);
        var added := |b.out| - pre;
        atoms := Normalize.ShiftAtoms(atoms, added) + [a];
        assert cs[..i + 1][..i] == cs[..i];
      }
      assert cs[..|cs|] == cs;
    }

    /** Emit `c` in tail position; every control-flow path gets its own accumulator. */
    method Tail(c: Cir, s: Shift) returns (t: AnfLang.Tail)
      ensures t == Normalize.ToTail(c, s, mode)
      decreases c, 3
    {
      hide Pushed, Normalize.Atomize, Normalize.Wrap, Normalize.LetShift, Normalize.TailOfCall, Normalize.ToTailArms;
      match c {
        case CallClosure(_, _) => t := TailOfCall(c, s);
        case App(_, _) => t := TailOfCall(c, s);
        case Case(scrut, arms) =>
          var b := new Binds();
          var atom := Atomize(scrut, s, b);
          assert b.out == Normalize.Atomize(scrut, s, mode.fuse).binds;
          var arms' := TailArms(arms, s, |b.out|);
          t := Normalize.Wrap(b.out, AnfLang.Tail.Case(atom, arms'));
        case IfZero(scrut, x, y) =>
          var b := new Binds();
          var atom := Atomize(scrut, s, b);
          assert b.out == Normalize.Atomize(scrut, s, mode.fuse).binds;
          var branch := PushedLoop(s, 0, |b.out|);
          var x' := Tail(x, branch);
          var y' := Tail(y, branch);
          t := Normalize.Wrap(b.out, AnfLang.Tail.IfZero(atom, x', y'));
        case Let(v, body) =>
          var b := new Binds();
          var va := Atomize(v, s, b);
          assert b.out == Normalize.Atomize(v, s, mode.fuse).binds;
          var bodyShift := BodyShift(s, |b.out|);
          b.Push(Use(va));
          var rest := Tail(body, bodyShift);
          t := Normalize.Wrap(b.out, rest);
        case _ =>
          var b := new Binds();
          var atom := Atomize(c, s, b);
          assert b.out == Normalize.Atomize(c, s, mode.fuse).binds;
          t := Normalize.Wrap(b.out, Ret(atom));
      }
    }

    method TailArms(arms: seq<Arm>, s: Shift, pushed: nat) returns (r: seq<TailArm>)
      ensures r == Normalize.ToTailArms(arms, s, pushed, mode)
      decreases arms, 0
    {
      hide Pushed, Normalize.ToTail;
      r := [];
      for i := 0 to |arms|
        invariant |r| == i && forall k :: 0 <= k < i ==> r[k] == Normalize.ToTailArms(arms, s, pushed, mode)[k]
      {
        var armShift := PushedLoop(UnderBinders(s, arms[i].binders), arms[i].binders, pushed);
        var body := Tail(arms[i].body, armShift);
        r := r + [TailArm(arms[i].con, arms[i].binders, body)];
      }
    }

    method TailOfCall(c: Cir, s: Shift) returns (t: AnfLang.Tail)
      requires c.CallClosure? || c.App?
      ensures t == Normalize.TailOfCall(c.f, c.a, s, mode)
      decreases c, 2
    {
      hide Pushed, Normalize.Atomize, Normalize.Wrap;
      var b := new Binds();
      var f := c.f;
      if mode.self.Some? && mode.recursive && f.MkClosure? && f.name == mode.self.value && f.caps == [] {
        var aa := Atomize(c.a, s, b);
        assert b.out == Normalize.Atomize(c.a, s, mode.fuse).binds;
        t := Normalize.Wrap(b.out, Jump(aa));
      } else {
        var fa, aa := Pair(c, s, b);
        ghost var x := Normalize.Atomize(f, s, mode.fuse);
        assert b.out == x.binds + Normalize.Atomize(c.a, Pushed(s, 0, |x.binds|), mode.fuse).binds;
        if mode.self.Some? && mode.recursive && fa == Atom.Global(mode.self.value) {
          t := Normalize.Wrap(b.out, Jump(aa));
        } else {
          t := Normalize.Wrap(b.out, TailCall(fa, aa));
        }
      }
    }
  }

  method NormalizeBody(body: Cir, self: Option<FName>, recursive: bool, fuse: bool, raise: bool) returns (t: Tail)
    ensures t == Normalize.Peephole(
      Normalize.ToTail(body, IDENTITY, Normalize.Mode(self, recursive, fuse)), self, recursive, raise)
  {
    hide Normalize.ToTail, Normalize.Peephole;
    var anfer := new Anfer(Normalize.Mode(self, recursive, fuse));
    var tail := anfer.Tail(body, IDENTITY);
    t := Normalize.Peephole(tail, self, recursive, raise);
  }

  method NormalizeProgram(p: Program, fuse: bool, raise: bool) returns (q: AnfProgram)
    ensures q == Normalize.NormalizeProgram(p, fuse, raise)
  {
    hide Normalize.ToTail, Normalize.Peephole;
    var funcs: seq<AnfFunc> := [];
    for i := 0 to |p.funcs|
      invariant |funcs| == i
      invariant forall k :: 0 <= k < i ==> funcs[k] == Normalize.NormalizeFunc(p.funcs[k], fuse, raise)
    {
      var f := p.funcs[i];
      var body := NormalizeBody(f.body, Some(f.name), f.recursive, fuse, raise);
      funcs := funcs + [AnfFunc(f.name, f.recursive, body)];
    }
    var entry := NormalizeBody(p.entry, None, false, fuse, raise);
    q := AnfProgram(funcs, entry);
  }
}
