/** The converter object: it pushes lifted functions and draws fresh names as it walks the term. */
module ConverterObject {
  import opened Values
  import opened CirLang
  import Closure

  class Converter {
    var funcs: seq<Func>
    var counter: nat

    constructor ()
      ensures funcs == [] && counter == 0
    {
      funcs, counter := [], 0;
    }

    method Fresh(hint: string) returns (name: FName)
      modifies this`counter
      ensures name == FName(hint, old(counter)) && counter == old(counter) + 1
    {
      name := FName(hint, counter);
      counter := counter + 1;
    }

    /** Convert `c`; the object ends with the lifted functions appended and the counter advanced. */
    method Go(c: Cir) returns (r: Cir)
      modifies this
      ensures var conv := Closure.Go(c, old(counter));
        r == conv.term && funcs == old(funcs) + conv.funcs && counter == conv.next
      decreases c, 1
    {
      hide Closure.Lift, Closure.LiftRec, Closure.GoSeq, Closure.GoArms;
      match c {
        case Var(_) => r := c;
        case EnvRef(_) => r := c;
        case Global(_) => r := c;
        case Erased => r := c;
        case Lam(b) => r := Lift(b, false, "lam");
        case Fix(b) =>
          if b.Lam? {
            r := LiftRecursiveFn(b.body);
          } else {
            r := Lift(b, true, "fix");
          }
        case App(f, a) =>
          var f' := Go(f);
          var a' := Go(a);
          r := CallClosure(f', a');
        case CallClosure(f, a) =>
          var f' := Go(f);
          var a' := Go(a);
          r := CallClosure(f', a');
        case Let(v, b) =>
          var v' := Go(v);
          var b' := Go(b);
          r := Let(v', b');
        case Case(s, arms) =>
          var s' := Go(s);
          var arms' := GoArms(arms);
          r := Case(s', arms');
        case IfZero(s, t, e) =>
          var s' := Go(s);
          var t' := Go(t);
          var e' := Go(e);
          ghost var cs := Closure.Go(s, old(counter));
          ghost var ct := Closure.Go(t, cs.next);
          Assoc3(old(funcs), cs.funcs, ct.funcs, Closure.Go(e, ct.next).funcs);
          r := IfZero(s', t', e');
        case MkClosure(name, caps) =>
          var caps' := GoSeq(caps);
          r := MkClosure(name, caps');
        case Prim(op, args) =>
          var args' := GoSeq(args);
          r := Prim(op, args');
      }
    }

    method GoSeq(cs: seq<Cir>) returns (terms: seq<Cir>)
      modifies this
      ensures var conv := Closure.GoSeq(cs, old(counter));
        terms == conv.terms && funcs == old(funcs) + conv.funcs && counter == conv.next
      decreases cs, 0
    {
      terms := [];
      for i := 0 to |cs|
        invariant var conv := Closure.GoSeq(cs[..i], old(counter));
          terms == conv.terms && funcs == old(funcs) + conv.funcs && counter == conv.next
      {
        var t := Go(cs[i]);
        terms := terms + [t];
        assert cs[..i + 1][..i] == cs[..i];
      }
      assert cs[..|cs|] == cs;
    }

    method GoArms(arms: seq<Arm>) returns (arms': seq<Arm>)
      modifies this
      ensures var conv := Closure.GoArms(arms, old(counter));
        arms' == conv.arms && funcs == old(funcs) + conv.funcs && counter == conv.next
      decreases arms, 0
    {
      arms' := [];
      for i := 0 to |arms|
        invariant var conv := Closure.GoArms(arms[..i], old(counter));
          arms' == conv.arms && funcs == old(funcs) + conv.funcs && counter == conv.next
      {
        var b := Go(arms[i].body);
        arms' := arms' + [Arm(arms[i].con, arms[i].binders, b)];
        assert arms[..i + 1][..i] == arms[..i];
      }
      assert arms[..|arms|] == arms;
    }

    method Lift(body: Cir, recursive: bool, hint: string) returns (r: Cir)
      modifies this
      ensures var conv := Closure.Lift(body, recursive, hint, old(counter));
        r == conv.term && funcs == old(funcs) + conv.funcs && counter == conv.next
      decreases body, 2
    {
      var fvs := Closure.FreeVars(body, 1);
      var captures := Closure.Captures(fvs, 1);
      var converted := Go(body);
      var rebound := Closure.Rebind(Closure.LamView(fvs), converted, 0);
      var name := Fresh(hint);
      funcs := funcs + [Func(name, recursive, rebound)];
      r := MkClosure(name, captures);
    }

    method LiftRecursiveFn(inner: Cir) returns (r: Cir)
      modifies this
      ensures var conv := Closure.LiftRec(inner, old(counter));
        r == conv.term && funcs == old(funcs) + conv.funcs && counter == conv.next
      decreases inner, 2
    {
      var fvs := Closure.FreeVars(inner, 2);
      var captures := Closure.Captures(fvs, 2);
      var name := Fresh("rec");
      var converted := Go(inner);
      var rebound := Closure.Rebind(Closure.RecView(fvs, name), converted, 0);
      funcs := funcs + [Func(name, true, rebound)];
      r := MkClosure(name, captures);
    }
  }

  lemma Assoc3<T>(a: seq<T>, b: seq<T>, c: seq<T>, d: seq<T>)
    ensures a + b + c + d == a + (b + c + d)
  {}

  method Convert(entry: Cir) returns (p: Program)
    ensures p == Closure.Convert(entry)
  {
    var cc := new Converter();
    var term := cc.Go(entry);
    p := Program(cc.funcs, term);
  }
}
