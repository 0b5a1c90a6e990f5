/** Where a term branches and what it boxes: terms whose branches are in tail position, and terms that
    build no constructor with arguments. */
module Shapes {
  import opened Values
  import opened CirLang

  /** `Any` asks nothing; an operand holds no branch, a body holds them in tail position. */
  datatype Mode = Any | Operand | Body

  /** What is asked of an operand of a term. */
  function Inner(m: Mode): Mode {
    if m.Any? then Any else Operand
  }

  /** What is asked of a function's body. */
  function Enclosed(m: Mode): Mode {
    if m.Any? then Any else Body
  }

  predicate Allowed(op: PrimOp, n: nat, boxes: bool) {
    boxes || !op.ConOp? || n == 0
  }

  predicate Shaped(c: Cir, m: Mode, boxes: bool) {
    match c
    case Lam(b) => Shaped(b, Enclosed(m), boxes)
    case Fix(b) => b.Lam? && Shaped(b, m, boxes)
    case App(f, a) => Shaped(f, Inner(m), boxes) && Shaped(a, Inner(m), boxes)
    case CallClosure(f, a) => Shaped(f, Inner(m), boxes) && Shaped(a, Inner(m), boxes)
    case Let(v, b) => Shaped(v, Inner(m), boxes) && Shaped(b, m, boxes)
    case Case(s, arms) =>
      !m.Operand? && Shaped(s, Inner(m), boxes) && forall k :: 0 <= k < |arms| ==> Shaped(arms[k].body, m, boxes)
    case IfZero(s, t, e) =>
      !m.Operand? && Shaped(s, Inner(m), boxes) && Shaped(t, m, boxes) && Shaped(e, m, boxes)
    case MkClosure(_, caps) => forall k :: 0 <= k < |caps| ==> Shaped(caps[k], Inner(m), boxes)
    case Prim(op, args) =>
      Allowed(op, |args|, boxes) && forall k :: 0 <= k < |args| ==> Shaped(args[k], Inner(m), boxes)
    case _ => true
  }
}
