/** Runtime values and the primitive operations every language of the pass chain shares.

    A value is generic in the code a closure carries: a source closure carries a body, a converted
    closure carries the name of a lifted function. */
module Values {

  /** How a fuel-indexed evaluation ends. `Stuck` is any state the compiled program does not define
      (an application of a non-function, a projection out of range, a division by zero, ...). */
  datatype Outcome<+T> = Done(value: T) | Stuck | Timeout {
    predicate IsFailure() { !Done? }

    function PropagateFailure<U>(): Outcome<U>
      requires !Done?
    {
      if Stuck? then Stuck else Timeout
    }

    function Extract(): T
      requires Done?
    {
      value
    }
  }

  /** Machine literals: `IntLit`, `NatLit` and `StrLit` of the source. */
  datatype Lit = IntL(n: int) | NatL(count: nat) | StrL(codepoints: seq<nat>)

  datatype Val<C> =
    | Null
    | Scalar(lit: Lit)
    | Con(con: string, args: seq<Val<C>>)
    | Tuple(fields: seq<Val<C>>)
    | Clo(code: C, env: seq<Val<C>>)

  datatype IntPrimOp = Add | Sub | Mul | Div | Eq | Lt

  /** The operations that evaluate all their operands, left to right, at their own binder depth. */
  datatype PrimOp =
    | ConOp(con: string)
    | TupleOp
    | ProjOp(i: nat)
    | LitOp(lit: Lit)
    | IntOp(op: IntPrimOp)

  const TWO_63: int := 0x8000_0000_0000_0000
  const TWO_64: int := 0x1_0000_0000_0000_0000

  /** Two's-complement wrap-around of a 64-bit machine integer. */
  function Wrap64(x: int): (r: int)
    ensures -TWO_63 <= r < TWO_63
  {
    (x + TWO_63) % TWO_64 - TWO_63
  }

  /** Signed division rounding toward zero. */
  function TruncDiv(x: int, y: int): int
    requires y != 0
  {
    if x >= 0 then x / y else -((-x) / y)
  }

  function EvalInt(op: IntPrimOp, x: int, y: int): Outcome<int> {
    match op
    case Add => Done(Wrap64(x + y))
    case Sub => Done(Wrap64(x - y))
    case Mul => Done(Wrap64(x * y))
    case Div => if y == 0 || (x == -TWO_63 && y == -1) then Stuck else Done(TruncDiv(x, y))
    case Eq => Done(if x == y then 1 else 0)
    case Lt => Done(if x < y then 1 else 0)
  }

  /** The value of a primitive on evaluated operands. */
  function EvalPrim<C>(op: PrimOp, args: seq<Val<C>>): Outcome<Val<C>> {
    match op
    case ConOp(c) => Done(Con(c, args))
    case TupleOp => Done(Tuple(args))
    case ProjOp(i) =>
      if |args| == 1 && args[0].Tuple? && i < |args[0].fields| then Done(args[0].fields[i]) else Stuck
    case LitOp(l) => if args == [] then Done(Scalar(l)) else Stuck
    case IntOp(o) =>
      if |args| == 2 && IsInt(args[0]) && IsInt(args[1]) then
        var r :- EvalInt(o, args[0].lit.n, args[1].lit.n);
        Done(Scalar(IntL(r)))
      else Stuck
  }

  predicate IsInt<C>(v: Val<C>) {
    v.Scalar? && v.lit.IntL?
  }

  /** Fields are bound in order, so the last field is the innermost variable. */
  function Reverse<T>(s: seq<T>): (r: seq<T>)
    ensures |r| == |s|
    ensures forall i :: 0 <= i < |s| ==> r[i] == s[|s| - 1 - i]
  {
    seq(|s|, i requires 0 <= i < |s| => s[|s| - 1 - i])
  }
}
