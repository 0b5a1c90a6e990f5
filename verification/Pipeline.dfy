/** Closure conversion followed by normalization, from source term to A-normal form. */
module Pipeline {
  import opened Values
  import opened CirLang
  import opened AnfLang
  import opened ClosureSim
  import Closure
  import ClosureWf
  import Normalize
  import NormalizePreserves

  /** A closed source program and its normal form end, get stuck and run out of fuel together, and
      the normal form's value stands for the source value, whatever the optimization switches. */
  lemma CompilePreserves(entry: Cir, fuse: bool, raise: bool, fuel: nat)
    requires IsSource(entry) && forall i: nat :: !Free(entry, i)
    requires Normalize.ProgramInFragment(Closure.Convert(entry))
    ensures var p := Closure.Convert(entry);
      RelOutcome(p.funcs, EvalS(entry, [], fuel), RunProgram(Normalize.NormalizeProgram(p, fuse, raise), fuel))
  {
    hide RunProgram, EvalS, EvalT, Rel, Closure.Convert, Normalize.NormalizeProgram;
    var p := Closure.Convert(entry);
    var ar := ClosureWf.ConvertWellFormed(entry);
    ClosureWf.ConvertPreserves(entry, fuel);
    NormalizePreserves.NormalizePreserves(p, ar, fuse, raise, fuel);
  }
}
