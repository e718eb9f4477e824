/** A pod that may die after any await. */
module Crashes {

  /** Whether the pod dies here; never when it is to survive. */
  method Dies(survives: bool) returns (dies: bool)
    ensures survives ==> !dies
  {
    dies := *;
    if survives {
      dies := false;
    }
  }
}
