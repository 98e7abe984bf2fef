/**
 * The growth plan page (`GrowthPlanComponent`): one generation request for the default
 * learner and its outcome.  The priority and difficulty colours are `Bands`'.
 */
module GrowthPlanPage {
  import opened Wrappers
  import opened Api
  import opened Growth
  import opened ProfileValidation

  const GenerateErrorDefault := "Failed to generate growth plan. Please try again."

  class GrowthPlanComponent {
    var growthPlan: Option<GrowthPlan>
    var isLoading: bool
    var errorMessage: string

    constructor()
      ensures growthPlan.None? && isLoading && errorMessage == ""
    {
      growthPlan, isLoading, errorMessage := None, true, "";
    }

    /** `generateGrowthPlan` (also `ngOnInit`): the flags are reset; the request is for learner 2. */
    method GenerateGrowthPlan() returns (learnerId: int)
      modifies this
      ensures learnerId == DefaultLearnerId
      ensures isLoading && errorMessage == "" && growthPlan == old(growthPlan)
    {
      isLoading, errorMessage := true, "";
      learnerId := DefaultLearnerId;
    }

    method OnGenerated(plan: GrowthPlan)
      modifies this
      ensures growthPlan == Some(plan) && !isLoading && errorMessage == old(errorMessage)
    {
      growthPlan := Some(plan);
      isLoading := false;
    }

    /** A failure shows `error.message || default` and keeps any earlier plan. */
    method OnFailed(fault: Fault)
      modifies this
      ensures !isLoading && growthPlan == old(growthPlan)
      ensures fault.message != "" ==> errorMessage == fault.message
      ensures fault.message == "" ==> errorMessage == GenerateErrorDefault
    {
      isLoading := false;
      errorMessage := if fault.message != "" then fault.message else GenerateErrorDefault;
    }
  }
}
