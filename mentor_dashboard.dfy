/**
 * The mentor dashboard (`MentorDashboardComponent`): the same all-or-nothing load as the
 * learner dashboard, always for the default learner and without daily plans.
 */
module MentorDashboard {
  import opened Wrappers
  import opened JsValue
  import opened Api
  import opened Growth
  import opened ProfileValidation
  import opened Dashboard

  class MentorDashboardComponent {
    /** Fixed: this page never reads the token. */
    const learnerId: int := DefaultLearnerId
    var learnerData: Value
    var competencyProfile: Value
    var growthPlan: Option<GrowthPlan>
    var isLoading: bool
    var errorMessage: string

    constructor()
      ensures learnerData == Null && competencyProfile == Null && growthPlan.None?
      ensures isLoading && errorMessage == ""
    {
      learnerData, competencyProfile, growthPlan := Null, Null, None;
      isLoading, errorMessage := true, "";
    }

    /** `loadDashboardData` (also `ngOnInit`): the flags are reset and the requests go out. */
    method LoadDashboardData() returns (request: ValidationRequest)
      modifies this
      ensures request == DefaultRequest
      ensures isLoading && errorMessage == ""
      ensures learnerData == old(learnerData) && competencyProfile == old(competencyProfile)
      ensures growthPlan == old(growthPlan)
    {
      isLoading, errorMessage := true, "";
      request := ValidationRequest(Finite(learnerId), GitHubUsername);
    }

    /** The joined result: all three results taken, or only the fixed message shown. */
    method OnLoaded(learner: Outcome<Value>, competency: Outcome<Value>, plan: Outcome<GrowthPlan>)
      modifies this
      ensures !isLoading
      ensures Join(learner, competency, plan).Ok? ==>
                learnerData == learner.value && competencyProfile == competency.value
                && growthPlan == Some(plan.value) && errorMessage == old(errorMessage)
      ensures Join(learner, competency, plan).Err? ==>
                errorMessage == LoadErrorMessage
                && learnerData == old(learnerData) && competencyProfile == old(competencyProfile)
                && growthPlan == old(growthPlan)
    {
      match Join(learner, competency, plan) {
        case Ok(results) =>
          learnerData, competencyProfile := results.learner, results.competency;
          growthPlan := Some(results.growthPlan);
          isLoading := false;
        case Err(_) =>
          isLoading := false;
          errorMessage := LoadErrorMessage;
      }
    }
  }
}
