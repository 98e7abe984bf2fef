/**
 * The learner dashboard (`LearnerDashboardComponent`): the learner id taken from the token,
 * the all-or-nothing load of the three results, and the daily learning plans built from the
 * current phase of the loaded growth plan.  The selectors over the plan are `Growth`'s and
 * the colour classifiers `Bands`'.
 */
module LearnerDashboard {
  import opened Wrappers
  import opened JsValue
  import opened Token
  import opened Api
  import opened Growth
  import opened ProfileValidation
  import opened Dashboard

  class LearnerDashboardComponent {
    var learnerId: Number
    var learnerData: Value
    var competencyProfile: Value
    var growthPlan: Option<GrowthPlan>
    var isLoading: bool
    var errorMessage: string
    var todayLearning: Option<DailyLearning>
    var tomorrowLearning: Option<DailyLearning>

    const tokens: TokenService

    constructor(tokens: TokenService)
      ensures this.tokens == tokens && learnerId == Finite(DefaultLearnerId)
      ensures learnerData == Null && competencyProfile == Null && growthPlan.None?
      ensures isLoading && errorMessage == "" && todayLearning.None? && tomorrowLearning.None?
    {
      this.tokens := tokens;
      learnerId := Finite(DefaultLearnerId);
      learnerData, competencyProfile, growthPlan := Null, Null, None;
      isLoading, errorMessage := true, "";
      todayLearning, tomorrowLearning := None, None;
    }

    /** `ngOnInit`: a truthy user id from the token replaces the default, then the load starts. */
    method OnInit() returns (request: ValidationRequest)
      modifies this
      ensures Truthy(tokens.GetUserId()) ==> learnerId == ToNumber(tokens.GetUserId())
      ensures !Truthy(tokens.GetUserId()) ==> learnerId == old(learnerId)
      ensures request == ValidationRequest(learnerId, GitHubUsername)
      ensures isLoading && errorMessage == ""
      ensures learnerData == old(learnerData) && competencyProfile == old(competencyProfile)
      ensures growthPlan == old(growthPlan)
      ensures todayLearning == old(todayLearning) && tomorrowLearning == old(tomorrowLearning)
    {
      var tokenUserId := tokens.GetUserId();
      if Truthy(tokenUserId) {
        learnerId := ToNumber(tokenUserId);
      }
      request := LoadDashboardData();
    }

    /**
     * `loadDashboardData`: the flags are reset and the three requests go out for the same
     * learner; the returned value is the validation body, the other two carry only the id.
     */
    method LoadDashboardData() returns (request: ValidationRequest)
      modifies this
      ensures request == ValidationRequest(learnerId, GitHubUsername)
      ensures isLoading && errorMessage == "" && learnerId == old(learnerId)
      ensures learnerData == old(learnerData) && competencyProfile == old(competencyProfile)
      ensures growthPlan == old(growthPlan)
      ensures todayLearning == old(todayLearning) && tomorrowLearning == old(tomorrowLearning)
    {
      isLoading, errorMessage := true, "";
      request := ValidationRequest(learnerId, GitHubUsername);
    }

    /**
     * `generateDailyLearningPlans`: nothing without a plan or without phases; otherwise
     * today's and tomorrow's plans from the first phase.
     */
    method GenerateDailyLearningPlans()
      modifies this
      ensures CurrentPhase(growthPlan).None? ==>
                todayLearning == old(todayLearning) && tomorrowLearning == old(tomorrowLearning)
      ensures CurrentPhase(growthPlan).Some? ==>
                todayLearning == Some(TodayPlan(CurrentPhase(growthPlan).value))
                && tomorrowLearning == Some(TomorrowPlan(CurrentPhase(growthPlan).value))
      ensures growthPlan == old(growthPlan) && learnerId == old(learnerId)
      ensures learnerData == old(learnerData) && competencyProfile == old(competencyProfile)
      ensures isLoading == old(isLoading) && errorMessage == old(errorMessage)
    {
      if growthPlan.None? || |growthPlan.value.learningPhases| == 0 {
        return;
      }
      var currentPhase := growthPlan.value.learningPhases[0];
      todayLearning := Some(TodayPlan(currentPhase));
      tomorrowLearning := Some(TomorrowPlan(currentPhase));
    }

    /**
     * The joined result: on success all three results are taken and the daily plans rebuilt;
     * on any failure only the fixed message is shown and no result field changes.
     */
    method OnLoaded(learner: Outcome<Value>, competency: Outcome<Value>, plan: Outcome<GrowthPlan>)
      modifies this
      ensures !isLoading && learnerId == old(learnerId)
      ensures Join(learner, competency, plan).Ok? ==>
                learnerData == learner.value && competencyProfile == competency.value
                && growthPlan == Some(plan.value) && errorMessage == old(errorMessage)
      ensures Join(learner, competency, plan).Ok? && |plan.value.learningPhases| > 0 ==>
                todayLearning == Some(TodayPlan(plan.value.learningPhases[0]))
                && tomorrowLearning == Some(TomorrowPlan(plan.value.learningPhases[0]))
      ensures Join(learner, competency, plan).Ok? && |plan.value.learningPhases| == 0 ==>
                todayLearning == old(todayLearning) && tomorrowLearning == old(tomorrowLearning)
      ensures Join(learner, competency, plan).Err? ==>
                errorMessage == LoadErrorMessage
                && learnerData == old(learnerData) && competencyProfile == old(competencyProfile)
                && growthPlan == old(growthPlan)
                && todayLearning == old(todayLearning) && tomorrowLearning == old(tomorrowLearning)
    {
      match Join(learner, competency, plan) {
        case Ok(results) =>
          learnerData := results.learner;
          competencyProfile := results.competency;
          growthPlan := Some(results.growthPlan);
          GenerateDailyLearningPlans();
          isLoading := false;
        case Err(_) =>
          isLoading := false;
          errorMessage := LoadErrorMessage;
      }
    }
  }
}
