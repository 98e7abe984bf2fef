/**
 * What the learner and mentor dashboards load: the learner record, the competency profile and
 * a generated growth plan, requested together and delivered all at once or not at all.
 */
module Dashboard {
  import opened JsValue
  import opened Api
  import opened Growth

  const LoadErrorMessage := "Failed to load dashboard data. Please try again."

  datatype DashboardData = DashboardData(learner: Value, competency: Value, growthPlan: GrowthPlan)

  /** `forkJoin({ learner, competency, growthPlan })`: all three results, or a failure of one. */
  function Join(learner: Outcome<Value>, competency: Outcome<Value>, plan: Outcome<GrowthPlan>)
    : (r: Outcome<DashboardData>)
    ensures r.Ok? <==> learner.Ok? && competency.Ok? && plan.Ok?
    ensures r.Ok? ==> r.value == DashboardData(learner.value, competency.value, plan.value)
    ensures r.Err? ==> (learner.Err? && r.fault == learner.fault)
                       || (competency.Err? && r.fault == competency.fault)
                       || (plan.Err? && r.fault == plan.fault)
  {
    match Both(Both(learner, competency), plan)
    case Ok(((l, c), p)) => Ok(DashboardData(l, c, p))
    case Err(fault) => Err(fault)
  }
}
