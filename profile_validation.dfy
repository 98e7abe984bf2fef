/**
 * The `ProfileValidation/validate` request that the dashboards, the competency page and the
 * statistics page all send: which learner's profile to check against which GitHub account.
 */
module ProfileValidation {
  import opened JsValue

  const ValidateEndpoint := "ProfileValidation/validate"
  /** The learner every page falls back to, and the one several pages always use. */
  const DefaultLearnerId := 2
  const GitHubUsername := "ali-akbar784"

  /** The request body; the learner id is whatever `Number(...)` produced, `NaN` included. */
  datatype ValidationRequest = ValidationRequest(learnerId: Number, gitHubUsername: string)

  /** The fixed request of the pages that do not look at the signed-in user. */
  const DefaultRequest := ValidationRequest(Finite(DefaultLearnerId), GitHubUsername)
}
