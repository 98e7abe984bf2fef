/**
 * The skill-set statistics page (`SkillsetStatisticsComponent`): the user name shown and the
 * outcome of the single validation request, where only an object response is accepted.  The
 * classifiers are `Bands`'.
 */
module Statistics {
  import opened JsValue
  import opened Api
  import opened Auth
  import opened ProfileValidation

  const InvalidFormatMessage := "Invalid response format from server."
  const LoadErrorMessage := "Unable to load statistics from server. Please try again later."

  class SkillsetStatisticsComponent {
    var statistics: Value
    var isLoading: bool
    var errorMessage: string
    var userName: Value

    const auth: AuthService

    /** The statistics are nothing yet or an object the server sent. */
    predicate Valid()
      reads this
    {
      statistics.Null? || IsObject(statistics)
    }

    constructor(auth: AuthService)
      ensures Valid() && this.auth == auth && statistics == Null
      ensures isLoading && errorMessage == "" && userName == Str("")
    {
      this.auth := auth;
      statistics := Null;
      isLoading, errorMessage, userName := true, "", Str("");
    }

    /** `ngOnInit`: the name shown is `name || email || 'User'`, then the load starts. */
    method OnInit() returns (request: ValidationRequest)
      requires Valid()
      modifies this
      ensures Valid()
      ensures userName == DisplayName(auth.GetUserInfo(), "User")
      ensures request == DefaultRequest && isLoading && errorMessage == ""
      ensures statistics == old(statistics)
    {
      userName := DisplayName(auth.GetUserInfo(), "User");
      request := LoadStatistics();
    }

    /** `loadStatistics`: the flags are reset and the fixed request goes out. */
    method LoadStatistics() returns (request: ValidationRequest)
      requires Valid()
      modifies this
      ensures Valid()
      ensures request == DefaultRequest && isLoading && errorMessage == ""
      ensures statistics == old(statistics) && userName == old(userName)
    {
      isLoading, errorMessage := true, "";
      request := ValidationRequest(Finite(DefaultLearnerId), GitHubUsername);
    }

    /**
     * The response: an object becomes the statistics, anything else is reported as an
     * invalid format; a failure shows the fixed message.  Loading ends in every case and
     * the page never navigates.
     */
    method OnLoaded(outcome: Outcome<Value>)
      requires Valid()
      modifies this
      ensures Valid()
      ensures !isLoading && userName == old(userName)
      ensures outcome.Ok? && IsObject(outcome.value) ==>
                statistics == outcome.value && errorMessage == old(errorMessage)
      ensures outcome.Ok? && !IsObject(outcome.value) ==>
                statistics == old(statistics) && errorMessage == InvalidFormatMessage
      ensures outcome.Err? ==> statistics == old(statistics) && errorMessage == LoadErrorMessage
    {
      match outcome {
        case Ok(response) =>
          if IsObject(response) {
            statistics := response;
          } else {
            errorMessage := InvalidFormatMessage;
          }
          isLoading := false;
        case Err(_) =>
          isLoading := false;
          errorMessage := LoadErrorMessage;
      }
    }
  }
}
