/**
 * The profile competency page (`ProfileCompetencyComponent`): the user name shown, the joined
 * load of the validation result and the GitHub analysis, each kept only when it is an
 * object, and the top-N lists read from the analysis.  The colour and label classifiers are
 * `Bands`'.
 */
module Competency {
  import opened JsValue
  import opened Api
  import opened Auth
  import opened Growth
  import opened ProfileValidation

  const LoadErrorMessage := "Unable to load data from server. Please try again later."

  /** The GitHub analysis request; its `since`/`until` dates come from the clock and are not modelled. */
  datatype AnalysisRequest = AnalysisRequest(owner: string, repository: string, username: string)

  const DefaultAnalysis := AnalysisRequest(GitHubUsername, "CleanArchitecture", GitHubUsername)

  /**
   * `analysis?.[field]` cut to its first `n` entries; nothing when the field is not an array
   * (absent, `null` or otherwise not a list).
   */
  function TopItems(analysis: Value, field: string, n: nat): (r: seq<Value>)
    ensures |r| <= n
    ensures !Get(analysis, field).Arr? ==> r == []
    ensures Get(analysis, field).Arr? ==>
              var items := Get(analysis, field).items;
              |r| == (if |items| < n then |items| else n) && r == items[..|r|]
  {
    match Get(analysis, field)
    case Arr(items) => Slice(items, 0, n)
    case _ => []
  }

  /** A page field holds either nothing yet or an object the server sent. */
  predicate Loaded(v: Value) {
    v.Null? || IsObject(v)
  }

  class ProfileCompetencyComponent {
    var competencyData: Value
    var gitHubAnalysis: Value
    var isLoading: bool
    var errorMessage: string
    var userName: Value

    const auth: AuthService

    /** Only objects are ever stored in the two data fields. */
    predicate Valid()
      reads this
    {
      Loaded(competencyData) && Loaded(gitHubAnalysis)
    }

    constructor(auth: AuthService)
      ensures Valid() && this.auth == auth
      ensures competencyData == Null && gitHubAnalysis == Null
      ensures isLoading && errorMessage == "" && userName == Str("")
    {
      this.auth := auth;
      competencyData, gitHubAnalysis := Null, Null;
      isLoading, errorMessage, userName := true, "", Str("");
    }

    /** `ngOnInit`: the name shown is `name || email || 'User'`, then the load starts. */
    method OnInit() returns (validation: ValidationRequest, analysis: AnalysisRequest)
      requires Valid()
      modifies this
      ensures Valid()
      ensures userName == DisplayName(auth.GetUserInfo(), "User")
      ensures validation == DefaultRequest && analysis == DefaultAnalysis
      ensures isLoading && errorMessage == ""
      ensures competencyData == old(competencyData) && gitHubAnalysis == old(gitHubAnalysis)
    {
      isLoading := false;
      userName := DisplayName(auth.GetUserInfo(), "User");
      validation, analysis := LoadCompetencyData();
    }

    /** `loadCompetencyData`: the flags are reset and both fixed requests go out. */
    method LoadCompetencyData() returns (validation: ValidationRequest, analysis: AnalysisRequest)
      requires Valid()
      modifies this
      ensures Valid()
      ensures validation == DefaultRequest && analysis == DefaultAnalysis
      ensures isLoading && errorMessage == "" && userName == old(userName)
      ensures competencyData == old(competencyData) && gitHubAnalysis == old(gitHubAnalysis)
    {
      isLoading, errorMessage := true, "";
      validation := ValidationRequest(Finite(DefaultLearnerId), GitHubUsername);
      analysis := AnalysisRequest(GitHubUsername, "CleanArchitecture", GitHubUsername);
    }

    /**
     * The joined result: on success each part is kept when it is an object and ignored
     * otherwise; on any failure only the fixed message is shown.
     */
    method OnLoaded(competency: Outcome<Value>, github: Outcome<Value>)
      requires Valid()
      modifies this
      ensures Valid()
      ensures !isLoading && userName == old(userName)
      ensures Both(competency, github).Ok? ==>
                errorMessage == old(errorMessage)
                && competencyData == (if IsObject(competency.value) then competency.value else old(competencyData))
                && gitHubAnalysis == (if IsObject(github.value) then github.value else old(gitHubAnalysis))
      ensures Both(competency, github).Err? ==>
                errorMessage == LoadErrorMessage
                && competencyData == old(competencyData) && gitHubAnalysis == old(gitHubAnalysis)
    {
      match Both(competency, github) {
        case Ok((c, g)) =>
          if IsObject(c) {
            competencyData := c;
          }
          if IsObject(g) {
            gitHubAnalysis := g;
          }
          isLoading := false;
        case Err(_) =>
          isLoading := false;
          errorMessage := LoadErrorMessage;
      }
    }

    /** `getTopDomainAreas`: at most six. */
    function TopDomainAreas(): (r: seq<Value>)
      reads this
      ensures |r| <= 6
      ensures Get(gitHubAnalysis, "domainAreas").Arr? ==>
                var items := Get(gitHubAnalysis, "domainAreas").items;
                |r| == (if |items| < 6 then |items| else 6) && r == items[..|r|]
      ensures !Get(gitHubAnalysis, "domainAreas").Arr? ==> r == []
    {
      TopItems(gitHubAnalysis, "domainAreas", 6)
    }

    /** `getTopTechnologies`: at most six. */
    function TopTechnologies(): (r: seq<Value>)
      reads this
      ensures |r| <= 6
      ensures Get(gitHubAnalysis, "technologies").Arr? ==>
                var items := Get(gitHubAnalysis, "technologies").items;
                |r| == (if |items| < 6 then |items| else 6) && r == items[..|r|]
      ensures !Get(gitHubAnalysis, "technologies").Arr? ==> r == []
    {
      TopItems(gitHubAnalysis, "technologies", 6)
    }

    /** `getTopLanguages`: at most five. */
    function TopLanguages(): (r: seq<Value>)
      reads this
      ensures |r| <= 5
      ensures Get(gitHubAnalysis, "languages").Arr? ==>
                var items := Get(gitHubAnalysis, "languages").items;
                |r| == (if |items| < 5 then |items| else 5) && r == items[..|r|]
      ensures !Get(gitHubAnalysis, "languages").Arr? ==> r == []
    {
      TopItems(gitHubAnalysis, "languages", 5)
    }
  }
}
