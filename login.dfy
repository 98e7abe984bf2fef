/**
 * The login page (`LoginComponent`).  A submit starts an attempt; the login response, the
 * 200 ms grace period and the learner-profile lookup are separate completion events, each
 * a method here.  The `hasNavigated` flag lets at most one of them navigate per attempt.
 */
module Login {
  import opened Wrappers
  import opened Text
  import opened JsValue
  import opened Token
  import opened Api
  import opened Auth
  import opened Navigation

  const LoginSuccessDefault := "Login successful! Checking your profile..."
  const LoginErrorDefault := "Invalid email or password. Please try again."

  /**
   * `hasValidData`: the profile has a non-nullish `id`, or is a non-array object with at
   * least one key.
   */
  predicate HasValidData(data: Value)
    ensures HasValidData(data) ==> data.Obj?
  {
    var hasId := Truthy(data) && !IsNullish(Get(data, "id"));
    var hasContent := Truthy(data) && IsObject(data) && !data.Arr? && |data.fields| > 0;
    hasId || hasContent
  }

  /** Of all the shapes a profile can take, only a non-empty object counts as present. */
  lemma ValidDataIsNonEmptyObject(data: Value)
    ensures HasValidData(data) <==> data.Obj? && |data.fields| > 0
  {
    if data.Obj? && "id" in data.fields {
      assert "id" in data.fields.Keys;
    }
  }

  /** `a && b`: the first operand when it is falsy, otherwise the second. */
  function And(a: Value, b: Value): Value {
    if Truthy(a) then b else a
  }

  /** `tokenUserId || (responseUser && responseUser['id']) || '2'`. */
  function SelectUserId(tokenUserId: Value, response: Value): (r: Value)
    ensures Truthy(r)
  {
    var user := Get(response, "user");
    OrAllThree(tokenUserId, And(user, Get(user, "id")), Str("2"));
    OrAll([tokenUserId, And(user, Get(user, "id")), Str("2")])
  }

  /** The token's id wins, then the response's `user.id`, then the fixed id `'2'`. */
  lemma UserIdPriority(tokenUserId: Value, response: Value)
    ensures Truthy(tokenUserId) ==> SelectUserId(tokenUserId, response) == tokenUserId
    ensures !Truthy(tokenUserId) && Truthy(Get(Get(response, "user"), "id")) ==>
              SelectUserId(tokenUserId, response) == Get(Get(response, "user"), "id")
    ensures !Truthy(tokenUserId) && !Truthy(Get(Get(response, "user"), "id")) ==>
              SelectUserId(tokenUserId, response) == Str("2")
  {
    var user := Get(response, "user");
    OrAllThree(tokenUserId, And(user, Get(user, "id")), Str("2"));
  }

  /** `Learners/${userId}`, the profile lookup the grace period ends with. */
  function ProfileEndpoint(userId: Value): string {
    "Learners/" + ToStr(userId)
  }

  /** Where a loaded profile sends the user. */
  function ProfileRoute(data: Value): (r: string)
    ensures r == StatisticsPath <==> data.Obj? && |data.fields| > 0
    ensures r == EvaluationPath <==> !(data.Obj? && |data.fields| > 0)
  {
    ValidDataIsNonEmptyObject(data);
    if HasValidData(data) then StatisticsPath else EvaluationPath
  }

  /** Where a failed profile lookup sends the user: 404 and connection failures only. */
  function ProfileErrorRoute(status: Option<int>): (r: Option<string>)
    ensures r.Some? <==> status == Some(404) || status == Some(0) || status.None?
    ensures r.Some? ==> r.value == EvaluationPath
  {
    if status == Some(404) then Some(EvaluationPath)
    else if status == Some(0) || status.None? then Some(EvaluationPath)
    else None
  }

  function ProfileErrorMessage(message: string): (r: string)
    ensures message != "" ==> Contains(r, message)
    ensures message == "" ==> Contains(r, "Unknown error")
  {
    var shown := if message != "" then message else "Unknown error";
    ContainsInfix("Error checking profile: ", shown, ". Please try again.");
    "Error checking profile: " + (if message != "" then message else "Unknown error") + ". Please try again."
  }

  class LoginComponent {
    var isLoading: bool
    var errorMessage: string
    var successMessage: string
    var hasNavigated: bool
    /** Length of the router's log when the current attempt started. */
    ghost var attemptStart: nat

    const auth: AuthService
    const router: Router

    /** At most one navigation since the attempt started, and exactly one once the flag is set. */
    ghost predicate Valid()
      reads this, router
    {
      attemptStart <= |router.navigations| <= attemptStart + 1
      && (hasNavigated <==> |router.navigations| == attemptStart + 1)
    }

    constructor(auth: AuthService, router: Router)
      ensures this.auth == auth && this.router == router
      ensures !isLoading && errorMessage == "" && successMessage == "" && !hasNavigated
      ensures Valid()
    {
      this.auth := auth;
      this.router := router;
      isLoading := false;
      errorMessage := "";
      successMessage := "";
      hasNavigated := false;
      attemptStart := |router.navigations|;
    }

    /**
     * `onSubmit`: an invalid form changes nothing and sends nothing; a valid one starts a new
     * attempt and sends the credentials.
     */
    method OnSubmit(formValid: bool, email: Value, password: Value) returns (credentials: Option<Value>)
      requires Valid()
      modifies this
      ensures Valid()
      ensures !formValid ==> credentials.None? && unchanged(this)
      ensures formValid ==>
                credentials == Some(Obj(map["email" := email, "password" := password]))
                && isLoading && errorMessage == "" && successMessage == "" && !hasNavigated
                && attemptStart == |router.navigations|
    {
      if !formValid {
        return None;
      }
      isLoading := true;
      errorMessage := "";
      successMessage := "";
      hasNavigated := false;
      attemptStart := |router.navigations|;
      credentials := Some(Obj(map["email" := email, "password" := password]));
    }

    /** The login response: the service stores what it issues, and the page shows a message. */
    method OnLoginSucceeded(response: Value)
      requires Valid()
      modifies this, auth.tokens.storage
      ensures Valid()
      ensures auth.tokens.storage.items == AfterLogin(old(auth.tokens.storage.items), response)
      ensures successMessage == ToStr(Or(Get(response, "message"), Str(LoginSuccessDefault)))
      ensures isLoading == old(isLoading) && errorMessage == old(errorMessage)
      ensures hasNavigated == old(hasNavigated) && attemptStart == old(attemptStart)
    {
      auth.LoginSucceeded(response);
      successMessage := ToStr(Or(Get(response, "message"), Str(LoginSuccessDefault)));
    }

    /** The end of the grace period: the id whose learner profile is fetched next. */
    method OnGraceElapsed(response: Value) returns (userId: Value)
      ensures userId == SelectUserId(auth.tokens.GetUserId(), response)
      ensures Truthy(userId)
    {
      userId := SelectUserId(auth.tokens.GetUserId(), response);
    }

    method OnProfileLoaded(data: Value)
      requires Valid()
      modifies this, router
      ensures Valid()
      ensures !isLoading && attemptStart == old(attemptStart)
      ensures errorMessage == old(errorMessage) && successMessage == old(successMessage)
      ensures old(hasNavigated) ==> router.navigations == old(router.navigations)
      ensures !old(hasNavigated) ==> router.navigations == old(router.navigations) + [ProfileRoute(data)]
    {
      isLoading := false;
      if hasNavigated {
        return;
      }
      hasNavigated := true;
      router.Navigate(ProfileRoute(data));
    }

    method OnProfileFailed(fault: Fault)
      requires Valid()
      modifies this, router
      ensures Valid()
      ensures !isLoading && attemptStart == old(attemptStart) && successMessage == old(successMessage)
      ensures old(hasNavigated) ==>
                router.navigations == old(router.navigations) && errorMessage == old(errorMessage)
      ensures !old(hasNavigated) && ProfileErrorRoute(fault.status).Some? ==>
                router.navigations == old(router.navigations) + [EvaluationPath]
                && errorMessage == old(errorMessage)
      ensures !old(hasNavigated) && ProfileErrorRoute(fault.status).None? ==>
                router.navigations == old(router.navigations) && !hasNavigated
                && errorMessage == ProfileErrorMessage(fault.message)
    {
      isLoading := false;
      if hasNavigated {
        return;
      }
      match ProfileErrorRoute(fault.status) {
        case Some(path) =>
          hasNavigated := true;
          router.Navigate(path);
        case None =>
          errorMessage := ProfileErrorMessage(fault.message);
      }
    }

    /** A failed login shows the fault's message; nothing is fetched and nothing navigates. */
    method OnLoginFailed(fault: Fault)
      requires Valid()
      modifies this
      ensures Valid()
      ensures !isLoading
      ensures errorMessage == (if fault.message != "" then fault.message else LoginErrorDefault)
      ensures successMessage == old(successMessage) && hasNavigated == old(hasNavigated)
      ensures attemptStart == old(attemptStart)
    {
      isLoading := false;
      errorMessage := if fault.message != "" then fault.message else LoginErrorDefault;
    }
  }
}
