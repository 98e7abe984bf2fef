/**
 * The signup page (`SignupComponent`): the group validator that compares the two password
 * controls and flags the confirmation, the payload that leaves the confirmation out, and the
 * success and error outcomes of the submission.
 */
module Signup {
  import opened Wrappers
  import opened JsValue
  import opened Api
  import opened Auth
  import opened Navigation

  const SignupSuccessDefault := "Account created successfully! Redirecting..."
  const SignupErrorDefault := "An error occurred during signup. Please try again."

  /** `{ passwordMismatch: true }`. */
  const MismatchError := Obj(map["passwordMismatch" := Bool(true)])

  /** A form control: its value and its validation errors (`null` when valid). */
  class Control {
    var value: Value
    var errors: Value

    constructor(value: Value)
      ensures this.value == value && errors == Null
    {
      this.value := value;
      errors := Null;
    }
  }

  /** The two passwords differ (`!==`; the controls hold primitive values). */
  predicate Mismatch(password: Value, confirmation: Value) {
    password != confirmation
  }

  /**
   * `passwordMatchValidator`: with both controls present and different values, the
   * confirmation is flagged and the group error returned; otherwise the result is `null`
   * and no control is touched.
   */
  method PasswordMatchValidator(password: Option<Control>, confirmation: Option<Control>) returns (r: Value)
    modifies if confirmation.Some? then {confirmation.value} else {}
    ensures password.Some? && confirmation.Some? && Mismatch(password.value.value, confirmation.value.value) ==>
              r == MismatchError && confirmation.value.errors == MismatchError
    ensures !(password.Some? && confirmation.Some? && Mismatch(password.value.value, confirmation.value.value)) ==>
              r == Null && (confirmation.Some? ==> confirmation.value.errors == old(confirmation.value.errors))
    ensures confirmation.Some? ==> confirmation.value.value == old(confirmation.value.value)
  {
    if password.Some? && confirmation.Some? && Mismatch(password.value.value, confirmation.value.value) {
      confirmation.value.errors := MismatchError;
      return MismatchError;
    }
    return Null;
  }

  /** The `SignupRequest`: email, password and the two names, never the confirmation. */
  function SignupPayload(email: Value, password: Value, firstName: Value, lastName: Value): (r: Value)
    ensures r.Obj? && r.fields.Keys == {"email", "password", "firstName", "lastName"}
    ensures "confirmPassword" !in r.fields
    ensures Get(r, "password") == password && Get(r, "email") == email
    ensures Get(r, "firstName") == firstName && Get(r, "lastName") == lastName
  {
    Obj(map["email" := email, "password" := password, "firstName" := firstName, "lastName" := lastName])
  }

  class SignupComponent {
    var isLoading: bool
    var errorMessage: string
    var successMessage: string
    /** Navigations scheduled by a successful signup. */
    var scheduled: seq<string>

    const auth: AuthService
    const router: Router

    constructor(auth: AuthService, router: Router)
      ensures this.auth == auth && this.router == router
      ensures !isLoading && errorMessage == "" && successMessage == "" && scheduled == []
    {
      this.auth := auth;
      this.router := router;
      isLoading, errorMessage, successMessage := false, "", "";
      scheduled := [];
    }

    /** `onSubmit`: an invalid form sends nothing; a valid one sends the payload. */
    method OnSubmit(formValid: bool, email: Value, password: Value, firstName: Value, lastName: Value)
      returns (request: Option<Value>)
      modifies this
      ensures !formValid ==> request.None? && unchanged(this)
      ensures formValid ==>
                request == Some(SignupPayload(email, password, firstName, lastName))
                && isLoading && errorMessage == "" && successMessage == ""
      ensures scheduled == old(scheduled)
    {
      if !formValid {
        return None;
      }
      isLoading, errorMessage, successMessage := true, "", "";
      request := Some(SignupPayload(email, password, firstName, lastName));
    }

    /** Success: the service stores what was issued, the message is shown, `/login` is two seconds away. */
    method OnSignupSucceeded(response: Value)
      modifies this, auth.tokens.storage
      ensures auth.tokens.storage.items == AfterSignup(old(auth.tokens.storage.items), response)
      ensures !isLoading && successMessage == ToStr(Or(Get(response, "message"), Str(SignupSuccessDefault)))
      ensures scheduled == old(scheduled) + [LoginPath] && errorMessage == old(errorMessage)
    {
      auth.SignupSucceeded(response);
      isLoading := false;
      successMessage := ToStr(Or(Get(response, "message"), Str(SignupSuccessDefault)));
      scheduled := scheduled + [LoginPath];
    }

    /** Failure: the message is shown and nothing is scheduled. */
    method OnSignupFailed(fault: Fault)
      modifies this
      ensures !isLoading && errorMessage == (if fault.message != "" then fault.message else SignupErrorDefault)
      ensures scheduled == old(scheduled) && successMessage == old(successMessage)
    {
      isLoading := false;
      errorMessage := if fault.message != "" then fault.message else SignupErrorDefault;
    }

    /** The oldest redirect timer fires: the router opens the route it was scheduled for. */
    method OnRedirectElapsed()
      requires |scheduled| > 0
      modifies this, router
      ensures router.navigations == old(router.navigations) + [old(scheduled)[0]]
      ensures scheduled == old(scheduled)[1..]
      ensures isLoading == old(isLoading) && errorMessage == old(errorMessage)
      ensures successMessage == old(successMessage)
    {
      var target := scheduled[0];
      scheduled := scheduled[1..];
      router.Navigate(target);
    }
  }
}
