# HyperHive front end: a Dafny model of its services and pages

HyperHive is an Angular front end that learners use to sign up and log in, fill in a skills
self-evaluation, take generated quizzes, and read dashboards computed by a back end: a
competency profile, skill statistics and a growth plan. This project models the part of the
front end that holds logic of its own:

- **The core services.**
  - `TokenService` keeps the access and refresh tokens in browser storage and reads claims out of the token's payload.
  - `ApiService` builds request URLs and query parameters, unwraps the `{ data }` envelope the back end uses and turns every failure into one error shape.
  - `AuthService` stores what signup and login return and merges the user's details from storage and from the token.
  - The JWT interceptor attaches the bearer header and clears the tokens on a 401.
- **The pages.**
  - login and signup
  - the skills evaluation form
  - the quiz
  - the chat assistant
  - the header
  - the learner and mentor dashboards
  - the competency profile
  - the statistics page
  - the growth plan page

  Each page is a class whose fields are the page's state. Each method is one entry point: a user action, the arrival of a response, or a timer firing. Each method states its whole new state.
- **The pure selectors and classifiers shared by the pages.**
  - score bands and colours
  - contribution levels
  - priority and difficulty styles
  - the top-N lists
  - the growth-plan pickers
  - the daily learning plans

JavaScript values are modelled by `JsValue.Value`. It provides JavaScript truthiness, `||` chains, property access that yields `undefined`, `String(...)` and `Number(...)`. Browser storage is one `Storage.Store` holding a string map.

The model replaces the outside world as follows:

- **Requests.** A request appears as the value the method returns: the payload, the endpoint arguments, or the learner id.
- **Responses.** A response is an `Api.Outcome`: a value, or the `Fault` that `ApiService.handleError` produces.
- **Waiting on several requests.** `forkJoin` waits for several requests at once. It is modelled by `Api.Both` and `Dashboard.Join`: everything arrives or one fault does.
- **Router.** Navigations are appended to `Navigation.Router.navigations`.
- **Timers.** Each timer records the route it will open. Its firing is a separate method: `OnGraceElapsed` and `OnNavigationTimeout` for the login grace timer and the evaluation failure timer, `OnRedirectElapsed` and `OnScheduledNavigation` for the signup and evaluation success timers, which open the oldest scheduled route.
- **Decoding.** The token decoder (`atob`, `decodeURIComponent`, `JSON.parse`) is a function parameter of `TokenService`.

## Model

| member | source | states |
|---|---|---|
| Storage.Store.GetItem | src/app/core/services/token.service.ts:21-30 | A stored key reads back its value; a missing key reads as absent (`null`). |
| Token.WithTokens | src/app/core/services/token.service.ts:49-54 | The access token is always written; the refresh token only when truthy, otherwise the previous one is kept; no other storage key changes. |
| Token.Cleared | src/app/core/services/token.service.ts:73-76 | Both token keys are gone and every other key is untouched. |
| Token.ClearedIdempotent | src/app/core/services/token.service.ts:73-83 | Clearing twice is clearing once, and after clearing nobody is signed in. |
| Token.SignedInAfterSet | src/app/core/services/token.service.ts:49-83 | After `setTokens` the user is signed in exactly when the access token's text is non-empty. |
| Token.TokenService.SetTokens | src/app/core/services/token.service.ts:49-54 | Storage becomes `WithTokens` of the old storage. |
| Token.TokenService.GetAccessToken | src/app/core/services/token.service.ts:21-23 | The stored access token when its key is present, and `null` otherwise. |
| Token.TokenService.GetRefreshToken | src/app/core/services/token.service.ts:28-30 | The stored refresh token when its key is present, and `null` otherwise. |
| Token.TokenService.ClearTokens | src/app/core/services/token.service.ts:73-76 | Storage becomes `Cleared` of the old storage, and both getters then return nothing. |
| Token.TokenService.IsAuthenticated | src/app/core/services/token.service.ts:81-83 | True exactly when a non-empty access token is stored. |
| Token.ChosenToken | src/app/core/services/token.service.ts:90-93 | A non-empty argument token wins, else a non-empty stored token, else none; a chosen token is never empty. |
| Token.SecondSegment | src/app/core/services/token.service.ts:95 | A segment exists exactly when the token holds a dot, and it contains no dot. |
| Token.SecondSegmentOfCompact | src/app/core/services/token.service.ts:95 | For `header.payload.signature` the selected segment is the payload. |
| Token.ToStandardAlphabet | src/app/core/services/token.service.ts:96 | Length-preserving, character-wise `-`→`+` and `_`→`/`; no URL-alphabet character remains. |
| Token.ToUrlAlphabet | src/app/core/services/token.service.ts:96 | The inverse translation, length-preserving, leaving no `+` or `/`. |
| Token.AlphabetRoundTrip | src/app/core/services/token.service.ts:96 | Translating a standard-alphabet string to the URL alphabet and back is the identity. |
| Token.PayloadOf | src/app/core/services/token.service.ts:95-108 | A token without a dot, or whose payload does not decode, yields `null`. |
| Token.PayloadOfCompact | src/app/core/services/token.service.ts:95-104 | A compact token whose payload decodes to some claims yields exactly those claims. |
| Token.TokenService.GetTokenPayload | src/app/core/services/token.service.ts:88-109 | No usable token gives `null`; otherwise the payload of the chosen token. |
| Token.ExpiredAt | src/app/core/services/token.service.ts:114-122 | Missing claims or a falsy `exp` count as expired; a numeric `exp` is expired exactly when `exp*1000` is a valid time before now; a non-numeric string `exp` is never expired (an invalid date compares false). |
| Token.TokenService.IsTokenExpired | src/app/core/services/token.service.ts:114-122 | The answer is `ExpiredAt` of the chosen token's payload at `now`; a token without a payload is expired. |
| Token.UserInfoOf | src/app/core/services/token.service.ts:127-140 | No claims gives `null`; otherwise an object that keeps every claim, always has `name`, `email` and `id`, and adds no other key. Without a `name` claim the name is `name‖fullName‖username‖sub` of the claims, and without an `email` claim the email is `email‖emailAddress`. |
| Token.TokenService.GetUserInfo | src/app/core/services/token.service.ts:127-131 | The user info is `UserInfoOf` of the stored token's payload; without a payload it is `null`. |
| Token.UserIdOf | src/app/core/services/token.service.ts:145-148 | A truthy `id` is returned, anything else becomes `null`. |
| Token.UserIdClaim | src/app/core/services/token.service.ts:134-147 | The user id is the `id` claim when present (`null` when it is falsy), else the first truthy of `userId`, `sub`, `nameid`, and `null` when none is truthy. |
| Token.TokenService.GetUserId | src/app/core/services/token.service.ts:145-148 | The id is `UserIdOf` of the user info: truthy or `null`, never another falsy value. |
| Text.ToLower | src/app/pages/growth-plan/growth-plan.component.ts:52 | Lower-casing keeps the length and maps each character on its own. |
| Text.TrimEmptyIffBlank | src/app/shared/components/chatbot/chatbot.component.ts:31 | `s.trim()` is empty exactly when every character of `s` is JavaScript white space. |
| Text.SplitJoin | src/app/core/services/token.service.ts:95 | Splitting the dot-joined parts on the dot gives the parts back. |
| Text.JoinSplit | src/app/core/services/token.service.ts:95 | Joining the result of a split restores the string. |
| JsValue.OrAllFirstTruthy | src/app/core/services/token.service.ts:134-137 | An `a \|\| b \|\| …` chain yields its first truthy operand, or its last operand when none is truthy. |
| JsValue.OrAllTruthy | src/app/core/services/token.service.ts:134-137 | The chain is truthy exactly when one operand is. |
| JsValue.NumberOfNumeral | src/app/pages/skillset-evaluation/skillset-evaluation.component.ts:235 | `Number(String(n))` is `n` for every integer. |
| JsValue.NatToStringValue | src/app/core/services/api.service.ts:209-212 | The decimal digits written for a status code read back as that code. |
| Api.RequestUrl | src/app/core/services/api.service.ts:40 | The URL is the base URL, one slash, then the endpoint. |
| Api.ErrorMessage | src/app/core/services/api.service.ts:176-214 | A non-HTTP error gives `Error Code: undefined - <message>`, status 0 the connection message, and a falsy body `Error Code: <status> - <message>`; the full order is `ErrorMessageOrder`. |
| Api.HandleError | src/app/core/services/api.service.ts:176-224 | The fault carries the chosen message and the failure's status, status text, URL and body; a non-HTTP error carries none of them. |
| Api.ErrorMessageOrder | src/app/core/services/api.service.ts:180-224 | The message is picked in order: status 0 gives the connection message, then a client `ErrorEvent`, a non-empty string body, the body's `message`, the body's `error`, and finally `Error Code: <status>` with the failure message. |
| Api.ConnectionMessageNamesBaseUrl | src/app/core/services/api.service.ts:180-194 | A status-0 failure's message names the base URL being called. |
| Api.UnwrapGet | src/app/core/services/api.service.ts:48-51 | An object with a `data` key gives `data` if it is truthy and the whole response otherwise; any other response passes through. |
| Api.UnwrapBody | src/app/core/services/api.service.ts:68-75 | The body fails to unwrap exactly when the response is `null` or `undefined`. |
| Api.UnwrapRulesAgree | src/app/core/services/api.service.ts:48-75 | On non-nullish responses the GET rule and the body rule give the same value; on nullish ones GET passes them through. |
| Api.GetOutcome | src/app/core/services/api.service.ts:38-55 | A response becomes its unwrapped value; a failure becomes the `handleError` fault. |
| Api.BodyOutcome | src/app/core/services/api.service.ts:60-137 | POST, PUT, PATCH, DELETE and upload: a non-nullish body gives `data \|\| body`; a nullish body fails with no status; a failure gives the `handleError` fault. |
| Api.DownloadOutcome | src/app/core/services/api.service.ts:142-150 | A download returns the raw body; its failures are handled as for GET. |
| Api.DownloadKeepsEnvelope | src/app/core/services/api.service.ts:142-150 | For a body with a truthy `data` different from itself, the download result differs from both unwrapping rules. |
| Api.SetParam | src/app/core/services/api.service.ts:165 | The key then has exactly the one value, and other keys keep theirs. |
| Api.AppendParam | src/app/core/services/api.service.ts:162 | The value is appended to the key's values, and other keys keep theirs. |
| Api.BuildHttpParams | src/app/core/services/api.service.ts:155-171 | The loop builds exactly `HttpParamsOf` of the arguments. |
| Api.AppendAllStaysFailed | src/app/core/services/api.service.ts:160-163 | Once an array item has thrown, appending the remaining items still fails. |
| Api.ParamsStayFailed | src/app/core/services/api.service.ts:158-168 | Once one parameter has thrown, building the remaining ones still fails. |
| Api.AppendAllValues | src/app/core/services/api.service.ts:160-163 | An array without nullish items appends each item's text in order, and no other key changes. |
| Api.AppendAllFails | src/app/core/services/api.service.ts:160-163 | An array with a nullish item makes the build throw. |
| Api.ParamsFailIff | src/app/core/services/api.service.ts:155-171 | Building fails exactly when some array parameter holds a `null` or `undefined` item; a `null` or `undefined` parameter itself is skipped. |
| Api.ParamsAbsent | src/app/core/services/api.service.ts:155-171 | A key that was not given has no values. |
| Api.ParamsLookup | src/app/core/services/api.service.ts:155-171 | With distinct keys, each key's values are its value's text, or its array items' texts. |
| Api.FileKeysDistinct | src/app/core/services/api.service.ts:121-123 | The `files[0]`, `files[1]`, … field names of a multi-file upload are pairwise distinct. |
| Api.BuildUploadForm | src/app/core/services/api.service.ts:115-130 | The form holds the file part or parts first, then each extra field as text, in order. |
| Api.ApiService.constructor | src/app/core/services/api.service.ts:17 | The base URL starts as the configured default. |
| Api.ApiService.GetBaseUrl | src/app/core/services/api.service.ts:30-32 | The base URL the service currently sends requests to. |
| Api.ApiService.SetBaseUrl | src/app/core/services/api.service.ts:24-33 | `getBaseUrl` returns what was set. |
| Api.Both | src/app/pages/profile-competency/profile-competency.component.ts:109-112 | Two joined requests succeed exactly when both do, with both values; otherwise the fault is one of theirs. |
| Auth.IssuedToken | src/app/core/services/auth.service.ts:48-49 | `accessToken` wins when truthy, else `token`; the result is truthy exactly when one of them is. |
| Auth.WriteIfTruthy | src/app/core/services/auth.service.ts:88-91 | A truthy value is stored as its text, and a falsy one leaves storage alone. |
| Auth.WithUserInfo | src/app/core/services/auth.service.ts:86-92 | Each truthy user field is stored under its key; for a falsy field its key stays present or absent as before, with its old value; unrelated keys are untouched. |
| Auth.AfterSignup | src/app/core/services/auth.service.ts:44-58 | Without an issued token storage is unchanged; with one the tokens are written. |
| Auth.AfterLogin | src/app/core/services/auth.service.ts:63-80 | Without an issued token storage is unchanged; with one the access token is stored as its text, and a truthy user e-mail is stored too. |
| Auth.LoginExtendsSignup | src/app/core/services/auth.service.ts:63-81 | Login stores what signup does and, with a truthy `user`, that user's details too; without a token nothing is stored. |
| Auth.LoginSignsIn | src/app/core/services/auth.service.ts:63-81 | A login that issues a token with non-empty text leaves the user signed in. |
| Auth.StoredValue | src/app/core/services/auth.service.ts:105-111 | A stored key reads as its string; a missing one reads as `null`. |
| Auth.MergedUserInfo | src/app/core/services/auth.service.ts:97-112 | Each of e-mail, first and last name is the stored entry when that is truthy and otherwise the token's claim, so it is truthy exactly when one of them is; the name is truthy exactly when the stored name, the token's name, or either name part is. |
| Auth.NamePriority | src/app/core/services/auth.service.ts:105-108 | The name is the stored name, else the token's `name`, else first and last name joined by a space, else whichever of them is truthy, else `undefined`. |
| Auth.StoredTakesPrecedence | src/app/core/services/auth.service.ts:109-111 | Non-empty stored email, first and last name override the token's, and a missing stored email falls back to the token's. |
| Auth.DisplayName | src/app/shared/components/header/header.component.ts:48 | The name if truthy, else the email if truthy, else the page's fallback text. |
| Auth.AuthService.SignupSucceeded | src/app/core/services/auth.service.ts:44-58 | The storage becomes `AfterSignup` of the old storage and the response. |
| Auth.AuthService.LoginSucceeded | src/app/core/services/auth.service.ts:63-81 | The storage becomes `AfterLogin` of the old storage and the response. |
| Auth.AuthService.SetUserInfo | src/app/core/services/auth.service.ts:86-92 | The storage becomes `WithUserInfo` of the old storage. |
| Auth.AuthService.Logout | src/app/core/services/auth.service.ts:118-121 | The tokens are cleared and the home page is opened. |
| Auth.AuthService.GetUserInfo | src/app/core/services/auth.service.ts:97-112 | The stored profile merged over the token's claims, as `MergedUserInfo` of the current storage and `TokenService.GetUserInfo`. |
| Auth.AuthService.IsAuthenticated | src/app/core/services/auth.service.ts:126-128 | It delegates to the token service: signed in exactly when an access token is stored. |
| Interceptor.IsAuthEndpoint | src/app/core/interceptors/jwt.interceptor.ts:14-19 | True exactly when the URL contains one of the login, signup or refresh path fragments. |
| Interceptor.Authorize | src/app/core/interceptors/jwt.interceptor.ts:20-27 | A non-empty token on a non-auth URL adds exactly the `Authorization: Bearer` header; every other request passes unchanged. |
| Interceptor.AuthCallsAreExempt | src/app/core/interceptors/jwt.interceptor.ts:14-19 | The login and signup URLs the service builds are never given the header. |
| Interceptor.CapitalisedRefreshIsNotExempt | src/app/core/interceptors/jwt.interceptor.ts:14-19 | The case-sensitive test does not exempt `/Auth/refresh`. |
| Interceptor.JwtInterceptor.Intercept | src/app/core/interceptors/jwt.interceptor.ts:10-27 | The outgoing request is `Authorize` of the request and the stored access token. |
| Interceptor.JwtInterceptor.OnError | src/app/core/interceptors/jwt.interceptor.ts:30-49 | The error is rethrown unchanged; a 401 clears the tokens; any other status leaves storage alone. |
| Login.HasValidData | src/app/pages/auth/login/login.component.ts:104-108 | Only an object can count as valid learner data (`ValidDataIsNonEmptyObject` gives the exact condition). |
| Login.ValidDataIsNonEmptyObject | src/app/pages/auth/login/login.component.ts:104-108 | Learner data counts as valid exactly when it is an object with at least one key. |
| Login.SelectUserId | src/app/pages/auth/login/login.component.ts:84 | The id used for the profile lookup is always truthy. |
| Login.UserIdPriority | src/app/pages/auth/login/login.component.ts:74-84 | The token's id wins, then the response user's id, then `'2'`. |
| Login.ProfileRoute | src/app/pages/auth/login/login.component.ts:121-129 | Valid data opens the statistics page, anything else the evaluation page. |
| Login.ProfileErrorRoute | src/app/pages/auth/login/login.component.ts:151-166 | A 404, a status 0 or no status opens the evaluation page; any other status opens nothing. |
| Login.ProfileErrorMessage | src/app/pages/auth/login/login.component.ts:164 | The profile error text contains the failure's message, or `Unknown error` when the message is empty. |
| Login.LoginComponent.constructor | src/app/pages/auth/login/login.component.ts:17-22 | Not loading, no messages, not yet navigated. |
| Login.LoginComponent.OnSubmit | src/app/pages/auth/login/login.component.ts:47-61 | An invalid form changes nothing and sends nothing; a valid one sends email and password and resets the flags and messages. |
| Login.LoginComponent.OnLoginSucceeded | src/app/pages/auth/login/login.component.ts:62-65 | The auth service stores the login, and the response's message or the default is shown. |
| Login.LoginComponent.OnGraceElapsed | src/app/pages/auth/login/login.component.ts:72-89 | The profile is fetched for `SelectUserId` of the token's id and the response. |
| Login.LoginComponent.OnProfileLoaded | src/app/pages/auth/login/login.component.ts:90-130 | Loading stops; the first result navigates once to `ProfileRoute` of the data, later ones do nothing. |
| Login.LoginComponent.OnProfileFailed | src/app/pages/auth/login/login.component.ts:131-167 | Loading stops; a routable status navigates once to the evaluation page; another status shows the error and does not navigate. |
| Login.LoginComponent.OnLoginFailed | src/app/pages/auth/login/login.component.ts:171-175 | Loading stops and the fault's message, or the default, is shown. |
| Signup.PasswordMatchValidator | src/app/pages/auth/signup/signup.component.ts:40-49 | With both controls present and different, the confirmation is flagged and the mismatch error returned; otherwise `null` is returned and the confirmation's errors are untouched. |
| Signup.SignupPayload | src/app/pages/auth/signup/signup.component.ts:70-75 | The request has exactly email, password, first and last name, and never the confirmation. |
| Signup.Control.constructor | src/app/pages/auth/signup/signup.component.ts:26-31 | A form control starts with its value and no validation errors. |
| Signup.SignupComponent.constructor | src/app/pages/auth/signup/signup.component.ts:15-20 | Not loading and no messages. |
| Signup.SignupComponent.OnSubmit | src/app/pages/auth/signup/signup.component.ts:61-77 | An invalid form sends nothing; a valid one sends `SignupPayload` and resets the messages. |
| Signup.SignupComponent.OnSignupSucceeded | src/app/pages/auth/signup/signup.component.ts:79-87 | The auth service stores the issued tokens, the message is shown and the login page is scheduled. |
| Signup.SignupComponent.OnSignupFailed | src/app/pages/auth/signup/signup.component.ts:88-92 | Loading stops, the message or the default is shown, and nothing is scheduled. |
| Signup.SignupComponent.OnRedirectElapsed | src/app/pages/auth/signup/signup.component.ts:84-86 | The two-second timer fires: the router opens the oldest scheduled route (`/login`), and that route leaves the schedule. |
| Evaluation.SpliceStart | src/app/pages/skillset-evaluation/skillset-evaluation.component.ts:143-191 | The position `removeAt` uses stays within the list: an in-range index is itself, a negative index counts once from the end, one below minus the length becomes 0, and one at or past the end becomes the length. |
| Evaluation.RemoveAt | src/app/pages/skillset-evaluation/skillset-evaluation.component.ts:143-191 | The entry at the clamped position is removed and the others keep their order; an in-range index shortens the list by one, and an index below minus the length removes the first entry. |
| Evaluation.NonBlank | src/app/pages/skillset-evaluation/skillset-evaluation.component.ts:230-239 | Filtering never lengthens the list. |
| Evaluation.NonBlankConcat | src/app/pages/skillset-evaluation/skillset-evaluation.component.ts:230-239 | The filter distributes over concatenation, so it keeps the order. |
| Evaluation.NonBlankMembers | src/app/pages/skillset-evaluation/skillset-evaluation.component.ts:230-239 | An entry survives exactly when it is in the list and not blank. |
| Evaluation.NonBlankIdempotent | src/app/pages/skillset-evaluation/skillset-evaluation.component.ts:230-239 | Filtering twice is filtering once. |
| Evaluation.BlankEntriesDropped | src/app/pages/skillset-evaluation/skillset-evaluation.component.ts:230-239 | An entry whose trimmed text is empty does not reach the payload. |
| Evaluation.FilledEntriesKept | src/app/pages/skillset-evaluation/skillset-evaluation.component.ts:230-239 | An entry whose trimmed text is non-empty reaches the payload. |
| Evaluation.Payload | src/app/pages/skillset-evaluation/skillset-evaluation.component.ts:222-241 | Every list of the AI profile is filtered of blank entries, and the weekly hours go through `Number`. |
| Evaluation.EvaluationComponent.constructor | src/app/pages/skillset-evaluation/skillset-evaluation.component.ts:38-74 | Each list starts with one empty entry, no messages, no timer. |
| Evaluation.EvaluationComponent.Add | src/app/pages/skillset-evaluation/skillset-evaluation.component.ts:143-184 | One empty entry is appended to the chosen list, and nothing else changes. |
| Evaluation.EvaluationComponent.Remove | src/app/pages/skillset-evaluation/skillset-evaluation.component.ts:143-191 | A list with more than one entry loses the entry at the index; the last entry is never removed. |
| Evaluation.EvaluationComponent.OnSubmit | src/app/pages/skillset-evaluation/skillset-evaluation.component.ts:202-241 | An invalid form changes nothing; a valid one sends `Payload` of the current lists and clears the messages. |
| Evaluation.EvaluationComponent.OnSubmitSucceeded | src/app/pages/skillset-evaluation/skillset-evaluation.component.ts:243-253 | The success message is shown and the statistics page is scheduled. |
| Evaluation.EvaluationComponent.OnScheduledNavigation | src/app/pages/skillset-evaluation/skillset-evaluation.component.ts:250-252 | The two-second success timer fires: the router opens the oldest scheduled route, which leaves the schedule; the lists and the other timers are untouched. |
| Evaluation.EvaluationComponent.OnSubmitFailed | src/app/pages/skillset-evaluation/skillset-evaluation.component.ts:260-308 | The error is shown, the navigation timer is replaced by one for the statistics page, and one more backup check is armed. |
| Evaluation.EvaluationComponent.OnNavigationTimeout | src/app/pages/skillset-evaluation/skillset-evaluation.component.ts:275-299 | The router is sent to the statistics page; a failed or rejected navigation adds a hard redirect; the timer is cleared. |
| Evaluation.EvaluationComponent.OnBackupCheck | src/app/pages/skillset-evaluation/skillset-evaluation.component.ts:302-308 | One armed backup check runs: still being on the evaluation page forces a hard redirect; otherwise nothing happens. |
| Evaluation.EvaluationComponent.OnDestroy | src/app/pages/skillset-evaluation/skillset-evaluation.component.ts:93-98 | The pending navigation timer is cancelled and nothing else changes. |
| Evaluation.BackupFiresOnEvaluationPage | src/app/pages/skillset-evaluation/skillset-evaluation.component.ts:303-306 | Any URL ending in the evaluation route passes the backup's test. |
| Quiz.LearnerIdOf | src/app/pages/quiz/quiz.component.ts:47-49 | The token's id wins, then the route's, then learner 2, each through `Number`. |
| Quiz.Least | src/app/pages/quiz/quiz.component.ts:158 | The smallest key of a non-empty set. |
| Quiz.LeastExists | src/app/pages/quiz/quiz.component.ts:158 | Every non-empty set of keys has a smallest element. |
| Quiz.SortedKeys | src/app/pages/quiz/quiz.component.ts:158 | `Object.keys` on integer keys: every key exactly once, in increasing order. |
| Quiz.AnswerList | src/app/pages/quiz/quiz.component.ts:157-161 | One answer per answered question, in increasing question order, each with the selected answer. |
| Quiz.OptionTexts | src/app/pages/quiz/quiz.component.ts:108-111 | Each option becomes its `text` when truthy, else the option itself. |
| Quiz.OptionsOf | src/app/pages/quiz/quiz.component.ts:102-113 | No question or no options gives none; string options are returned as they are; object options give their texts. |
| Quiz.OptionTextChoice | src/app/pages/quiz/quiz.component.ts:108-111 | A truthy `text` is shown, and a plain string option shows itself. |
| Quiz.AnsweredCountAfterSelect | src/app/pages/quiz/quiz.component.ts:85-139 | Answering a new question raises the count by one; changing an answer keeps it. |
| Quiz.QuizComponent.constructor | src/app/pages/quiz/quiz.component.ts:16-26 | No quiz, no answers, at question 0, learner 0. |
| Quiz.QuizComponent.GenerateQuiz | src/app/pages/quiz/quiz.component.ts:42-56 | The learner id is `LearnerIdOf` the token's and route's ids, and the request asks for that learner's quiz. |
| Quiz.QuizComponent.OnQuizGenerated | src/app/pages/quiz/quiz.component.ts:61-66 | The quiz is shown and loading stops. |
| Quiz.QuizComponent.OnQuizFailed | src/app/pages/quiz/quiz.component.ts:67-71 | Loading stops and the message or the default is shown. |
| Quiz.QuizComponent.SelectAnswer | src/app/pages/quiz/quiz.component.ts:85-89 | Exactly that question's answer is set, and the count grows only for a new question. |
| Quiz.QuizComponent.IsAnswerSelected | src/app/pages/quiz/quiz.component.ts:91-93 | True exactly when that answer is recorded for that question. |
| Quiz.QuizComponent.SelectedAnswer | src/app/pages/quiz/quiz.component.ts:115-117 | The recorded answer, or the empty string. |
| Quiz.QuizComponent.CurrentQuestion | src/app/pages/quiz/quiz.component.ts:95-100 | The question at the current index when the index is in range, otherwise none. |
| Quiz.QuizComponent.CurrentQuestionOptions | src/app/pages/quiz/quiz.component.ts:102-113 | The options of the current question, none without one. |
| Quiz.QuizComponent.AnsweredCount | src/app/pages/quiz/quiz.component.ts:137-139 | The number of answered questions, which is also the number of answers a submission carries. |
| Quiz.QuizComponent.QuestionCount | src/app/pages/quiz/quiz.component.ts:141-143 | The quiz's number of questions, and 0 without a quiz. |
| Quiz.QuizComponent.IsAllAnswered | src/app/pages/quiz/quiz.component.ts:145-147 | True exactly when as many questions are answered as the quiz has. |
| Quiz.QuizComponent.NextQuestion | src/app/pages/quiz/quiz.component.ts:119-123 | The index advances unless at the last question, and stays in range. |
| Quiz.QuizComponent.PreviousQuestion | src/app/pages/quiz/quiz.component.ts:125-129 | The index goes back unless at the first question, and stays in range. |
| Quiz.QuizComponent.GoToQuestion | src/app/pages/quiz/quiz.component.ts:131-135 | An in-range index is taken; any other is ignored. |
| Quiz.QuizComponent.SubmitQuiz | src/app/pages/quiz/quiz.component.ts:149-171 | Nothing is sent unless the quiz is loaded and fully answered; then the submission carries the quiz id, the learner and `AnswerList`. |
| Quiz.QuizComponent.OnSubmitted | src/app/pages/quiz/quiz.component.ts:172-177 | The result is shown. |
| Quiz.QuizComponent.OnSubmitFailed | src/app/pages/quiz/quiz.component.ts:178-182 | Submitting stops and the message or the default is shown. |
| Quiz.QuizComponent.RestartQuiz | src/app/pages/quiz/quiz.component.ts:186-193 | Answers, index and result are reset, and a new quiz is requested. |
| Chatbot.ChatbotComponent.constructor | src/app/shared/components/chatbot/chatbot.component.ts:16-28 | The transcript is the welcome message alone. |
| Chatbot.ChatbotComponent.SendMessage | src/app/shared/components/chatbot/chatbot.component.ts:30-46 | Blank input or a pending reply sends nothing; otherwise the input is appended as the user's message, cleared and sent. |
| Chatbot.ChatbotComponent.OnReply | src/app/shared/components/chatbot/chatbot.component.ts:50-59 | The reply is appended as a bot message and loading stops. |
| Chatbot.ChatbotComponent.OnError | src/app/shared/components/chatbot/chatbot.component.ts:61-72 | The fixed apology is appended and loading stops. |
| Chatbot.ChatbotComponent.OnKeyPress | src/app/shared/components/chatbot/chatbot.component.ts:87-92 | Enter without Shift behaves as `SendMessage`: a blank input or a pending reply changes nothing, otherwise the message is appended, the input cleared and a reply awaited. Any other key changes nothing, and the minimised flag is never touched. |
| Chatbot.ChatbotComponent.ToggleMinimize | src/app/shared/components/chatbot/chatbot.component.ts:94-96 | Only the minimised flag flips. |
| Chatbot.ChatbotComponent.ClearChat | src/app/shared/components/chatbot/chatbot.component.ts:102-108 | The transcript is the welcome message again. |
| Chatbot.ToggleTwice | src/app/shared/components/chatbot/chatbot.component.ts:94-96 | Toggling twice restores the flag and the transcript. |
| Header.HeaderComponent.constructor | src/app/shared/components/header/header.component.ts:15-25 | Menu closed, signed out, empty name. |
| Header.HeaderComponent.CheckAuthentication | src/app/shared/components/header/header.component.ts:44-52 | The flag mirrors the auth service; a signed-in user's name is `DisplayName` with an empty fallback, a signed-out user's is empty. |
| Header.HeaderComponent.ToggleMenu | src/app/shared/components/header/header.component.ts:54-56 | Only the menu flag flips. |
| Header.HeaderComponent.NavigateToLogin | src/app/shared/components/header/header.component.ts:65-68 | The menu closes and the login page opens. |
| Header.HeaderComponent.NavigateToSignup | src/app/shared/components/header/header.component.ts:70-73 | The menu closes and the signup page opens. |
| Header.HeaderComponent.Logout | src/app/shared/components/header/header.component.ts:75-80 | The tokens are cleared, the home page opens, and the header shows a signed-out state. |
| Bands.Band | src/app/pages/learner-dashboard/learner-dashboard.component.ts:168-173 | 80 and above is excellent, 60 to 80 good, 40 to 60 average, below 40 needs improvement; the four bands partition the scores. The same rule is repeated in `mentor-dashboard/mentor-dashboard.component.ts:118-123` and `quiz/quiz.component.ts:195-200`. |
| Bands.BandMonotone | src/app/pages/learner-dashboard/learner-dashboard.component.ts:168-173 | A higher score never gets a lower band. |
| Bands.ValidationScoreColor | src/app/pages/learner-dashboard/learner-dashboard.component.ts:160-166 | A missing score needs improvement; a present one gets its band. The same rule is repeated in `mentor-dashboard/mentor-dashboard.component.ts:110-116`. |
| Bands.ScoreColor | src/app/pages/profile-competency/profile-competency.component.ts:150-156 | A missing score needs improvement; a present one gets its band. The same rule is repeated in `skillset-statistics/skillset-statistics.component.ts:129-135`. |
| Bands.ScoreColorsAgree | src/app/pages/profile-competency/profile-competency.component.ts:150-156 | The dashboard's and the profile's score colours always agree. |
| Bands.ScoreLabel | src/app/pages/skillset-statistics/skillset-statistics.component.ts:137-142 | Each label names exactly its band. |
| Bands.OptionalScoreLabel | src/app/pages/profile-competency/profile-competency.component.ts:158-164 | `N/A` exactly when there is no score; otherwise the band's label. |
| Bands.ContributionLevel | src/app/pages/profile-competency/profile-competency.component.ts:187-193 | Levels 4 to 0 at 40, 25, 10, above 0 and at most 0 per cent, partitioning the percentages. |
| Bands.ContributionLevelMonotone | src/app/pages/profile-competency/profile-competency.component.ts:187-193 | A larger share never gets a lower level. |
| Bands.ValidationLevelColor | src/app/pages/profile-competency/profile-competency.component.ts:141-148 | Without a level it needs improvement; otherwise the lower-cased level is excellent for "excellent" or "outstanding", else good for "good" or "strong", else average for "fair" or "moderate", and needs improvement when it contains none of the six. The same rule is repeated in `skillset-statistics/skillset-statistics.component.ts:120-127`. |
| Bands.ToLowerIdempotent | src/app/pages/profile-competency/profile-competency.component.ts:143 | Lower-casing twice is lower-casing once. |
| Bands.ValidationLevelIgnoresCase | src/app/pages/profile-competency/profile-competency.component.ts:141-148 | The level colour does not depend on letter case. |
| Bands.PriorityColor | src/app/pages/learner-dashboard/learner-dashboard.component.ts:175-181 | High, medium and low priority, in any case, get their styles; anything else gets none. The same rule is repeated in `mentor-dashboard/mentor-dashboard.component.ts:125-131` and `growth-plan/growth-plan.component.ts:51-57`. |
| Bands.DifficultyColor | src/app/pages/growth-plan/growth-plan.component.ts:59-65 | Beginner, intermediate and advanced, in any case, get their styles; anything else gets none. |
| Bands.ColorMapsIgnoreCase | src/app/pages/growth-plan/growth-plan.component.ts:51-65 | Neither style map depends on letter case. |
| Growth.Slice | src/app/pages/learner-dashboard/learner-dashboard.component.ts:229 | `slice(start, end)` keeps the elements from start up to end, clamped to the length. |
| Growth.SliceAdjacent | src/app/pages/learner-dashboard/learner-dashboard.component.ts:141-154 | Two adjacent slices make the combined slice. |
| Growth.HighGaps | src/app/pages/learner-dashboard/learner-dashboard.component.ts:227-229 | The filter keeps only high-priority gaps and never lengthens the list. |
| Growth.HighGapsMembers | src/app/pages/learner-dashboard/learner-dashboard.component.ts:227-229 | A gap is kept exactly when it is in the plan and high priority. |
| Growth.HighGapsConcat | src/app/pages/learner-dashboard/learner-dashboard.component.ts:227-229 | The filter keeps the plan's order. |
| Growth.HighPrioritySkills | src/app/pages/learner-dashboard/learner-dashboard.component.ts:225-230 | At most five gaps, all high priority, the first five of the filter; none without a plan. The same rule is repeated in `mentor-dashboard/mentor-dashboard.component.ts:167-172`. |
| Growth.HighPriorityComplete | src/app/pages/learner-dashboard/learner-dashboard.component.ts:225-230 | With at most five high-priority gaps, every one of them is shown. |
| Growth.CurrentPhase | src/app/pages/learner-dashboard/learner-dashboard.component.ts:232-236 | The first phase, present exactly when the plan has phases. The same rule is repeated in `mentor-dashboard/mentor-dashboard.component.ts:174-178`. |
| Growth.UpcomingPhases | src/app/pages/learner-dashboard/learner-dashboard.component.ts:238-241 | The second and third phases, or fewer when the plan is shorter; none with at most one phase. The same rule is repeated in `mentor-dashboard/mentor-dashboard.component.ts:180-183`. |
| Growth.CurrentThenUpcoming | src/app/pages/learner-dashboard/learner-dashboard.component.ts:232-241 | The current phase followed by the upcoming ones are the first three phases, in order. |
| Growth.RecentRecommendations | src/app/pages/learner-dashboard/learner-dashboard.component.ts:243-246 | Exactly the first three resources, in order, or all of them when there are fewer; none without a plan. The same rule is repeated in `mentor-dashboard/mentor-dashboard.component.ts:185-188`. |
| Growth.TodayPlan | src/app/pages/learner-dashboard/learner-dashboard.component.ts:139-146 | Today: the first three objectives of the current phase, three hours, not completed. |
| Growth.TomorrowPlan | src/app/pages/learner-dashboard/learner-dashboard.component.ts:147-157 | Tomorrow: objectives four to six when there are more than three, else the first three projects; four hours. |
| Growth.PlansContinue | src/app/pages/learner-dashboard/learner-dashboard.component.ts:139-157 | With more than three objectives, tomorrow continues exactly where today stops. |
| Dashboard.Join | src/app/pages/learner-dashboard/learner-dashboard.component.ts:84-107 | The three dashboard requests succeed exactly when all do, with all three values; otherwise the fault is one of theirs. |
| LearnerDashboard.LearnerDashboardComponent.constructor | src/app/pages/learner-dashboard/learner-dashboard.component.ts:38-59 | Learner 2, nothing loaded, loading. |
| LearnerDashboard.LearnerDashboardComponent.OnInit | src/app/pages/learner-dashboard/learner-dashboard.component.ts:69-77 | A truthy id from the token replaces the learner id, converted with `Number`; then the dashboard data is requested for that learner. |
| LearnerDashboard.LearnerDashboardComponent.LoadDashboardData | src/app/pages/learner-dashboard/learner-dashboard.component.ts:79-90 | The validation request names the learner and the fixed GitHub user; loading starts. |
| LearnerDashboard.LearnerDashboardComponent.GenerateDailyLearningPlans | src/app/pages/learner-dashboard/learner-dashboard.component.ts:131-158 | Without a current phase nothing changes; otherwise today's and tomorrow's plans are built from it. |
| LearnerDashboard.LearnerDashboardComponent.OnLoaded | src/app/pages/learner-dashboard/learner-dashboard.component.ts:84-107 | All three results are stored and the daily plans rebuilt, or, on any failure, only the error is shown; loading stops either way. |
| MentorDashboard.MentorDashboardComponent.constructor | src/app/pages/mentor-dashboard/mentor-dashboard.component.ts:29-46 | Nothing loaded, loading. |
| MentorDashboard.MentorDashboardComponent.LoadDashboardData | src/app/pages/mentor-dashboard/mentor-dashboard.component.ts:59-70 | Always the fixed learner 2 and the fixed GitHub user. |
| MentorDashboard.MentorDashboardComponent.OnLoaded | src/app/pages/mentor-dashboard/mentor-dashboard.component.ts:64-86 | All three results are stored, or on any failure only the error is shown. |
| Competency.TopItems | src/app/pages/profile-competency/profile-competency.component.ts:195-208 | The first `n` items of an array field, or all of them when there are fewer; nothing for a missing field. |
| Competency.ProfileCompetencyComponent.constructor | src/app/pages/profile-competency/profile-competency.component.ts:50-62 | Nothing loaded, loading. |
| Competency.ProfileCompetencyComponent.OnInit | src/app/pages/profile-competency/profile-competency.component.ts:64-82 | The user's name is `DisplayName` with fallback `User`, and the validation and repository-analysis requests are made. |
| Competency.ProfileCompetencyComponent.LoadCompetencyData | src/app/pages/profile-competency/profile-competency.component.ts:84-112 | The fixed validation request and the fixed repository analysis are requested, and loading starts. |
| Competency.ProfileCompetencyComponent.OnLoaded | src/app/pages/profile-competency/profile-competency.component.ts:109-138 | When both arrive, each object result replaces its field and a non-object keeps the old value; any failure only shows the error. |
| Competency.ProfileCompetencyComponent.TopDomainAreas | src/app/pages/profile-competency/profile-competency.component.ts:195-198 | The first six domain areas of the analysis's list, or all of them when there are fewer; none when the field is not a list. |
| Competency.ProfileCompetencyComponent.TopTechnologies | src/app/pages/profile-competency/profile-competency.component.ts:200-203 | The first six technologies of the analysis's list, or all of them when there are fewer; none when the field is not a list. |
| Competency.ProfileCompetencyComponent.TopLanguages | src/app/pages/profile-competency/profile-competency.component.ts:205-208 | The first five languages of the analysis's list, or all of them when there are fewer; none when the field is not a list. |
| Statistics.SkillsetStatisticsComponent.constructor | src/app/pages/skillset-statistics/skillset-statistics.component.ts:48-58 | Nothing loaded, loading. |
| Statistics.SkillsetStatisticsComponent.OnInit | src/app/pages/skillset-statistics/skillset-statistics.component.ts:61-79 | The user's name is `DisplayName` with fallback `User`, and the fixed validation request is made. |
| Statistics.SkillsetStatisticsComponent.LoadStatistics | src/app/pages/skillset-statistics/skillset-statistics.component.ts:81-92 | The fixed validation request, loading started, error cleared. |
| Statistics.SkillsetStatisticsComponent.OnLoaded | src/app/pages/skillset-statistics/skillset-statistics.component.ts:92-117 | An object result is stored; a non-object result shows the invalid-format message; a failure shows the load error; loading stops in every case. |
| GrowthPlanPage.GrowthPlanComponent.constructor | src/app/pages/growth-plan/growth-plan.component.ts:14-17 | No plan, loading. |
| GrowthPlanPage.GrowthPlanComponent.GenerateGrowthPlan | src/app/pages/growth-plan/growth-plan.component.ts:28-37 | The plan is requested for learner 2. |
| GrowthPlanPage.GrowthPlanComponent.OnGenerated | src/app/pages/growth-plan/growth-plan.component.ts:38-42 | The plan is shown and loading stops. |
| GrowthPlanPage.GrowthPlanComponent.OnFailed | src/app/pages/growth-plan/growth-plan.component.ts:43-47 | The fault's message or the default is shown, and the plan is kept. |

## Left out

- **Asynchrony and timers.** Observables, subscriptions and timers are not modelled as running code. Each callback is a method, and each timer records the route it will open (`scheduled`, `navigationTimeout`). The order in which callbacks arrive is left to the caller.
- **`console` logging,** and every `console.log` in the pages, are left out.
- **The token decoder.** `atob`, `decodeURIComponent` and `JSON.parse` in `getTokenPayload` are a function parameter of `TokenService`; how a payload text is decoded is outside the model.
- **Clocks.** `Date.now()` is a parameter (`now`) of `ExpiredAt` and `IsTokenExpired`.
- **`setStorageType`** is left out, and so is the choice between `localStorage` and `sessionStorage`. One `Store` stands for whichever is in use.
- Token.UserInfoOf: spreading the claims copies an object's fields. A non-object truthy payload (a number, a string, an array) is treated as spreading nothing. JavaScript would spread a string's characters and an array's elements as indexed keys.
- **Numbers.** `JsValue.Value` numbers are integers and scores are `real`. Fractions in the JSON values, `NaN` scores and floating-point rounding are not modelled. `ToNumber` recognises optional space, an optional `+` or `-` sign and decimal digits; any other text is `NaN`.
- **`calculateMetrics`** on both dashboards is left out: overall progress and completed milestones are floating-point arithmetic for display only.
- **Formatting helpers.** `formatDate`, `formatTime` and the chatbot's timestamps are display formatting over clocks and locales.
- **Dates.**
  - The evaluation payload's `joinedDate` ISO conversion is left out.
  - `Payload` carries the entered field values unchanged apart from the list filters and the weekly hours.
  - The GitHub analysis date range (`since`/`until` from the current date) is left out.
  - `AnalysisRequest` holds only the owner, repository and user name.
- **Form plumbing.** The pages' form plumbing is left out:
  - `markFormGroupTouched` and `initializeForm`;
  - the Angular validators;
  - the evaluation page's prefill from the stored user (`patchValue` in `ngOnInit`).

  A form's validity is a boolean input of the submit methods.
- Text.ToLower: letter case is folded for ASCII letters only. JavaScript's `toLowerCase` also folds other alphabets.
- Quiz.SortedKeys: answer keys are natural numbers. JavaScript orders integer keys ascending in the same way, so the map becomes a sorted list. Negative or non-integer question ids are not modelled.
- Quiz.QuizComponent.OnQuizGenerated leaves the current question index unchanged, as the source does. A new quiz that is shorter than the old index leaves `CurrentQuestion` empty until the user navigates.
- Quiz.OptionTexts: a `null` or `undefined` option is returned as itself. The declared option types rule such options out, and `opt.text` would throw on them.
- **Unused page helpers.** Several page helpers are plain navigation to fixed routes and take no arguments from the state: `refreshDashboard` and the `navigateTo…` helpers of the dashboards and the competency page. `onSearch` and `closeChat` hold no logic beyond logging or emitting an event. None of these is modelled.
- **Page subscriptions.** The header's router subscription and its `ngOnDestroy` are left out. `CheckAuthentication` is the method that runs after each navigation. The chatbot's `scrollToBottom` is DOM manipulation and is not modelled.
- **Catch branches.** The statistics and competency pages wrap `getUserInfo` in a `try`. Their catch branches are not modelled because `GetUserInfo` is total in the model.
- Evaluation.SpliceStart: `FormArray.removeAt` belongs to the Angular forms library, which is not part of this model. The position follows the Angular releases that count a negative index once from the end and then clamp it to 0.
- Competency.TopItems: a field that is not an array gives no items. In JavaScript a string field would be sliced by characters, and a number, boolean or object field would make `.slice` throw.
- **Response shapes.** The growth-plan response is taken as already decoded into `Growth.GrowthPlan`. Learner, competency and statistics bodies stay `Value`s.
- Dashboard.Join and Api.Both return one of the failing requests' faults and do not specify which one. `forkJoin` reports whichever request fails first in time, which the model does not order.
- **Thin REST wrappers.** The services that only forward to `ApiService` with a fixed endpoint (learners, quiz, growth plan, GitHub, chat) appear only through the requests the pages return.
- **Error detail.** `ApiService.handleError` also logs the error. Only the fault it returns is modelled.
- Navigation.Router stands for Angular's router. Each component is given the router object it navigates. A navigation's success or failure reaches the evaluation page as a `RouterOutcome` argument.
