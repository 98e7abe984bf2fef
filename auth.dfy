/**
 * The authentication service (`AuthService`): what a signup or login response writes into
 * storage, the user profile kept beside the tokens, and logout.  The HTTP calls themselves
 * are `Api.BodyOutcome` on the `Auth/signup` and `Auth/login` endpoints; the methods here
 * are the `tap` steps run on a successful response.
 */
module Auth {
  import opened Wrappers
  import opened JsValue
  import opened Storage
  import opened Token
  import opened Navigation

  const SignupEndpoint := "Auth/signup"
  const LoginEndpoint := "Auth/login"

  const UserNameKey := "user_name"
  const UserEmailKey := "user_email"
  const UserFirstNameKey := "user_firstName"
  const UserLastNameKey := "user_lastName"

  /** `response.accessToken || response.token`: the token a response issues, if any. */
  function IssuedToken(response: Value): (r: Value)
    ensures Truthy(r) <==> Truthy(Get(response, "accessToken")) || Truthy(Get(response, "token"))
    ensures Truthy(Get(response, "accessToken")) ==> r == Get(response, "accessToken")
    ensures !Truthy(Get(response, "accessToken")) ==> r == Get(response, "token")
  {
    Or(Get(response, "accessToken"), Get(response, "token"))
  }

  /** `if (v) storage.setItem(key, v)`. */
  function WriteIfTruthy(items: map<string, string>, key: string, v: Value): (r: map<string, string>)
    ensures Truthy(v) ==> r == items[key := ToStr(v)]
    ensures !Truthy(v) ==> r == items
  {
    if Truthy(v) then items[key := ToStr(v)] else items
  }

  /** The store after `setUserInfo(user)`. */
  function WithUserInfo(items: map<string, string>, user: Value): (r: map<string, string>)
    ensures Truthy(Get(user, "name")) ==> UserNameKey in r && r[UserNameKey] == ToStr(Get(user, "name"))
    ensures Truthy(Get(user, "email")) ==> UserEmailKey in r && r[UserEmailKey] == ToStr(Get(user, "email"))
    ensures Truthy(Get(user, "firstName")) ==>
              UserFirstNameKey in r && r[UserFirstNameKey] == ToStr(Get(user, "firstName"))
    ensures Truthy(Get(user, "lastName")) ==>
              UserLastNameKey in r && r[UserLastNameKey] == ToStr(Get(user, "lastName"))
    ensures forall k :: (k in r <==> k in items) || k in {UserNameKey, UserEmailKey, UserFirstNameKey, UserLastNameKey}
    ensures forall k :: (k in items && k != UserNameKey && k != UserEmailKey
                         && k != UserFirstNameKey && k != UserLastNameKey) ==> k in r && r[k] == items[k]
    ensures !Truthy(Get(user, "name")) ==>
              (UserNameKey in r <==> UserNameKey in items)
              && (UserNameKey in items ==> r[UserNameKey] == items[UserNameKey])
    ensures !Truthy(Get(user, "email")) ==>
              (UserEmailKey in r <==> UserEmailKey in items)
              && (UserEmailKey in items ==> r[UserEmailKey] == items[UserEmailKey])
    ensures !Truthy(Get(user, "firstName")) ==>
              (UserFirstNameKey in r <==> UserFirstNameKey in items)
              && (UserFirstNameKey in items ==> r[UserFirstNameKey] == items[UserFirstNameKey])
    ensures !Truthy(Get(user, "lastName")) ==>
              (UserLastNameKey in r <==> UserLastNameKey in items)
              && (UserLastNameKey in items ==> r[UserLastNameKey] == items[UserLastNameKey])
  {
    var a := WriteIfTruthy(items, UserNameKey, Get(user, "name"));
    var b := WriteIfTruthy(a, UserEmailKey, Get(user, "email"));
    var c := WriteIfTruthy(b, UserFirstNameKey, Get(user, "firstName"));
    WriteIfTruthy(c, UserLastNameKey, Get(user, "lastName"))
  }

  /** The store after a successful signup: the issued tokens, if any. */
  function AfterSignup(items: map<string, string>, response: Value): (r: map<string, string>)
    ensures !Truthy(IssuedToken(response)) ==> r == items
    ensures Truthy(IssuedToken(response)) ==>
              r == WithTokens(items, IssuedToken(response), Get(response, "refreshToken"))
  {
    var access := IssuedToken(response);
    if Truthy(access) then WithTokens(items, access, Get(response, "refreshToken")) else items
  }

  /** The store after a successful login: the issued tokens and, with them, the user's profile. */
  function AfterLogin(items: map<string, string>, response: Value): (r: map<string, string>)
    ensures !Truthy(IssuedToken(response)) ==> r == items
    ensures Truthy(IssuedToken(response)) ==> AccessTokenKey in r && r[AccessTokenKey] == ToStr(IssuedToken(response))
    ensures Truthy(IssuedToken(response)) && Truthy(Get(response, "user")) && Truthy(Get(Get(response, "user"), "email")) ==>
              UserEmailKey in r && r[UserEmailKey] == ToStr(Get(Get(response, "user"), "email"))
  {
    var access := IssuedToken(response);
    if Truthy(access) then
      var withTokens := WithTokens(items, access, Get(response, "refreshToken"));
      if Truthy(Get(response, "user")) then WithUserInfo(withTokens, Get(response, "user")) else withTokens
    else items
  }

  /**
   * Login stores exactly what signup stores, plus the profile of `response.user` — and the
   * profile only when a token was stored too.
   */
  lemma LoginExtendsSignup(items: map<string, string>, response: Value)
    ensures Truthy(IssuedToken(response)) && Truthy(Get(response, "user")) ==>
              AfterLogin(items, response) == WithUserInfo(AfterSignup(items, response), Get(response, "user"))
    ensures !(Truthy(IssuedToken(response)) && Truthy(Get(response, "user"))) ==>
              AfterLogin(items, response) == AfterSignup(items, response)
    ensures !Truthy(IssuedToken(response)) ==> AfterLogin(items, response) == items
  {
  }

  /** A login that issues a token with a non-empty text leaves the user signed in. */
  lemma LoginSignsIn(items: map<string, string>, response: Value)
    requires Truthy(IssuedToken(response)) && ToStr(IssuedToken(response)) != ""
    ensures SignedIn(AfterLogin(items, response))
  {
    var t := WithTokens(items, IssuedToken(response), Get(response, "refreshToken"));
    assert SignedIn(t);
  }

  /** The profile `getUserInfo` reports; each field may be missing (`undefined`). */
  datatype UserInfo = UserInfo(name: Value, email: Value, firstName: Value, lastName: Value)

  /** `storage.getItem(key)` as a value: the stored string, or `null`. */
  function StoredValue(items: map<string, string>, key: string): (r: Value)
    ensures key in items ==> r == Str(items[key])
    ensures key !in items ==> r == Null
  {
    if key in items then Str(items[key]) else Null
  }

  /** The name a token yields when it has no `name`: `"first last"`, else either part. */
  function NameFromParts(firstName: Value, lastName: Value): Value {
    if Truthy(firstName) && Truthy(lastName) then Str(ToStr(firstName) + " " + ToStr(lastName))
    else OrAll([firstName, lastName, Undefined])
  }

  /**
   * `getUserInfo`: stored profile entries take precedence over the token's claims
   * (`tokenInfo` is `TokenService.getUserInfo()`, `null` without a token).
   */
  function MergedUserInfo(items: map<string, string>, tokenInfo: Value): (r: UserInfo)
    ensures r.email == StoredValue(items, UserEmailKey) || r.email == Get(tokenInfo, "email")
    ensures r.firstName == StoredValue(items, UserFirstNameKey) || r.firstName == Get(tokenInfo, "firstName")
    ensures r.lastName == StoredValue(items, UserLastNameKey) || r.lastName == Get(tokenInfo, "lastName")
    ensures r.email == (if Truthy(StoredValue(items, UserEmailKey)) then StoredValue(items, UserEmailKey)
                        else Get(tokenInfo, "email"))
    ensures r.firstName == (if Truthy(StoredValue(items, UserFirstNameKey)) then StoredValue(items, UserFirstNameKey)
                            else Get(tokenInfo, "firstName"))
    ensures r.lastName == (if Truthy(StoredValue(items, UserLastNameKey)) then StoredValue(items, UserLastNameKey)
                           else Get(tokenInfo, "lastName"))
    ensures Truthy(r.email) <==> Truthy(StoredValue(items, UserEmailKey)) || Truthy(Get(tokenInfo, "email"))
    ensures Truthy(r.firstName) <==>
              Truthy(StoredValue(items, UserFirstNameKey)) || Truthy(Get(tokenInfo, "firstName"))
    ensures Truthy(r.lastName) <==>
              Truthy(StoredValue(items, UserLastNameKey)) || Truthy(Get(tokenInfo, "lastName"))
    ensures Truthy(r.name) <==>
              Truthy(StoredValue(items, UserNameKey)) || Truthy(Get(tokenInfo, "name"))
              || Truthy(Get(tokenInfo, "firstName")) || Truthy(Get(tokenInfo, "lastName"))
  {
    var firstName := Get(tokenInfo, "firstName");
    var lastName := Get(tokenInfo, "lastName");
    OrAllThree(firstName, lastName, Undefined);
    OrAllThree(StoredValue(items, UserNameKey), Get(tokenInfo, "name"), NameFromParts(firstName, lastName));
    UserInfo(
      OrAll([StoredValue(items, UserNameKey), Get(tokenInfo, "name"), NameFromParts(firstName, lastName)]),
      Or(StoredValue(items, UserEmailKey), Get(tokenInfo, "email")),
      Or(StoredValue(items, UserFirstNameKey), firstName),
      Or(StoredValue(items, UserLastNameKey), lastName))
  }

  /** The priority order for the displayed name. */
  lemma NamePriority(items: map<string, string>, tokenInfo: Value)
    ensures var stored := StoredValue(items, UserNameKey);
            var first := Get(tokenInfo, "firstName");
            var last := Get(tokenInfo, "lastName");
            var name := MergedUserInfo(items, tokenInfo).name;
            (Truthy(stored) ==> name == stored)
            && (!Truthy(stored) && Truthy(Get(tokenInfo, "name")) ==> name == Get(tokenInfo, "name"))
            && (!Truthy(stored) && !Truthy(Get(tokenInfo, "name")) && Truthy(first) && Truthy(last) ==>
                  name == Str(ToStr(first) + " " + ToStr(last)))
            && (!Truthy(stored) && !Truthy(Get(tokenInfo, "name")) && Truthy(first) && !Truthy(last) ==>
                  name == first)
            && (!Truthy(stored) && !Truthy(Get(tokenInfo, "name")) && !Truthy(first) && Truthy(last) ==>
                  name == last)
            && (!Truthy(stored) && !Truthy(Get(tokenInfo, "name")) && !Truthy(first) && !Truthy(last) ==>
                  name == Undefined)
  {
    var first := Get(tokenInfo, "firstName");
    var last := Get(tokenInfo, "lastName");
    OrAllThree(first, last, Undefined);
    OrAllThree(StoredValue(items, UserNameKey), Get(tokenInfo, "name"), NameFromParts(first, last));
  }

  /** A non-empty stored entry wins over the token's claim for every other field. */
  lemma StoredTakesPrecedence(items: map<string, string>, tokenInfo: Value)
    ensures var info := MergedUserInfo(items, tokenInfo);
            (UserEmailKey in items && items[UserEmailKey] != "" ==> info.email == Str(items[UserEmailKey]))
            && (UserFirstNameKey in items && items[UserFirstNameKey] != "" ==>
                  info.firstName == Str(items[UserFirstNameKey]))
            && (UserLastNameKey in items && items[UserLastNameKey] != "" ==>
                  info.lastName == Str(items[UserLastNameKey]))
            && ((UserEmailKey !in items || items[UserEmailKey] == "") ==> info.email == Get(tokenInfo, "email"))
  {
  }

  /** `userInfo.name || userInfo.email || fallback`, the display name the pages show. */
  function DisplayName(info: UserInfo, fallback: string): (r: Value)
    ensures Truthy(info.name) ==> r == info.name
    ensures !Truthy(info.name) && Truthy(info.email) ==> r == info.email
    ensures !Truthy(info.name) && !Truthy(info.email) ==> r == Str(fallback)
  {
    Or(info.name, Or(info.email, Str(fallback)))
  }

  class AuthService {
    const tokens: TokenService
    const router: Router

    constructor(tokens: TokenService, router: Router)
      ensures this.tokens == tokens && this.router == router
    {
      this.tokens := tokens;
      this.router := router;
    }

    /** The `tap` of `signup`, run on the unwrapped response. */
    method SignupSucceeded(response: Value)
      modifies tokens.storage
      ensures tokens.storage.items == AfterSignup(old(tokens.storage.items), response)
    {
      var access := IssuedToken(response);
      if Truthy(access) {
        tokens.SetTokens(access, Get(response, "refreshToken"));
      }
    }

    /** The `tap` of `login`, run on the unwrapped response. */
    method LoginSucceeded(response: Value)
      modifies tokens.storage
      ensures tokens.storage.items == AfterLogin(old(tokens.storage.items), response)
    {
      var access := IssuedToken(response);
      if Truthy(access) {
        tokens.SetTokens(access, Get(response, "refreshToken"));
        var user := Get(response, "user");
        if Truthy(user) {
          SetUserInfo(user);
        }
      }
    }

    method SetUserInfo(user: Value)
      modifies tokens.storage
      ensures tokens.storage.items == WithUserInfo(old(tokens.storage.items), user)
    {
      var storage := tokens.storage;
      if Truthy(Get(user, "name")) { storage.SetItem(UserNameKey, ToStr(Get(user, "name"))); }
      if Truthy(Get(user, "email")) { storage.SetItem(UserEmailKey, ToStr(Get(user, "email"))); }
      if Truthy(Get(user, "firstName")) { storage.SetItem(UserFirstNameKey, ToStr(Get(user, "firstName"))); }
      if Truthy(Get(user, "lastName")) { storage.SetItem(UserLastNameKey, ToStr(Get(user, "lastName"))); }
    }

    /** `getUserInfo`: the stored profile merged over the claims of the stored token. */
    function GetUserInfo(): (r: UserInfo)
      reads tokens.storage
      ensures r == MergedUserInfo(tokens.storage.items, tokens.GetUserInfo())
    {
      MergedUserInfo(tokens.storage.items, tokens.GetUserInfo())
    }

    /** `logout`: both tokens cleared (the stored profile stays), then a navigation home. */
    method Logout()
      modifies tokens.storage, router
      ensures tokens.storage.items == Cleared(old(tokens.storage.items))
      ensures router.navigations == old(router.navigations) + [Home]
    {
      tokens.ClearTokens();
      router.Navigate(Home);
    }

    function IsAuthenticated(): (r: bool)
      reads tokens.storage
      ensures r == tokens.IsAuthenticated()
      ensures r <==> SignedIn(tokens.storage.items)
    {
      tokens.IsAuthenticated()
    }
  }
}
