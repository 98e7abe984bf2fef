/**
 * The token store (`TokenService`): access and refresh tokens kept in Web Storage, and the
 * claims read from the access token, a JSON Web Token in the JWS Compact Serialization
 * (section 7.1 of RFC 7515): `header.payload.signature`, each part base64url-encoded.
 */
module Token {
  import opened Wrappers
  import opened Text
  import opened JsValue
  import opened Storage

  const AccessTokenKey := "access_token"
  const RefreshTokenKey := "refresh_token"

  /** Largest magnitude, in milliseconds, of a valid JavaScript `Date` (8.64e15). */
  const MaxTime: int := 8_640_000_000_000_000

  /** `isAuthenticated()` on a store: the access token is present and non-empty. */
  predicate SignedIn(items: map<string, string>) {
    AccessTokenKey in items && items[AccessTokenKey] != ""
  }

  /**
   * The store after `setTokens(access, refresh)`: the access token is always written, the
   * refresh token only when it is truthy; `setItem` stores the string form of each.
   */
  function WithTokens(items: map<string, string>, access: Value, refresh: Value): (r: map<string, string>)
    ensures AccessTokenKey in r && r[AccessTokenKey] == ToStr(access)
    ensures Truthy(refresh) ==> RefreshTokenKey in r && r[RefreshTokenKey] == ToStr(refresh)
    ensures !Truthy(refresh) ==>
              (RefreshTokenKey in r <==> RefreshTokenKey in items)
              && (RefreshTokenKey in items ==> r[RefreshTokenKey] == items[RefreshTokenKey])
    ensures forall k :: k != AccessTokenKey && k != RefreshTokenKey ==>
              (k in r <==> k in items) && (k in items ==> r[k] == items[k])
  {
    var written := items[AccessTokenKey := ToStr(access)];
    if Truthy(refresh) then written[RefreshTokenKey := ToStr(refresh)] else written
  }

  /** The store after `clearTokens()`: both token keys gone, every other entry kept. */
  function Cleared(items: map<string, string>): (r: map<string, string>)
    ensures AccessTokenKey !in r && RefreshTokenKey !in r
    ensures forall k :: k != AccessTokenKey && k != RefreshTokenKey ==>
              (k in r <==> k in items) && (k in items ==> r[k] == items[k])
  {
    items - {AccessTokenKey, RefreshTokenKey}
  }

  /** Clearing twice is clearing once, and a cleared store is signed out. */
  lemma ClearedIdempotent(items: map<string, string>)
    ensures Cleared(Cleared(items)) == Cleared(items)
    ensures !SignedIn(Cleared(items))
  {
    var once := Cleared(items);
    assert forall k :: k in Cleared(once) <==> k in once;
  }

  /** After `setTokens`, the store is signed in exactly when the access token's text is non-empty. */
  lemma SignedInAfterSet(items: map<string, string>, access: Value, refresh: Value)
    ensures SignedIn(WithTokens(items, access, refresh)) <==> ToStr(access) != ""
  {
  }

  /** `token || this.getAccessToken()`: the first non-empty candidate, if there is one. */
  function ChosenToken(argument: Option<string>, stored: Option<string>): (r: Option<string>)
    ensures r.Some? ==> r.value != ""
    ensures argument.Some? && argument.value != "" ==> r == argument
    ensures (argument.None? || argument.value == "") ==>
              r == (if stored.Some? && stored.value != "" then stored else None)
  {
    if argument.Some? && argument.value != "" then argument
    else if stored.Some? && stored.value != "" then stored
    else None
  }

  /** `token.split('.')[1]`, which is `undefined` (None) when the token has no dot. */
  function SecondSegment(token: string): (r: Option<string>)
    ensures r.Some? <==> '.' in token
    ensures r.Some? ==> '.' !in r.value
  {
    var parts := Split(token, '.');
    if |parts| >= 2 then Some(parts[1])
    else
      assert parts == [token];
      None
  }

  /** In a compact serialization the second segment is exactly the encoded payload. */
  lemma SecondSegmentOfCompact(header: string, payload: string, signature: string)
    requires '.' !in header && '.' !in payload && '.' !in signature
    ensures SecondSegment(header + "." + payload + "." + signature) == Some(payload)
  {
    var parts := [header, payload, signature];
    assert Join(parts[2..], '.') == signature;
    assert Join(parts[1..], '.') == payload + "." + signature;
    assert Join(parts, '.') == header + "." + payload + "." + signature;
    SplitJoin(parts, '.');
  }

  function StandardChar(c: char): char {
    if c == '-' then '+' else if c == '_' then '/' else c
  }

  function UrlChar(c: char): char {
    if c == '+' then '-' else if c == '/' then '_' else c
  }

  /**
   * The base64url alphabet (section 5 of RFC 4648) rewritten into the standard one
   * (section 4): `-` becomes `+`, `_` becomes `/`. The pointwise clause spells out the
   * comprehension; `AlphabetRoundTrip` rests on it.
   */
  function ToStandardAlphabet(s: string): (r: string)
    ensures |r| == |s|
    ensures '-' !in r && '_' !in r
    ensures forall i :: 0 <= i < |s| ==> r[i] == StandardChar(s[i])
  {
    seq(|s|, i requires 0 <= i < |s| => StandardChar(s[i]))
  }

  /**
   * The opposite rewriting, from the standard alphabet into base64url. The pointwise clause
   * spells out the comprehension; `AlphabetRoundTrip` rests on it.
   */
  function ToUrlAlphabet(s: string): (r: string)
    ensures |r| == |s|
    ensures '+' !in r && '/' !in r
    ensures forall i :: 0 <= i < |s| ==> r[i] == UrlChar(s[i])
  {
    seq(|s|, i requires 0 <= i < |s| => UrlChar(s[i]))
  }

  /** The rewriting loses nothing: on base64url text it is undone by `ToUrlAlphabet`. */
  lemma AlphabetRoundTrip(s: string)
    requires '+' !in s && '/' !in s
    ensures ToUrlAlphabet(ToStandardAlphabet(s)) == s
  {
    assert forall i :: 0 <= i < |s| ==> s[i] != '+' && s[i] != '/';
  }

  /**
   * `getTokenPayload` once a token has been chosen: the claims `decode` (standing for
   * `atob`, `decodeURIComponent` and `JSON.parse`) yields for the second segment, and
   * `null` when there is no second segment or decoding fails.
   */
  function PayloadOf(token: string, decode: string -> Option<Value>): (r: Value)
    ensures '.' !in token ==> r == Null
    ensures forall seg :: SecondSegment(token) == Some(seg) && decode(ToStandardAlphabet(seg)).None? ==> r == Null
  {
    match SecondSegment(token)
    case None => Null
    case Some(seg) =>
      match decode(ToStandardAlphabet(seg))
      case None => Null
      case Some(claims) => claims
  }

  /** The claims of a compact token are what the decoder makes of its payload segment. */
  lemma PayloadOfCompact(header: string, payload: string, signature: string,
                         decode: string -> Option<Value>, claims: Value)
    requires '.' !in header && '.' !in payload && '.' !in signature
    requires decode(ToStandardAlphabet(payload)) == Some(claims)
    ensures PayloadOf(header + "." + payload + "." + signature, decode) == claims
  {
    SecondSegmentOfCompact(header, payload, signature);
  }

  /**
   * `isTokenExpired` given the claims and the clock `now` (milliseconds): true without
   * claims or without a truthy `exp`; otherwise `new Date(exp * 1000) < now`, where an
   * `exp` that is not a number, or lies outside the `Date` range, makes an Invalid Date
   * and so compares false.
   */
  function ExpiredAt(claims: Value, now: int): (r: bool)
    ensures !Truthy(claims) || !Truthy(Get(claims, "exp")) ==> r
    ensures forall n :: Get(claims, "exp") == Num(n) && n != 0 && Truthy(claims) ==>
              (r <==> -MaxTime <= n * 1000 <= MaxTime && n * 1000 < now)
    ensures forall s :: Get(claims, "exp") == Str(s) && ToNumber(Str(s)).NaN? && s != "" ==> !r
  {
    var exp := Get(claims, "exp");
    if !Truthy(claims) || !Truthy(exp) then true
    else
      match ToNumber(exp)
      case NaN => false
      case Finite(n) => -MaxTime <= n * 1000 <= MaxTime && n * 1000 < now
  }

  /** The named fields of `getUserInfo` before the claims are spread over them. */
  function ClaimFallbacks(claims: Value): map<string, Value> {
    map[
      "name" := OrAll([Get(claims, "name"), Get(claims, "fullName"), Get(claims, "username"), Get(claims, "sub")]),
      "email" := Or(Get(claims, "email"), Get(claims, "emailAddress")),
      "id" := OrAll([Get(claims, "id"), Get(claims, "userId"), Get(claims, "sub"), Get(claims, "nameid")])
    ]
  }

  /** The own properties `...claims` copies; only objects are spread in this model. */
  function Spread(v: Value): map<string, Value> {
    if v.Obj? then v.fields else map[]
  }

  /**
   * `getUserInfo` given the claims: `null` without claims, otherwise the fallback chains
   * for name, email and id, overridden by every claim of the token.
   */
  function UserInfoOf(claims: Value): (r: Value)
    ensures !Truthy(claims) <==> r == Null
    ensures Truthy(claims) ==> r.Obj? && "name" in r.fields && "email" in r.fields && "id" in r.fields
    ensures claims.Obj? ==> forall k :: k in claims.fields ==> Get(r, k) == claims.fields[k]
    ensures claims.Obj? ==> forall k :: k in r.fields ==> k in claims.fields || k in {"name", "email", "id"}
    ensures claims.Obj? && "name" !in claims.fields ==>
              r.fields["name"]
              == OrAll([Get(claims, "name"), Get(claims, "fullName"), Get(claims, "username"), Get(claims, "sub")])
    ensures claims.Obj? && "email" !in claims.fields ==>
              r.fields["email"] == Or(Get(claims, "email"), Get(claims, "emailAddress"))
  {
    if !Truthy(claims) then Null else Obj(ClaimFallbacks(claims) + Spread(claims))
  }

  /** `getUserId` given the user info: its `id` when truthy, otherwise `null`. */
  function UserIdOf(info: Value): (r: Value)
    ensures Truthy(Get(info, "id")) ==> r == Get(info, "id")
    ensures !Truthy(Get(info, "id")) ==> r == Null
  {
    Or(Get(info, "id"), Null)
  }

  /**
   * Which claim the user id comes from: an `id` claim always wins, even a falsy one (which
   * then gives `null`); without one, the first truthy of `userId`, `sub` and `nameid`.
   */
  lemma UserIdClaim(claims: Value)
    requires claims.Obj?
    ensures "id" in claims.fields ==> UserIdOf(UserInfoOf(claims)) == Or(claims.fields["id"], Null)
    ensures "id" !in claims.fields ==>
              UserIdOf(UserInfoOf(claims))
              == Or(OrAll([Get(claims, "userId"), Get(claims, "sub"), Get(claims, "nameid")]), Null)
  {
    var info := UserInfoOf(claims);
    if "id" !in claims.fields {
      assert Get(info, "id") == ClaimFallbacks(claims)["id"];
    }
  }

  class TokenService {
    const storage: Store
    const decode: string -> Option<Value>

    constructor(storage: Store, decode: string -> Option<Value>)
      ensures this.storage == storage && this.decode == decode
    {
      this.storage := storage;
      this.decode := decode;
    }

    function GetAccessToken(): (r: Option<string>)
      reads storage
      ensures r.Some? <==> AccessTokenKey in storage.items
      ensures r.Some? ==> r.value == storage.items[AccessTokenKey]
    {
      storage.GetItem(AccessTokenKey)
    }

    function GetRefreshToken(): (r: Option<string>)
      reads storage
      ensures r.Some? <==> RefreshTokenKey in storage.items
      ensures r.Some? ==> r.value == storage.items[RefreshTokenKey]
    {
      storage.GetItem(RefreshTokenKey)
    }

    method SetTokens(access: Value, refresh: Value)
      modifies storage
      ensures storage.items == WithTokens(old(storage.items), access, refresh)
    {
      storage.SetItem(AccessTokenKey, ToStr(access));
      if Truthy(refresh) {
        storage.SetItem(RefreshTokenKey, ToStr(refresh));
      }
    }

    method ClearTokens()
      modifies storage
      ensures storage.items == Cleared(old(storage.items))
      ensures GetAccessToken() == None && GetRefreshToken() == None
    {
      storage.RemoveItem(AccessTokenKey);
      storage.RemoveItem(RefreshTokenKey);
    }

    function IsAuthenticated(): (r: bool)
      reads storage
      ensures r <==> SignedIn(storage.items)
    {
      match GetAccessToken()
      case None => false
      case Some(t) => t != ""
    }

    /** `getTokenPayload(token)`; `token` None is an omitted argument. */
    function GetTokenPayload(token: Option<string>): (r: Value)
      reads storage
      ensures ChosenToken(token, GetAccessToken()).None? ==> r == Null
      ensures forall t :: ChosenToken(token, GetAccessToken()) == Some(t) ==> r == PayloadOf(t, decode)
    {
      match ChosenToken(token, GetAccessToken())
      case None => Null
      case Some(t) => PayloadOf(t, decode)
    }

    function IsTokenExpired(token: Option<string>, now: int): (r: bool)
      reads storage
      ensures GetTokenPayload(token) == Null ==> r
      ensures r == ExpiredAt(GetTokenPayload(token), now)
    {
      ExpiredAt(GetTokenPayload(token), now)
    }

    function GetUserInfo(): (r: Value)
      reads storage
      ensures GetTokenPayload(None) == Null ==> r == Null
      ensures r == UserInfoOf(GetTokenPayload(None))
    {
      UserInfoOf(GetTokenPayload(None))
    }

    function GetUserId(): (r: Value)
      reads storage
      ensures Truthy(r) || r == Null
      ensures r == UserIdOf(GetUserInfo())
    {
      UserIdOf(GetUserInfo())
    }
  }
}
