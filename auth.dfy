/**
 * The auth session store: the current token record, or `null` once the
 * session has been cleared, with the status queries and transitions the HTTP
 * client drives, and the validator for the token body the server returns.
 */
module Auth {
  import opened Wrappers
  import opened JsValue

  /** The stored record; `None` fields are `null`. */
  datatype AuthToken = AuthToken(
    accessToken: Option<string>,
    refreshToken: Option<string>,
    expiresIn: Option<int>,
    authorities: Json)

  /** The record a fresh store starts with: null tokens, null expiry, no authorities. */
  const InitialToken := AuthToken(None, None, None, Arr([]))

  /** `!!s` for a string-or-null. */
  predicate Present(s: Option<string>) {
    s.Some? && s.value != ""
  }

  /** `!!auth.value?.refreshToken` */
  predicate LoggedIn(auth: Option<AuthToken>) {
    auth.Some? && Present(auth.value.refreshToken)
  }

  /** `!!auth.value?.accessToken` */
  predicate Authenticated(auth: Option<AuthToken>) {
    auth.Some? && Present(auth.value.accessToken)
  }

  /** The three ways `AuthTokenImpl.is(obj)` can end. */
  datatype Verdict = Accepted | NotAccepted | ThrowsTypeError

  /**
   * `AuthTokenImpl.is(obj)`. The test on `authorities` is
   * `typeof Array.isArray(...)`, the always-truthy string "boolean", so it
   * accepts whatever `authorities` holds; and since `typeof null` is "object",
   * reading `null['accessToken']` throws.
   */
  function IsAuthToken(obj: Json): (r: Verdict)
    ensures r == Accepted <==>
              && obj.Obj?
              && Get(obj, "accessToken").Str?
              && Get(obj, "refreshToken").Str?
              && Get(obj, "expiresIn").Num?
    ensures r == ThrowsTypeError <==> obj == Null
  {
    if TypeOf(obj) != "object" then NotAccepted
    else if obj.Null? then ThrowsTypeError
    else if TypeOf(Get(obj, "accessToken")) != "string" then NotAccepted
    else if TypeOf(Get(obj, "refreshToken")) != "string" then NotAccepted
    else if TypeOf(Get(obj, "expiresIn")) != "number" then NotAccepted
    else
      var isArray := Bool(Get(obj, "authorities").Arr?);
      if TypeOf(isArray) == "" then NotAccepted else Accepted
  }

  /** The `authorities` conjunct never rejects: a body whose authorities is a string passes. */
  lemma AuthoritiesAreNotChecked()
    ensures IsAuthToken(Obj([("accessToken", Str("a")), ("refreshToken", Str("r")),
                             ("expiresIn", Num(300)), ("authorities", Str("ADMIN"))])) == Accepted
    ensures IsAuthToken(Obj([("accessToken", Str("a")), ("refreshToken", Str("r")),
                             ("expiresIn", Num(300))])) == Accepted
  {
  }

  /** The record `{...obj}` stores for a body that `AuthTokenImpl.is` accepted. */
  function TokenOf(obj: Json): (t: AuthToken)
    requires IsAuthToken(obj) == Accepted
    ensures t.accessToken == Some(Get(obj, "accessToken").s)
    ensures t.refreshToken == Some(Get(obj, "refreshToken").s)
    ensures t.expiresIn == Some(Get(obj, "expiresIn").n)
    ensures t.authorities == Get(obj, "authorities")
  {
    AuthToken(Some(Get(obj, "accessToken").s), Some(Get(obj, "refreshToken").s),
              Some(Get(obj, "expiresIn").n), Get(obj, "authorities"))
  }

  /** A session whose record holds only a refresh token is logged in but not authenticated. */
  lemma RefreshOnlySession(t: AuthToken)
    requires t.accessToken.None? && Present(t.refreshToken)
    ensures LoggedIn(Some(t)) && !Authenticated(Some(t))
  {
  }

  /** The store; `auth == None` is the cleared (`null`) state. */
  class AuthStore {
    var auth: Option<AuthToken>

    constructor ()
      ensures auth == Some(InitialToken)
      ensures !IsLogged() && !IsAuthenticated()
    {
      auth := Some(InitialToken);
    }

    /** `isLogged()`: holds exactly when a non-empty refresh token is stored. */
    predicate IsLogged()
      reads this
      ensures IsLogged() <==> auth.Some? && auth.value.refreshToken.Some? && auth.value.refreshToken.value != ""
    {
      LoggedIn(auth)
    }

    /** `isAuthenticated()`: holds exactly when a non-empty access token is stored. */
    predicate IsAuthenticated()
      reads this
      ensures IsAuthenticated() <==> auth.Some? && auth.value.accessToken.Some? && auth.value.accessToken.value != ""
    {
      Authenticated(auth)
    }

    /** `clearAuth()`: the whole record becomes `null`. */
    method ClearAuth()
      modifies this
      ensures auth == None
      ensures !IsLogged() && !IsAuthenticated() && GetAccessToken() == None
    {
      auth := None;
    }

    /**
     * `clearToken()`: nulls the access token in place and keeps the rest.
     * It dereferences the record without a null guard.
     */
    method ClearToken()
      requires auth.Some?
      modifies this
      ensures auth == Some(old(auth).value.(accessToken := None))
      ensures !IsAuthenticated() && IsLogged() == old(IsLogged())
    {
      auth := Some(auth.value.(accessToken := None));
    }

    /** `setAuth(newToken)`: replaces the record by a copy of `newToken`. */
    method SetAuth(newToken: AuthToken)
      modifies this
      ensures auth == Some(newToken)
      ensures GetAccessToken() == newToken.accessToken && GetRefreshToken() == newToken.refreshToken
    {
      auth := Some(newToken);
    }

    /** `getRefreshToken()`; dereferences the record without a null guard. */
    function GetRefreshToken(): (r: Option<string>)
      reads this
      requires auth.Some?
      ensures Present(r) <==> IsLogged()
    {
      auth.value.refreshToken
    }

    /** `getAccessToken()`: `null` or `undefined` (both `None`) unless a token is stored. */
    function GetAccessToken(): (r: Option<string>)
      reads this
      ensures Present(r) <==> IsAuthenticated()
      ensures auth.None? ==> r.None?
    {
      if auth.Some? then auth.value.accessToken else None
    }

    /** `getAuthorities()`; dereferences the record without a null guard. */
    function GetAuthorities(): (r: Json)
      reads this
      requires auth.Some?
      ensures auth == Some(auth.value.(authorities := r))
    {
      auth.value.authorities
    }
  }
}
