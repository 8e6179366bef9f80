/**
 * The HTTP client wrapper. Two clients: `apiPublic`, whose request
 * interceptor adds the locale and time-zone headers, and `api`, which also
 * attaches the bearer token (refreshing first when only a refresh token is
 * held) and whose response interceptor handles 401 (clear the access token,
 * refresh, re-send) and 422 (lift the validation errors onto the error).
 * The network is abstract: what a request settled to is an input, and every
 * request the interceptors issue themselves is reported as a `Call`.
 */
module Http {
  import opened Wrappers
  import opened JsValue
  import opened Auth

  /** A request configuration: the URL and the headers. */
  datatype Config = Config(url: string, headers: map<string, string>)

  datatype Response = Response(status: int, data: Json)

  /** An axios error: the request's configuration, the response if one arrived, and the slots the 422 handler fills. */
  datatype HttpError = HttpError(config: Config, response: Option<Response>,
                                 fieldErrors: Option<Json>, objectErrors: Option<Json>)

  /** What a rejected promise carries. */
  datatype Thrown =
    | AxiosError(error: HttpError)
    | PlainError(message: string)   // `Error(message)`
    | TypeError                      // a property read on null or undefined

  datatype Settled<T> = Fulfilled(value: T) | Rejected(reason: Thrown)

  /** What `apiPublic.post('/auth/refresh', …)` settled to. */
  datatype PostReply =
    | PostFailed(reason: Thrown)   // the POST itself rejected
    | NoReply                      // it resolved to nothing
    | Replied(response: Response)

  /** A request an interceptor issues on its own. */
  datatype Call =
    | RefreshCall(refreshToken: Option<string>)   // POST /auth/refresh with this body
    | Resend(config: Config)                       // `api.request(originalRequest)`

  const AcceptLanguage := "Accept-Language"
  const TimeZone := "X-TimeZone"
  const Authorization := "Authorization"

  /**
   * The request interceptor both clients register: the current UI locale and
   * the browser's time zone, given here as opaque strings, are set and every
   * other header is kept.
   */
  function WithLocaleHeaders(c: Config, locale: string, timeZone: string): (r: Config)
    ensures r.url == c.url
    ensures r.headers.Keys == c.headers.Keys + {AcceptLanguage, TimeZone}
    ensures r.headers[AcceptLanguage] == locale && r.headers[TimeZone] == timeZone
    ensures forall k :: k in c.headers && k != AcceptLanguage && k != TimeZone ==> r.headers[k] == c.headers[k]
  {
    c.(headers := c.headers[AcceptLanguage := locale][TimeZone := timeZone])
  }

  /** `config.headers.Authorization = `Bearer ${token}`` */
  function WithBearer(c: Config, token: string): (r: Config)
    ensures r.url == c.url && r.headers.Keys == c.headers.Keys + {Authorization}
    ensures r.headers[Authorization] == "Bearer " + token
    ensures forall k :: k in c.headers && k != Authorization ==> r.headers[k] == c.headers[k]
  {
    c.(headers := c.headers[Authorization := "Bearer " + token])
  }

  /** How `refresh()` settles for a reply to its POST. */
  function RefreshResult(reply: PostReply): (r: Settled<Json>)
    ensures r.Fulfilled? <==>
              reply.Replied? && reply.response.status == 200 && IsAuthToken(reply.response.data) == Accepted
    ensures r.Fulfilled? ==> r.value == reply.response.data
    ensures reply.PostFailed? ==> r == Rejected(reply.reason)
    ensures reply.Replied? && reply.response.status != 200 ==> r == Rejected(PlainError("Failed to refresh"))
    ensures reply.Replied? && reply.response.status == 200 && IsAuthToken(reply.response.data) == NotAccepted ==>
              r == Rejected(PlainError("Wrong format"))
  {
    match reply
    case PostFailed(reason) => Rejected(reason)
    case NoReply => Rejected(PlainError("Failed to load response"))
    case Replied(response) =>
      if response.status != 200 then Rejected(PlainError("Failed to refresh"))
      else
        match IsAuthToken(response.data)
        case ThrowsTypeError => Rejected(TypeError)
        case NotAccepted => Rejected(PlainError("Wrong format"))
        case Accepted => Fulfilled(response.data)
  }

  /**
   * The session after `refresh()`: the new token on success, nothing at all
   * after a 401 from the refresh endpoint, and unchanged otherwise.
   */
  function AuthAfterRefresh(auth: Option<AuthToken>, reply: PostReply): (a: Option<AuthToken>)
    ensures RefreshResult(reply).Fulfilled? ==> a == Some(TokenOf(reply.response.data))
    ensures reply.Replied? && reply.response.status == 401 ==> a == None
    ensures RefreshResult(reply).Rejected? && !(reply.Replied? && reply.response.status == 401) ==> a == auth
  {
    if RefreshResult(reply).Fulfilled? then Some(TokenOf(reply.response.data))
    else if reply.Replied? && reply.response.status == 401 then None
    else auth
  }

  /** A successful refresh that returns a non-empty access token leaves the session authenticated. */
  lemma RefreshSuccessAuthenticates(auth: Option<AuthToken>, reply: PostReply)
    requires RefreshResult(reply).Fulfilled?
    ensures Authenticated(AuthAfterRefresh(auth, reply)) <==> Get(reply.response.data, "accessToken") != Str("")
    ensures LoggedIn(AuthAfterRefresh(auth, reply)) <==> Get(reply.response.data, "refreshToken") != Str("")
  {
  }

  /** A refresh that fails only ends the session when the endpoint answered 401. */
  lemma RefreshFailureKeepsSession(auth: Option<AuthToken>, reply: PostReply)
    requires RefreshResult(reply).Rejected?
    ensures !(reply.Replied? && reply.response.status == 401) ==> AuthAfterRefresh(auth, reply) == auth
    ensures reply.Replied? && reply.response.status == 401 ==>
              !LoggedIn(AuthAfterRefresh(auth, reply)) && !Authenticated(AuthAfterRefresh(auth, reply))
  {
  }

  /**
   * `refresh()`: posts the stored refresh token and settles as
   * `RefreshResult`, leaving the session as `AuthAfterRefresh` says.
   */
  method Refresh(store: AuthStore, reply: PostReply) returns (r: Settled<Json>, sent: Call)
    requires store.auth.Some?
    modifies store
    ensures sent == RefreshCall(old(store.auth).value.refreshToken)
    ensures r == RefreshResult(reply)
    ensures store.auth == AuthAfterRefresh(old(store.auth), reply)
  {
    sent := RefreshCall(store.GetRefreshToken());
    match reply {
      case PostFailed(reason) =>
        r := Rejected(reason);
      case NoReply =>
        r := Rejected(PlainError("Failed to load response"));
      case Replied(response) =>
        if response.status != 200 {
          if response.status == 401 {
            store.ClearAuth();
          }
          r := Rejected(PlainError("Failed to refresh"));
        } else {
          var verdict := IsAuthToken(response.data);
          if verdict == ThrowsTypeError {
            r := Rejected(TypeError);
          } else if verdict == NotAccepted {
            r := Rejected(PlainError("Wrong format"));
          } else {
            store.SetAuth(TokenOf(response.data));
            r := Fulfilled(response.data);
          }
        }
    }
  }

  /** Which branch the bearer interceptor takes for a session state. */
  datatype BearerStep = AttachCurrent(token: string) | RefreshThenAttach | LeaveUnset

  function BearerStepFor(auth: Option<AuthToken>): (d: BearerStep)
    ensures d.AttachCurrent? <==> Authenticated(auth)
    ensures d.AttachCurrent? ==> auth.value.accessToken == Some(d.token) && d.token != ""
    ensures d.RefreshThenAttach? <==> !Authenticated(auth) && LoggedIn(auth)
  {
    if Authenticated(auth) then AttachCurrent(auth.value.accessToken.value)
    else if LoggedIn(auth) then RefreshThenAttach
    else LeaveUnset
  }

  /**
   * After a successful refresh with a non-empty access token, the request
   * interceptor attaches that new token, so the re-sent request carries it.
   */
  lemma RetryCarriesNewToken(auth: Option<AuthToken>, reply: PostReply)
    requires RefreshResult(reply).Fulfilled?
    requires Get(reply.response.data, "accessToken") != Str("")
    ensures BearerStepFor(AuthAfterRefresh(auth, reply)) == AttachCurrent(Get(reply.response.data, "accessToken").s)
  {
  }

  /**
   * The bearer interceptor of `api`: attaches the stored access token; with
   * only a refresh token, refreshes first and attaches the new one (a failed
   * refresh rejects the request); with neither, leaves the headers alone.
   */
  method AttachBearer(store: AuthStore, c: Config, reply: PostReply) returns (r: Settled<Config>, sent: seq<Call>)
    modifies store
    ensures BearerStepFor(old(store.auth)).AttachCurrent? ==>
              && r == Fulfilled(WithBearer(c, BearerStepFor(old(store.auth)).token))
              && sent == [] && store.auth == old(store.auth)
    ensures BearerStepFor(old(store.auth)).RefreshThenAttach? ==>
              && sent == [RefreshCall(old(store.auth).value.refreshToken)]
              && store.auth == AuthAfterRefresh(old(store.auth), reply)
              && (RefreshResult(reply).Fulfilled? ==>
                    r == Fulfilled(WithBearer(c, TokenOf(reply.response.data).accessToken.value)))
              && (RefreshResult(reply).Rejected? ==> r == Rejected(RefreshResult(reply).reason))
    ensures BearerStepFor(old(store.auth)).LeaveUnset? ==>
              r == Fulfilled(c) && sent == [] && store.auth == old(store.auth)
  {
    if store.IsAuthenticated() {
      r := Fulfilled(WithBearer(c, store.GetAccessToken().value));
      sent := [];
    } else if store.IsLogged() {
      var refreshed, call := Refresh(store, reply);
      sent := [call];
      if refreshed.Fulfilled? {
        r := Fulfilled(WithBearer(c, store.GetAccessToken().value));
      } else {
        r := Rejected(refreshed.reason);
      }
    } else {
      r := Fulfilled(c);
      sent := [];
    }
  }

  /**
   * The whole request path of `api`: the bearer interceptor (registered last,
   * so axios runs it first), then the locale interceptor. A request that is
   * sent always carries the locale and time-zone headers.
   */
  method PrepareRequest(store: AuthStore, c: Config, locale: string, timeZone: string, reply: PostReply)
    returns (r: Settled<Config>, sent: seq<Call>)
    modifies store
    ensures r.Fulfilled? ==>
              && AcceptLanguage in r.value.headers && r.value.headers[AcceptLanguage] == locale
              && TimeZone in r.value.headers && r.value.headers[TimeZone] == timeZone
    ensures r.Fulfilled? && Authenticated(store.auth) ==>
              Authorization in r.value.headers && r.value.headers[Authorization] == "Bearer " + store.auth.value.accessToken.value
    ensures BearerStepFor(old(store.auth)).RefreshThenAttach? <==> sent != []
    ensures BearerStepFor(old(store.auth)).AttachCurrent? ==>
              && r == Fulfilled(WithLocaleHeaders(WithBearer(c, BearerStepFor(old(store.auth)).token), locale, timeZone))
              && store.auth == old(store.auth)
    ensures BearerStepFor(old(store.auth)).RefreshThenAttach? ==>
              && store.auth == AuthAfterRefresh(old(store.auth), reply)
              && sent == [RefreshCall(old(store.auth).value.refreshToken)]
              && (RefreshResult(reply).Fulfilled? ==>
                    r == Fulfilled(WithLocaleHeaders(WithBearer(c, TokenOf(reply.response.data).accessToken.value),
                                                     locale, timeZone)))
              && (RefreshResult(reply).Rejected? ==> r == Rejected(RefreshResult(reply).reason))
    ensures BearerStepFor(old(store.auth)).LeaveUnset? ==>
              r == Fulfilled(WithLocaleHeaders(c, locale, timeZone)) && store.auth == old(store.auth)
  {
    var withBearer;
    withBearer, sent := AttachBearer(store, c, reply);
    if withBearer.Fulfilled? {
      r := Fulfilled(WithLocaleHeaders(withBearer.value, locale, timeZone));
    } else {
      r := withBearer;
    }
  }

  /**
   * The record the 422 handler makes of the error: `fieldErrors` is
   * `data?.errors || {}` and `objectErrors` is `data?.objectErrors || []`, so
   * both are always set and truthy, and a truthy server value is passed on.
   */
  function WithValidationErrors(e: HttpError): (r: HttpError)
    requires e.response.Some?
    ensures r.config == e.config && r.response == e.response
    ensures r.fieldErrors.Some? && Truthy(r.fieldErrors.value)
    ensures r.objectErrors.Some? && Truthy(r.objectErrors.value)
    ensures Truthy(Get(e.response.value.data, "errors")) ==>
              r.fieldErrors == Some(Get(e.response.value.data, "errors"))
    ensures !Truthy(Get(e.response.value.data, "errors")) ==> r.fieldErrors == Some(Obj([]))
    ensures Truthy(Get(e.response.value.data, "objectErrors")) ==>
              r.objectErrors == Some(Get(e.response.value.data, "objectErrors"))
    ensures !Truthy(Get(e.response.value.data, "objectErrors")) ==> r.objectErrors == Some(Arr([]))
  {
    var data := e.response.value.data;
    e.(fieldErrors := Some(OrElse(Get(data, "errors"), Obj([]))),
       objectErrors := Some(OrElse(Get(data, "objectErrors"), Arr([]))))
  }

  /**
   * The response-error interceptor of `api`. With no response the error is
   * rethrown untouched. On 401 the access token is cleared (which throws a
   * TypeError once the session is already `null`); if a refresh token is
   * left, one refresh is made and, when it succeeds, the original request is
   * re-sent and its outcome, `retried`, is returned; a failed refresh
   * rejects with the refresh's own error. On 422 the validation errors are
   * lifted onto the error. Everything else is rethrown unchanged.
   */
  method OnResponseError(store: AuthStore, err: HttpError, reply: PostReply, retried: Settled<Response>)
    returns (r: Settled<Response>, sent: seq<Call>)
    modifies store
    ensures err.response.None? ==>
              r == Rejected(AxiosError(err)) && sent == [] && store.auth == old(store.auth)
    ensures err.response.Some? && err.response.value.status == 401 && old(store.auth).None? ==>
              r == Rejected(TypeError) && sent == [] && store.auth == None
    ensures err.response.Some? && err.response.value.status == 401 && old(store.auth).Some? ==>
              var cleared := Some(old(store.auth).value.(accessToken := None));
              && !Authenticated(cleared) && LoggedIn(cleared) == LoggedIn(old(store.auth))
              && (LoggedIn(cleared) ==>
                    && store.auth == AuthAfterRefresh(cleared, reply)
                    && (RefreshResult(reply).Fulfilled? ==>
                          r == retried && sent == [RefreshCall(cleared.value.refreshToken), Resend(err.config)])
                    && (RefreshResult(reply).Rejected? ==>
                          r == Rejected(RefreshResult(reply).reason) && sent == [RefreshCall(cleared.value.refreshToken)]))
              && (!LoggedIn(cleared) ==>
                    r == Rejected(AxiosError(err)) && sent == [] && store.auth == cleared)
    ensures err.response.Some? && err.response.value.status == 422 ==>
              r == Rejected(AxiosError(WithValidationErrors(err))) && sent == [] && store.auth == old(store.auth)
    ensures err.response.Some? && err.response.value.status != 401 && err.response.value.status != 422 ==>
              r == Rejected(AxiosError(err)) && sent == [] && store.auth == old(store.auth)
  {
    sent := [];
    if err.response.None? {
      r := Rejected(AxiosError(err));
      return;
    }
    var status := err.response.value.status;
    if status == 401 {
      if store.auth.None? {
        r := Rejected(TypeError);
        return;
      }
      store.ClearToken();
      if store.IsLogged() {
        var refreshed, call := Refresh(store, reply);
        sent := [call];
        if refreshed.Fulfilled? {
          sent := sent + [Resend(err.config)];
          r := retried;
        } else {
          r := Rejected(refreshed.reason);
        }
        return;
      }
    }
    if status == 422 {
      r := Rejected(AxiosError(WithValidationErrors(err)));
    } else {
      r := Rejected(AxiosError(err));
    }
  }
}
