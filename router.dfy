/**
 * The router's route table and its global `beforeEach` guard: a navigation
 * whose matched records require authentication is sent to the login route
 * unless the session holds an access token.
 */
module Router {
  import opened Wrappers
  import opened JsValue
  import opened Auth

  /** A route record; `meta` is `undefined` when the record declares none. */
  datatype RouteRecord = RouteRecord(name: string, path: string, meta: Json)

  /** The route table, in declaration order. */
  const Routes: seq<RouteRecord> := [
    RouteRecord("login", "/login", Undefined),
    RouteRecord("not-found", "/:pathMatch(.*)*", Obj([("authRequired", Bool(true))])),
    RouteRecord("bad-not-found", "/:pathMatch(.*)", Obj([("authRequired", Bool(true))]))
  ]

  /** `record?.meta?.authRequired`, read as a condition. */
  predicate AuthRequired(r: RouteRecord) {
    Truthy(Get(r.meta, "authRequired"))
  }

  /** `matched.some(record => record?.meta?.authRequired)` */
  function SomeRequiresAuth(matched: seq<RouteRecord>): (b: bool)
    ensures b <==> exists i :: 0 <= i < |matched| && AuthRequired(matched[i])
  {
    if matched == [] then false
    else AuthRequired(matched[0]) || SomeRequiresAuth(matched[1..])
  }

  /** The navigation target: its full path and the records it matched, outermost first. */
  datatype Target = Target(fullPath: string, matched: seq<RouteRecord>)

  /** What the guard passes to `next`: nothing, or a named route with a query. */
  datatype Navigation = Proceed | RedirectTo(name: string, query: map<string, string>)

  /**
   * The `beforeEach` guard given the session state: redirect to `login`,
   * remembering the target path, exactly when some matched record requires
   * authentication and no access token is held; otherwise proceed.
   */
  function BeforeEach(to: Target, auth: Option<AuthToken>): (nav: Navigation)
    ensures nav.RedirectTo? <==>
              (exists i :: 0 <= i < |to.matched| && AuthRequired(to.matched[i])) && !Authenticated(auth)
    ensures nav.RedirectTo? ==> nav == RedirectTo("login", map["redirect" := to.fullPath])
  {
    if SomeRequiresAuth(to.matched) then
      if !Authenticated(auth) then RedirectTo("login", map["redirect" := to.fullPath])
      else Proceed
    else Proceed
  }

  /** `/login` is public, while both catch-all records require authentication. */
  lemma RouteTableFlags()
    ensures Routes[0].name == "login" && !AuthRequired(Routes[0])
    ensures Routes[1].name == "not-found" && AuthRequired(Routes[1])
    ensures Routes[2].name == "bad-not-found" && AuthRequired(Routes[2])
  {
  }

  /** Navigating to the login route always proceeds, whatever the session holds. */
  lemma LoginAlwaysReachable(fullPath: string, auth: Option<AuthToken>)
    ensures BeforeEach(Target(fullPath, [Routes[0]]), auth) == Proceed
  {
  }

  /**
   * The guard asks for an access token, not for a refresh token: a session
   * that holds only a refresh token is redirected from a catch-all route.
   */
  lemma RefreshOnlySessionIsRedirected(fullPath: string, t: AuthToken)
    requires t.accessToken.None? && Present(t.refreshToken)
    ensures LoggedIn(Some(t))
    ensures BeforeEach(Target(fullPath, [Routes[1]]), Some(t)) == RedirectTo("login", map["redirect" := fullPath])
  {
    RouteTableFlags();
  }

  /** The guard never blocks an authenticated session. */
  lemma AuthenticatedAlwaysProceeds(to: Target, auth: Option<AuthToken>)
    requires Authenticated(auth)
    ensures BeforeEach(to, auth) == Proceed
  {
  }
}
