/**
 * The application's route table and the navigation guard that sends an
 * unauthenticated visitor of a protected route back to the login page.
 */
module Router {
  import opened Options

  /**
   * A route record: its path, its name, its `meta.requiresAuth` flag when
   * the record sets one, and its child records.
   */
  datatype RouteRecord = RouteRecord(
    path: string,
    name: string,
    requiresAuth: Option<bool>,
    children: seq<RouteRecord>)

  const LoginPath := "/"

  const LoginRoute := RouteRecord(LoginPath, "login", None, [])

  const DashboardRoute := RouteRecord("/dashboard", "Dashboard", Some(true), [
    RouteRecord("/dashboard", "dashboard", None, []),
    RouteRecord("/add-smartphone", "add-smartphone", None, []),
    RouteRecord("/cpu-manage", "cpu-manage", None, []),
    RouteRecord("/rate-manage", "rate-manage", None, [])
  ])

  /** The route table: the public login page and the protected dashboard layout. */
  const Routes := [LoginRoute, DashboardRoute]

  /** Whether some record in the forest `rs` (at any depth) has path `path`. */
  predicate Declares(rs: seq<RouteRecord>, path: string)
    decreases rs
  {
    if rs == [] then false
    else rs[0].path == path || Declares(rs[0].children, path) || Declares(rs[1..], path)
  }

  /** Whether `chain` is a path of records from a member of `rs` down to a record with `path`. */
  predicate IsChain(chain: seq<RouteRecord>, rs: seq<RouteRecord>, path: string) {
    && chain != []
    && chain[0] in rs
    && chain[|chain| - 1].path == path
    && forall i :: 0 <= i < |chain| - 1 ==> chain[i + 1] in chain[i].children
  }

  /**
   * The matched records of a navigation to `path`: the chain from a
   * top-level record to the record with that path, children searched before
   * their parent and records in table order; empty when no record matches.
   */
  function Resolve(rs: seq<RouteRecord>, path: string): (chain: seq<RouteRecord>)
    decreases rs
    ensures chain != [] <==> Declares(rs, path)
    ensures chain != [] ==> IsChain(chain, rs, path)
  {
    if rs == [] then []
    else
      var inner := Resolve(rs[0].children, path);
      if inner != [] then [rs[0]] + inner
      else if rs[0].path == path then [rs[0]]
      else Resolve(rs[1..], path)
  }

  /** `record.meta.requiresAuth` read for truthiness. */
  predicate RequiresAuth(r: RouteRecord) {
    r.requiresAuth == Some(true)
  }

  /** `to.matched.some(record => record.meta.requiresAuth)`. */
  function SomeRequiresAuth(matched: seq<RouteRecord>): (b: bool)
    ensures b <==> exists i :: 0 <= i < |matched| && RequiresAuth(matched[i])
  {
    if matched == [] then false
    else RequiresAuth(matched[0]) || SomeRequiresAuth(matched[1..])
  }

  /** The stored token read for truthiness: present and not the empty string. */
  predicate Authenticated(token: Option<string>) {
    token.Some? && token.value != ""
  }

  /** The single `next` call the guard makes: `next('/')` or `next()`. */
  datatype Navigation = Redirect(target: string) | Proceed

  /**
   * The `beforeEach` guard: redirect to the login path exactly when a
   * matched record requires authentication and no truthy token is stored.
   */
  function Guard(matched: seq<RouteRecord>, token: Option<string>): (n: Navigation)
    ensures n == Redirect(LoginPath) || n == Proceed
    ensures n.Redirect? <==>
      (exists i :: 0 <= i < |matched| && RequiresAuth(matched[i])) && (token == None || token == Some(""))
  {
    if SomeRequiresAuth(matched) && !Authenticated(token) then Redirect(LoginPath) else Proceed
  }

  /** Without a truthy token, a navigation to a protected record is sent to login. */
  lemma RedirectsWithoutToken(matched: seq<RouteRecord>, token: Option<string>, k: nat)
    requires k < |matched| && RequiresAuth(matched[k])
    requires token == None || token == Some("")
    ensures Guard(matched, token) == Redirect("/")
  {
  }

  /** With a non-empty token, every navigation proceeds. */
  lemma ProceedsWithToken(matched: seq<RouteRecord>, token: string)
    requires token != ""
    ensures Guard(matched, Some(token)) == Proceed
  {
  }

  /** When no matched record requires authentication, the token is irrelevant. */
  lemma ProceedsWhenPublic(matched: seq<RouteRecord>, token: Option<string>)
    requires forall i :: 0 <= i < |matched| ==> !RequiresAuth(matched[i])
    ensures Guard(matched, token) == Proceed
  {
  }

  /** An empty stored token behaves exactly as having no token at all. */
  lemma EmptyTokenIsNoToken(matched: seq<RouteRecord>)
    ensures Guard(matched, Some("")) == Guard(matched, None)
  {
  }

  /** The login path resolves to the login record alone, which is public. */
  lemma LoginResolvesPublic()
    ensures Resolve(Routes, LoginPath) == [LoginRoute]
    ensures !SomeRequiresAuth(Resolve(Routes, LoginPath))
  {
    assert Resolve(LoginRoute.children, LoginPath) == [];
  }

  /**
   * `/dashboard` names both the layout record and its first child; the
   * matched chain holds the parent followed by that child.
   */
  lemma DashboardResolvesToParentAndChild()
    ensures Resolve(Routes, "/dashboard") == [DashboardRoute, DashboardRoute.children[0]]
  {
    assert Resolve(DashboardRoute.children, "/dashboard") == [DashboardRoute.children[0]] by {
      assert Resolve(DashboardRoute.children[0].children, "/dashboard") == [];
    }
    assert Resolve(Routes[1..], "/dashboard") == [DashboardRoute, DashboardRoute.children[0]] by {
      assert Routes[1..][0] == DashboardRoute;
    }
  }

  /** Following the guard's redirect always proceeds, so no redirect loop arises. */
  lemma NoRedirectLoop(matched: seq<RouteRecord>, token: Option<string>)
    ensures Guard(matched, token).Redirect? ==>
      Guard(Resolve(Routes, Guard(matched, token).target), token) == Proceed
  {
    LoginResolvesPublic();
  }

  /**
   * Every path of the table other than login resolves to a chain headed by
   * the dashboard layout, so it redirects unless a truthy token is stored.
   */
  lemma {:induction false} NonLoginPathsProtected(path: string, token: Option<string>)
    requires path != LoginPath && Declares(Routes, path)
    ensures Resolve(Routes, path)[0] == DashboardRoute
    ensures Guard(Resolve(Routes, path), token) == (if Authenticated(token) then Proceed else Redirect("/"))
  {
    var chain := Resolve(Routes, path);
    assert chain[0] in Routes;
    assert chain[0] != LoginRoute by {
      if |chain| > 1 {
        assert chain[1] in chain[0].children;
      }
    }
  }

  /** Each child route of the dashboard layout is protected by its parent's flag. */
  lemma DashboardChildrenProtected(k: nat, token: Option<string>)
    requires k < |DashboardRoute.children|
    requires !Authenticated(token)
    ensures Guard(Resolve(Routes, DashboardRoute.children[k].path), token) == Redirect("/")
  {
    var child := DashboardRoute.children[k];
    assert Declares(DashboardRoute.children, child.path);
    assert Declares(Routes, child.path) by {
      assert Routes[1..] == [DashboardRoute];
    }
    NonLoginPathsProtected(child.path, token);
  }
}
