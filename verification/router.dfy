/** The route table and the navigation guard run before every navigation. */
module Router {
  import opened Outcomes
  import opened WebStorage

  /** One entry of the route table; `requiresAuth` is its `meta.requiresAuth`,
      false where the entry has no meta. */
  datatype RouteRecord = RouteRecord(path: string, name: string, requiresAuth: bool)

  const Routes: seq<RouteRecord> := [
    RouteRecord("/", "games", false),
    RouteRecord("/admin", "admin", true),
    RouteRecord("/login", "login", false),
    RouteRecord("/register", "register", false)
  ]

  /** A resolved location: `to` or `from` of a navigation. */
  datatype Location = Location(fullPath: string, name: Option<string>, matched: seq<RouteRecord>)

  /** What the guard passes to `next`: nothing, or a path to go to instead. */
  datatype Decision = Proceed | Redirect(target: string)

  /** The records of `records` whose path is `path`, in table order. */
  function Matching(records: seq<RouteRecord>, path: string): (r: seq<RouteRecord>)
    ensures forall x :: x in r <==> x in records && x.path == path
  {
    if |records| == 0 then []
    else if records[0].path == path then [records[0]] + Matching(records[1..], path)
    else Matching(records[1..], path)
  }

  /** The location the router resolves a path to, matching paths exactly. */
  function Resolve(path: string): (loc: Location)
    ensures loc.fullPath == path
    ensures forall x :: x in loc.matched <==> x in Routes && x.path == path
  {
    var matched := Matching(Routes, path);
    Location(path, if |matched| == 0 then None else Some(matched[0].name), matched)
  }

  /** `to.matched.some(record => record.meta.requiresAuth)`. */
  function SomeRequiresAuth(records: seq<RouteRecord>): (b: bool)
    ensures b <==> exists x :: x in records && x.requiresAuth
  {
    if |records| == 0 then false
    else records[0].requiresAuth || SomeRequiresAuth(records[1..])
  }

  /** `!!localStorage.getItem('token')`: an empty stored token does not count. */
  predicate IsAuthenticated(items: map<string, string>)
  {
    HasValue(items, TokenKey)
  }

  predicate IsAuthPage(to: Location)
  {
    to.name == Some("login") || to.name == Some("register")
  }

  /** The guard: protected destinations need a token, and a signed-in user is
      sent back from the login and register pages. */
  function Guard(items: map<string, string>, to: Location, from: Location): (d: Decision)
    ensures d.Redirect? ==> d.target == "/login" || d.target == from.fullPath
    ensures SomeRequiresAuth(to.matched) && !IsAuthenticated(items) ==> d == Redirect("/login")
    ensures !SomeRequiresAuth(to.matched) && !IsAuthPage(to) ==> d == Proceed
    ensures !IsAuthenticated(items) ==> d == Proceed || d == Redirect("/login")
  {
    var isAuthenticated := IsAuthenticated(items);
    var requiresAuth := SomeRequiresAuth(to.matched);
    if requiresAuth && !isAuthenticated then Redirect("/login")
    else if isAuthenticated && IsAuthPage(to) then Redirect(from.fullPath)
    else Proceed
  }

  /** In the route table, exactly the admin entry requires authentication. */
  lemma OnlyAdminRequiresAuth(path: string)
    ensures SomeRequiresAuth(Resolve(path).matched) <==> path == "/admin"
    ensures Resolve(path).name == Some("login") <==> path == "/login"
    ensures Resolve(path).name == Some("register") <==> path == "/register"
  {
    var m := Resolve(path).matched;
    if path == "/admin" {
      assert Routes[1] in m;
    }
    if m != [] {
      assert m[0] in m;
    }
  }

  /** A protected destination without a non-empty stored token goes to the login page. */
  lemma ProtectedNeedsToken(items: map<string, string>, to: Location, from: Location)
    requires SomeRequiresAuth(to.matched) && !IsAuthenticated(items)
    ensures Guard(items, to, from) == Redirect("/login")
  {
  }

  /** A stored empty token is no token. */
  lemma EmptyTokenIsUnauthenticated(items: map<string, string>, to: Location, from: Location)
    requires SomeRequiresAuth(to.matched)
    ensures Guard(items[TokenKey := ""], to, from) == Redirect("/login")
  {
  }

  /** A signed-in user asking for the login or register page is sent back where they came from. */
  lemma SignedInLeavesAuthPages(items: map<string, string>, to: Location, from: Location)
    requires IsAuthenticated(items) && IsAuthPage(to)
    ensures Guard(items, to, from) == Redirect(from.fullPath)
  {
  }

  /** The redirect back can itself be the login page: a signed-in user going
      from the login page to the register page is sent to `/login`. */
  lemma SignedInFromLoginToRegister(token: string)
    requires token != ""
    ensures Guard(map[TokenKey := token], Resolve("/register"), Resolve("/login")) == Redirect("/login")
  {
    GuardTable(map[TokenKey := token], "/register", Resolve("/login"));
  }

  /** The whole decision table over the route table. */
  lemma GuardTable(items: map<string, string>, path: string, from: Location)
    ensures Guard(items, Resolve(path), from) ==
      if path == "/admin" && !IsAuthenticated(items) then Redirect("/login")
      else if IsAuthenticated(items) && (path == "/login" || path == "/register") then Redirect(from.fullPath)
      else Proceed
  {
    OnlyAdminRequiresAuth(path);
  }

  /** Signed-out users reach the login and register pages, so the login page never redirects to itself. */
  lemma SignedOutReachesAuthPages(items: map<string, string>, path: string, from: Location)
    requires !IsAuthenticated(items)
    requires path == "/login" || path == "/register"
    ensures Guard(items, Resolve(path), from) == Proceed
  {
    GuardTable(items, path, from);
  }

  /** The home page is always reachable, and the admin page is reachable when signed in. */
  lemma OpenAndAdminPages(items: map<string, string>, from: Location)
    ensures Guard(items, Resolve("/"), from) == Proceed
    ensures IsAuthenticated(items) ==> Guard(items, Resolve("/admin"), from) == Proceed
  {
    GuardTable(items, "/", from);
    GuardTable(items, "/admin", from);
  }

  /** The decision depends on storage only through the stored token; in
      particular the cached `isLoggedIn` string is never consulted. */
  lemma GuardReadsOnlyToken(s1: map<string, string>, s2: map<string, string>, to: Location, from: Location)
    requires GetItem(s1, TokenKey) == GetItem(s2, TokenKey)
    ensures Guard(s1, to, from) == Guard(s2, to, from)
  {
  }

  lemma GuardIgnoresLoginFlag(items: map<string, string>, flag: string, to: Location, from: Location)
    ensures Guard(items[IsLoggedInKey := flag], to, from) == Guard(items, to, from)
  {
    GuardReadsOnlyToken(items[IsLoggedInKey := flag], items, to, from);
  }

  /** No redirect loop: a redirect either returns to the current location,
      or goes to the login page, where the follow-up navigation proceeds. */
  lemma RedirectSettles(items: map<string, string>, to: Location, from: Location)
    requires Guard(items, to, from).Redirect?
    ensures Guard(items, to, from).target == from.fullPath
         || (Guard(items, to, from).target == "/login" && Guard(items, Resolve("/login"), from) == Proceed)
  {
    if !IsAuthenticated(items) {
      SignedOutReachesAuthPages(items, "/login", from);
    }
  }

  /** A destination resolved from the table is never redirected to its own
      path, as long as the navigation really changes location. */
  lemma NoSelfRedirect(items: map<string, string>, path: string, from: Location)
    requires from.fullPath != path
    ensures Guard(items, Resolve(path), from) != Redirect(path)
  {
    GuardTable(items, path, from);
  }

  /** After logout the guard treats the user as signed out. */
  lemma ClearedSessionIsSignedOut(items: map<string, string>, to: Location, from: Location)
    requires SomeRequiresAuth(to.matched)
    ensures Guard(WithoutSession(items), to, from) == Redirect("/login")
  {
  }
}
