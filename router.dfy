/** The route table and the navigation guard of src/router/index.js. Route
    matching by path belongs to the router library: the guard is given the
    records a navigation matched. The current user comes from the
    authentication store and is a parameter. */
module Router {
  import opened JsValues

  datatype RouteRecord = RouteRecord(path: string, name: string, meta: Entries)

  function Meta(title: string): Entries
  {
    [("title", Str(title))]
  }

  function AuthMeta(requiresAuth: bool, title: string): Entries
  {
    [("requiresAuth", Bool(requiresAuth)), ("title", Str(title))]
  }

  /** The application's routes, in declaration order. */
  const ROUTES: seq<RouteRecord> := [
    RouteRecord("/", "home", Meta("Home")),
    RouteRecord("/request/create", "request-create", Meta("Novo Pedidos")),
    RouteRecord("/request/:id/update", "request-update", Meta("Editar Pedidos")),
    RouteRecord("/request/:code/success", "request-success", Meta("Confirmação")),
    RouteRecord("/request/:id/result", "request-result", Meta("Confirmação")),
    RouteRecord("/requests", "requests", AuthMeta(true, "Pedidos")),
    RouteRecord("/request/:id/details", "request-datails", AuthMeta(true, "Detalhes do pedido")),
    RouteRecord("/semesters", "semesters", AuthMeta(true, "Semestres")),
    RouteRecord("/semester", "semester-create", AuthMeta(true, "Semestres")),
    RouteRecord("/semester/:id", "semester-update", AuthMeta(true, "Semestres")),
    RouteRecord("/coordinators", "coordinators", AuthMeta(true, "Coordenadores")),
    RouteRecord("/coordinator", "coordinator-create", AuthMeta(true, "Coordenadores")),
    RouteRecord("/coordinator/:id", "coordinator-update", AuthMeta(true, "Coordenadores")),
    RouteRecord("/login", "login", AuthMeta(false, "Login"))
  ]

  /** The routes only a signed-in user may open. */
  const GUARDED: set<string> := {
    "requests", "request-datails", "semesters", "semester-create", "semester-update",
    "coordinators", "coordinator-create", "coordinator-update" }

  /** `to.meta`: the metas of the matched records merged from the outermost
      to the innermost, later ones overriding earlier ones. */
  function MergedMeta(matched: seq<RouteRecord>): Entries
  {
    if matched == [] then [] else Assign(MergedMeta(matched[..|matched| - 1]), matched[|matched| - 1].meta)
  }

  /** `to.matched.some(record => record.meta[flag])`, scanning from the front. */
  function SomeMatched(matched: seq<RouteRecord>, flag: string): (r: bool)
    ensures r <==> exists i :: 0 <= i < |matched| && Truthy(Get(matched[i].meta, flag))
  {
    if matched == [] then false
    else if Truthy(Get(matched[0].meta, flag)) then true
    else
      var rest := SomeMatched(matched[1..], flag);
      assert forall i :: 1 <= i < |matched| ==> matched[i] == matched[1..][i - 1];
      rest
  }

  datatype Navigation = Proceed | Redirect(name: string)

  /** The guard run before every navigation: a route that requires
      authentication sends an anonymous visitor to `login`; otherwise a route
      for guests sends a signed-in user to `request`; otherwise navigation
      proceeds. `currentUser` is what the authentication store resolved. */
  function Guard(matched: seq<RouteRecord>, currentUser: Value): (r: Navigation)
    ensures r == Redirect("login") <==> SomeMatched(matched, "requiresAuth") && !Truthy(currentUser)
    ensures r == Redirect("request") <==> SomeMatched(matched, "requiresGuest") && Truthy(currentUser)
    ensures r.Redirect? ==> r.name in {"login", "request"}
  {
    var requiresAuth := SomeMatched(matched, "requiresAuth");
    var requiresGuest := SomeMatched(matched, "requiresGuest");
    var isAuthenticated := Truthy(currentUser);
    if requiresAuth && !isAuthenticated then Redirect("login")
    else if requiresGuest && isAuthenticated then Redirect("request")
    else Proceed
  }

  /** `document.title`, set before the guard decides. */
  function DocumentTitle(matched: seq<RouteRecord>): (r: string)
    ensures |r| >= 5 && r[|r| - 5..] == " - FF"
  {
    Display(Get(MergedMeta(matched), "title")) + " - FF"
  }

  /** No route of the table is for guests only. */
  lemma NoGuestRoutes()
    ensures forall i :: 0 <= i < |ROUTES| ==> !Truthy(Get(ROUTES[i].meta, "requiresGuest"))
  {
  }

  /** A route of the table requires authentication exactly when it is one of
      the eight guarded ones. */
  lemma GuardedRoutes()
    ensures forall i :: 0 <= i < |ROUTES| ==>
      (Truthy(Get(ROUTES[i].meta, "requiresAuth")) <==> ROUTES[i].name in GUARDED)
  {
  }

  /** For a navigation to one route of the table: an anonymous visitor is sent
      to `login` exactly for the guarded routes, a signed-in user always
      proceeds, and opening `login` itself never redirects. */
  lemma GuardOnTable(i: int, currentUser: Value)
    requires 0 <= i < |ROUTES|
    ensures Truthy(currentUser) ==> Guard([ROUTES[i]], currentUser) == Proceed
    ensures !Truthy(currentUser) ==>
      (Guard([ROUTES[i]], currentUser) == Redirect("login") <==> ROUTES[i].name in GUARDED)
    ensures ROUTES[i].name == "login" ==> Guard([ROUTES[i]], currentUser) == Proceed
  {
    NoGuestRoutes();
    GuardedRoutes();
    assert [ROUTES[i]][0] == ROUTES[i];
  }

  /** A navigation that matched nothing is never redirected, and its title
      reads "undefined - FF". */
  lemma UnmatchedNavigation(currentUser: Value)
    ensures Guard([], currentUser) == Proceed
    ensures DocumentTitle([]) == "undefined - FF"
  {
  }

  /** The title of a navigation to one route of the table is its own title. */
  lemma TitleOnTable(i: int)
    requires 0 <= i < |ROUTES|
    ensures DocumentTitle([ROUTES[i]]) == Display(Get(ROUTES[i].meta, "title")) + " - FF"
  {
    var m := ROUTES[i].meta;
    assert [ROUTES[i]][..0] == [];
    assert MergedMeta([ROUTES[i]]) == Assign([], m);
    assert "title" in Keys(m) by {
      assert m[|m| - 1].0 == "title";
      assert Keys(m)[|m| - 1] == "title";
    }
    GetAssign([], m, "title");
  }
}
