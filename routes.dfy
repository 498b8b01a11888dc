/** The route table of src/Routes.js: a `Switch` that tries its routes in
    order and renders the first whose path matches exactly, ending with a
    catch-all that renders the not-found view. */
module Routes {
  import opened Runtime

  /** The two route wrappers: `AppliedRoute` renders its component with the
      given props; `UnauthenticatedRoute` does so only for a signed-out user. */
  datatype Policy = Applied | Unauthenticated

  datatype Component = HomeView | LoginView | SignupView | NotFoundView

  /** What App passes down as `childProps`. Its `userHasAuthenticated`
      member is App's own mutator; the views that call it hold a reference
      to their App object instead. */
  datatype ChildProps = ChildProps(isAuthenticated: bool)

  /** One route of the `Switch`: an exact path (`None` for the catch-all),
      its wrapper (`None` for a plain `Route`) and its component. */
  datatype Route = Route(path: Option<string>, policy: Option<Policy>, component: Component)

  const Table: seq<Route> := [
    Route(Some("/"), Some(Applied), HomeView),
    Route(Some("/login"), Some(Unauthenticated), LoginView),
    Route(Some("/signup"), Some(Unauthenticated), SignupView),
    Route(None, None, NotFoundView)
  ]

  /** An `exact` route matches only its own path; a route without a path
      matches every path. */
  predicate Matches(route: Route, path: string)
  {
    route.path.None? || route.path.value == path
  }

  /** The index of the first route of `table` that matches `path`. */
  function FirstMatch(table: seq<Route>, path: string): (r: Option<nat>)
    ensures r.Some? ==> r.value < |table| && Matches(table[r.value], path)
    ensures r.Some? ==> forall j :: 0 <= j < r.value ==> !Matches(table[j], path)
    ensures r.None? ==> forall j :: 0 <= j < |table| ==> !Matches(table[j], path)
  {
    if table == [] then None
    else if Matches(table[0], path) then Some(0)
    else match FirstMatch(table[1..], path)
      case None => None
      case Some(i) => Some(i + 1)
  }

  /** A table whose last route is a catch-all resolves every path. */
  lemma {:induction false} CatchAllMakesLookupTotal(table: seq<Route>, path: string)
    requires |table| > 0 && table[|table| - 1].path.None?
    ensures FirstMatch(table, path).Some?
  {
    assert Matches(table[|table| - 1], path);
  }

  /** The route the `Switch` picks for `path`. */
  function Switch(path: string): (r: Route)
    ensures exists i :: (0 <= i < |Table| && Table[i] == r && Matches(r, path)
                         && forall j :: 0 <= j < i ==> !Matches(Table[j], path))
    ensures path == "/" ==> r == Route(Some("/"), Some(Applied), HomeView)
    ensures path == "/login" ==> r == Route(Some("/login"), Some(Unauthenticated), LoginView)
    ensures path == "/signup" ==> r == Route(Some("/signup"), Some(Unauthenticated), SignupView)
    ensures path != "/" && path != "/login" && path != "/signup" ==> r == Route(None, None, NotFoundView)
  {
    CatchAllMakesLookupTotal(Table, path);
    var i := FirstMatch(Table, path).value;
    // Table[i] is the witness of the first ensures.
    assert Matches(Table[i], path);
    Table[i]
  }

  /** What a route renders. */
  datatype Rendered =
    | Show(component: Component, props: Option<ChildProps>)
    | Redirect(to: string)

  /** The wrapper's decision. `UnauthenticatedRoute` redirects a signed-in
      user home, where Login's own navigation used to go; the catch-all
      `Route` is given no `childProps`. */
  function Guard(route: Route, props: ChildProps): (r: Rendered)
    ensures r.Redirect? <==> route.policy == Some(Unauthenticated) && props.isAuthenticated
    ensures r.Redirect? ==> r.to == "/"
    ensures r.Show? ==> r.component == route.component
    ensures r.Show? ==> (r.props.Some? <==> route.policy.Some?)
    ensures r.Show? && r.props.Some? ==> r.props.value == props
  {
    match route.policy
    case None => Show(route.component, None)
    case Some(Applied) => Show(route.component, Some(props))
    case Some(Unauthenticated) =>
      if props.isAuthenticated then Redirect("/") else Show(route.component, Some(props))
  }

  /** Rendering `path` through the table with App's `childProps`. */
  function Resolve(path: string, props: ChildProps): (r: Rendered)
    ensures path == "/" ==> r == Show(HomeView, Some(props))
    ensures path == "/login" ==>
      r == if props.isAuthenticated then Redirect("/") else Show(LoginView, Some(props))
    ensures path == "/signup" ==>
      r == if props.isAuthenticated then Redirect("/") else Show(SignupView, Some(props))
    ensures path != "/" && path != "/login" && path != "/signup" ==> r == Show(NotFoundView, None)
    ensures r.Show? && r.props.Some? ==> r.props.value == props
    ensures r.Redirect? ==> r.to == "/" && props.isAuthenticated
  {
    Guard(Switch(path), props)
  }
}
