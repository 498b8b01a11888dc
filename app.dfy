/** The App component of src/App.js: the process-wide authentication flags,
    the one-shot session bootstrap, logout, the sidebar handlers and the
    render gate that shows nothing until the bootstrap has finished. */
module AppSession {
  import opened Runtime
  import Routes

  datatype AppState = AppState(isAuthenticated: bool, isAuthenticating: bool, sidebarVisible: bool)

  /** The state the constructor installs. */
  const Initial := AppState(false, true, false)

  /** The value `Auth.currentSession()` throws when nobody is signed in. */
  const NoCurrentUser := "No current user"

  /** userHasAuthenticated(b): set the authentication flag and nothing else. */
  function AfterAuthenticated(s: AppState, b: bool): (r: AppState)
    ensures r.isAuthenticated == b
    ensures r.isAuthenticating == s.isAuthenticating && r.sidebarVisible == s.sidebarVisible
  {
    s.(isAuthenticated := b)
  }

  /** Calling userHasAuthenticated twice with one value is calling it once. */
  lemma AuthenticateIdempotent(s: AppState, b: bool)
    ensures AfterAuthenticated(AfterAuthenticated(s, b), b) == AfterAuthenticated(s, b)
  {
  }

  /** componentDidMount: a truthy session authenticates, a falsy one changes
      nothing; a thrown value is alerted unless it is the string
      'No current user'; bootstrapping ends whatever happened. `session`
      carries the truthiness of the resolved session. */
  function AfterMount(s: AppState, session: Outcome<bool>): (r: Step<AppState>)
    ensures !r.state.isAuthenticating
    ensures r.state.isAuthenticated == (session == Resolved(true) || s.isAuthenticated)
    ensures r.state.sidebarVisible == s.sidebarVisible
    ensures Alerted(r.effects) <==> session.Rejected? && session.error != Text(NoCurrentUser)
    ensures r.effects == [Call(CurrentSession)]
      + (if session.Rejected? && session.error != Text(NoCurrentUser) then [AlertValue(session.error)] else [])
  {
    var asked := [Call(CurrentSession)];
    match session
    case Resolved(truthy) =>
      var signedIn := if truthy then AfterAuthenticated(s, true) else s;
      Step(signedIn.(isAuthenticating := false), asked)
    case Rejected(e) =>
      var shown := if e != Text(NoCurrentUser) then asked + [AlertValue(e)] else asked;
      assert e != Text(NoCurrentUser) ==> shown[1].AlertValue?;
      Step(s.(isAuthenticating := false), shown)
  }

  /** handleLogout: once `signOut` resolves, sign out locally, hide the
      sidebar and go to /login. There is no catch, so a rejected `signOut`
      leaves every field as it was and navigates nowhere. */
  function AfterLogout(s: AppState, signOut: Outcome<()>): (r: Step<AppState>)
    ensures signOut.Resolved? ==>
      && !r.state.isAuthenticated && !r.state.sidebarVisible
      && r.state.isAuthenticating == s.isAuthenticating
      && r.effects == [Call(SignOut), Push("/login")]
    ensures signOut.Rejected? ==> r.state == s && r.effects == [Call(SignOut)]
  {
    var asked := [Call(SignOut)];
    if signOut.Rejected? then Step(s, asked)
    else Step(AfterSidebarHide(AfterAuthenticated(s, false)), asked + [Push("/login")])
  }

  /** handleSidebarButtonClick negates `state.visible`, a key the state
      never has; `!undefined` is `true`, so the sidebar is always shown. */
  function AfterSidebarButtonClick(s: AppState): (r: AppState)
    ensures r.sidebarVisible
    ensures r.isAuthenticated == s.isAuthenticated && r.isAuthenticating == s.isAuthenticating
  {
    s.(sidebarVisible := true)
  }

  /** The button does not toggle: its result does not depend on whether the
      sidebar was already shown. */
  lemma SidebarButtonIgnoresVisibility(s: AppState)
    ensures AfterSidebarButtonClick(s) == AfterSidebarButtonClick(s.(sidebarVisible := !s.sidebarVisible))
    ensures s.sidebarVisible ==> AfterSidebarButtonClick(s) == s
  {
  }

  /** handleSidebarHide: the sidebar is hidden, nothing else changes. */
  function AfterSidebarHide(s: AppState): (r: AppState)
    ensures !r.sidebarVisible
    ensures r.isAuthenticated == s.isAuthenticated && r.isAuthenticating == s.isAuthenticating
  {
    s.(sidebarVisible := false)
  }

  /** The props every guarded route receives. */
  function ChildPropsOf(s: AppState): (p: Routes.ChildProps)
    ensures p.isAuthenticated == s.isAuthenticated
  {
    Routes.ChildProps(s.isAuthenticated)
  }

  /** The menu entries: Logout runs handleLogout; Signup and Login hide the
      sidebar and link to their routes. */
  datatype MenuItem = LogoutItem | SignupItem | LoginItem

  /** The path a menu entry links to, if it is a link. */
  function LinkOf(item: MenuItem): Option<string>
  {
    match item
    case LogoutItem => None
    case SignupItem => Some("/signup")
    case LoginItem => Some("/login")
  }

  /** What render draws once the bootstrap is over: the menu, whether the
      sidebar is shown, and the props handed to the route table. */
  datatype Page = Page(menu: seq<MenuItem>, sidebarVisible: bool, props: Routes.ChildProps)

  function MenuItems(isAuthenticated: bool): seq<MenuItem>
  {
    if isAuthenticated then [LogoutItem] else [SignupItem, LoginItem]
  }

  /** render: nothing at all while the session is being looked up. */
  function Render(s: AppState): (r: Option<Page>)
    ensures r.None? <==> s.isAuthenticating
    ensures r.Some? ==> r.value.props == ChildPropsOf(s) && r.value.sidebarVisible == s.sidebarVisible
    ensures r.Some? && s.isAuthenticated ==> r.value.menu == [LogoutItem]
    ensures r.Some? && !s.isAuthenticated ==> r.value.menu == [SignupItem, LoginItem]
    ensures r.Some? ==> (LogoutItem in r.value.menu <==> s.isAuthenticated)
  {
    if s.isAuthenticating then None
    else Some(Page(MenuItems(s.isAuthenticated), s.sidebarVisible, ChildPropsOf(s)))
  }

  /** What the content area shows at `path`: no view, guarded or not,
      before the bootstrap has finished; afterwards the route table's
      choice, rendered with the current `childProps`. */
  function Screen(s: AppState, path: string): (r: Option<Routes.Rendered>)
    ensures r.None? <==> s.isAuthenticating
    ensures r.Some? ==> r.value == Routes.Resolve(path, ChildPropsOf(s))
  {
    match Render(s)
    case None => None
    case Some(page) => Some(Routes.Resolve(path, page.props))
  }

  /** Each link the menu offers leads to its own view, never to a redirect
      or the not-found view: signed-out users see only Signup and Login,
      whose routes admit them. */
  lemma MenuLinksReachTheirViews(s: AppState, item: MenuItem)
    requires Render(s).Some? && item in Render(s).value.menu && LinkOf(item).Some?
    ensures Screen(s, LinkOf(item).value) ==
      Some(Routes.Show(if item == SignupItem then Routes.SignupView else Routes.LoginView, Some(ChildPropsOf(s))))
  {
  }

  /** The App's handlers, as events. */
  datatype Event =
    | Mount(session: Outcome<bool>)
    | Authenticate(flag: bool)
    | Logout(signOut: Outcome<()>)
    | SidebarButtonClick
    | SidebarHide

  function Apply(s: AppState, ev: Event): Step<AppState>
  {
    match ev
    case Mount(session) => AfterMount(s, session)
    case Authenticate(b) => Step(AfterAuthenticated(s, b), [])
    case Logout(signOut) => AfterLogout(s, signOut)
    case SidebarButtonClick => Step(AfterSidebarButtonClick(s), [])
    case SidebarHide => Step(AfterSidebarHide(s), [])
  }

  /** The state and effects after handling `evs` in order. */
  function Replay(s: AppState, evs: seq<Event>): Step<AppState>
    decreases |evs|
  {
    if evs == [] then Step(s, [])
    else
      var before := Replay(s, evs[..|evs| - 1]);
      var last := Apply(before.state, evs[|evs| - 1]);
      Step(last.state, before.effects + last.effects)
  }

  /** `isAuthenticating` goes from true to false once: no handler sets it
      back, so once the bootstrap is over the page stays rendered. */
  lemma {:induction false} BootstrapEndsForGood(s: AppState, evs: seq<Event>)
    requires !s.isAuthenticating
    ensures !Replay(s, evs).state.isAuthenticating
    ensures Render(Replay(s, evs).state).Some?
  {
    if evs != [] {
      BootstrapEndsForGood(s, evs[..|evs| - 1]);
    }
  }

  /** Before the mount, nothing renders: from the initial state, handlers
      other than the mount leave `isAuthenticating` true, so the page and
      every route stay blank until the session lookup has settled. */
  lemma {:induction false} NothingRendersBeforeMount(evs: seq<Event>)
    requires forall k :: 0 <= k < |evs| ==> !evs[k].Mount?
    ensures Replay(Initial, evs).state.isAuthenticating
    ensures Render(Replay(Initial, evs).state).None?
  {
    if evs != [] {
      NothingRendersBeforeMount(evs[..|evs| - 1]);
    }
  }

  /** After the mount on application start, `isAuthenticating` is false
      whatever the session lookup and every later handler did. */
  lemma {:induction false} MountedAppStaysMounted(session: Outcome<bool>, evs: seq<Event>)
    ensures !Replay(Initial, [Mount(session)] + evs).state.isAuthenticating
  {
    if evs == [] {
      assert Replay(Initial, [Mount(session)]).state == AfterMount(Replay(Initial, []).state, session).state;
    } else {
      var all := [Mount(session)] + evs;
      assert all[..|all| - 1] == [Mount(session)] + evs[..|evs| - 1];
      MountedAppStaysMounted(session, evs[..|evs| - 1]);
    }
  }

  /** The App component: its three state fields and its handlers, each run
      as one sequential transaction. `env` takes the alerts, history pushes
      and identity-provider calls. */
  class App {
    const env: Environment
    var isAuthenticated: bool
    var isAuthenticating: bool
    var sidebarVisible: bool

    function State(): AppState
      reads this
    {
      AppState(isAuthenticated, isAuthenticating, sidebarVisible)
    }

    constructor (env: Environment)
      ensures this.env == env
      ensures !isAuthenticated && isAuthenticating && !sidebarVisible
      ensures State() == Initial
    {
      this.env := env;
      isAuthenticated := false;
      isAuthenticating := true;
      sidebarVisible := false;
    }

    method HandleSidebarButtonClick()
      modifies this
      ensures State() == AfterSidebarButtonClick(old(State()))
    {
      sidebarVisible := true;
    }

    method HandleSidebarHide()
      modifies this
      ensures State() == AfterSidebarHide(old(State()))
    {
      sidebarVisible := false;
    }

    method ComponentDidMount(session: Outcome<bool>)
      modifies this, env
      ensures State() == AfterMount(old(State()), session).state
      ensures env.effects == old(env.effects) + AfterMount(old(State()), session).effects
    {
      env.effects := env.effects + [Call(CurrentSession)];
      match session {
        case Resolved(truthy) =>
          if truthy {
            UserHasAuthenticated(true);
          }
        case Rejected(e) =>
          if e != Text(NoCurrentUser) {
            env.effects := env.effects + [AlertValue(e)];
          }
      }
      isAuthenticating := false;
    }

    method UserHasAuthenticated(b: bool)
      modifies this
      ensures State() == AfterAuthenticated(old(State()), b)
      ensures isAuthenticated == b && isAuthenticating == old(isAuthenticating)
      ensures sidebarVisible == old(sidebarVisible)
    {
      isAuthenticated := b;
    }

    method HandleLogout(signOut: Outcome<()>)
      modifies this, env
      ensures State() == AfterLogout(old(State()), signOut).state
      ensures env.effects == old(env.effects) + AfterLogout(old(State()), signOut).effects
    {
      env.effects := env.effects + [Call(SignOut)];
      if signOut.Rejected? {
        return;
      }
      UserHasAuthenticated(false);
      HandleSidebarHide();
      env.effects := env.effects + [Push("/login")];
    }
  }
}
