/** The Login view of src/containers/auth/Login.js: an email and password
    form whose submit signs in and tells App, leaving the move away from
    /login to the route guard. */
module LoginFlow {
  import opened Runtime
  import AppSession
  import Routes

  datatype LoginState = LoginState(isLoading: bool, email: string, password: string)

  /** The state the constructor installs. */
  const Initial := LoginState(false, "", "")

  /** The ids of the form's inputs. */
  datatype Field = Email | Password

  /** validateForm: both fields are filled in, that is, a sign-in with
      them would carry no empty credential. */
  predicate ValidateForm(s: LoginState): (ok: bool)
    ensures ok <==> FilledIn(Call(SignIn(s.email, s.password)))
  {
    |s.email| > 0 && |s.password| > 0
  }

  /** What render passes to the submit button. */
  datatype Form = Form(submitDisabled: bool, isLoading: bool)

  /** render: the button is disabled exactly when a field is empty. */
  function Render(s: LoginState): (r: Form)
    ensures r.submitDisabled <==> s.email == "" || s.password == ""
    ensures r.isLoading == s.isLoading
  {
    Form(!ValidateForm(s), s.isLoading)
  }

  /** handleChange: the input named by the event's id takes the new value. */
  function Change(s: LoginState, field: Field, value: string): (r: LoginState)
    ensures r.isLoading == s.isLoading
    ensures r.email == (if field == Email then value else s.email)
    ensures r.password == (if field == Password then value else s.password)
  {
    match field
    case Email => s.(email := value)
    case Password => s.(password := value)
  }

  /** handleSubmit: mark loading, then sign in with the form's fields. On
      success App is told the user is authenticated and loading stays on
      (the route guard moves the user away); on failure the message is
      alerted, loading ends and App is not told. */
  function Submit(s: LoginState, signIn: Outcome<()>): (r: Step<LoginState>)
    ensures r.state.email == s.email && r.state.password == s.password
    ensures r.state.isLoading <==> signIn.Resolved?
    ensures signIn.Resolved? ==> r.effects == [Call(SignIn(s.email, s.password)), Notify(true)]
    ensures signIn.Rejected? ==>
      r.effects == [Call(SignIn(s.email, s.password)), AlertMessage(MessageOf(signIn.error))]
    ensures Notify(true) in r.effects <==> signIn.Resolved?
    ensures forall k :: 0 <= k < |r.effects| ==> !r.effects[k].Push?
  {
    var pending := s.(isLoading := true);
    var asked := [Call(SignIn(pending.email, pending.password))];
    match signIn
    case Resolved(_) => Step(pending, asked + [Notify(true)])
    case Rejected(e) => Step(pending.(isLoading := false), asked + [AlertMessage(MessageOf(e))])
  }

  /** A signed-in Login leaves /login through the route guard: once App has
      handled the callback, the page at /login is a redirect home. */
  lemma SignedInUserIsSentHome(app: AppSession.AppState, s: LoginState)
    requires !app.isAuthenticating
    ensures Notify(true) in Submit(s, Resolved(())).effects
    ensures AppSession.Screen(AppSession.AfterAuthenticated(app, true), "/login") == Some(Routes.Redirect("/"))
  {
  }

  /** The interactions the rendered form allows. */
  datatype Event = Edit(field: Field, value: string) | SubmitForm(signIn: Outcome<()>)

  /** The button is the only way to submit, and it is enabled only when
      the form is valid. */
  predicate Enabled(s: LoginState, ev: Event)
  {
    ev.SubmitForm? ==> !Render(s).submitDisabled
  }

  function Apply(s: LoginState, ev: Event): Step<LoginState>
  {
    match ev
    case Edit(field, value) => Step(Change(s, field, value), [])
    case SubmitForm(signIn) => Submit(s, signIn)
  }

  /** The state and effects after handling `evs` in order. */
  function Replay(s: LoginState, evs: seq<Event>): Step<LoginState>
    decreases |evs|
  {
    if evs == [] then Step(s, [])
    else
      var before := Replay(s, evs[..|evs| - 1]);
      var last := Apply(before.state, evs[|evs| - 1]);
      Step(last.state, before.effects + last.effects)
  }

  /** Every event of `evs` is one the form allows when it happens. */
  predicate EnabledTrace(s: LoginState, evs: seq<Event>)
    decreases |evs|
  {
    evs == [] ||
    (EnabledTrace(s, evs[..|evs| - 1]) && Enabled(Replay(s, evs[..|evs| - 1]).state, evs[|evs| - 1]))
  }

  /** Through the form, the identity provider is never asked to sign in
      with an empty field: empty fields are caught before any remote call. */
  lemma {:induction false} SignInsCarryCredentials(s: LoginState, evs: seq<Event>)
    requires EnabledTrace(s, evs)
    ensures RequestsFilledIn(Replay(s, evs).effects)
  {
    if evs != [] {
      var prefix := evs[..|evs| - 1];
      SignInsCarryCredentials(s, prefix);
      var before := Replay(s, prefix);
      var last := Apply(before.state, evs[|evs| - 1]);
      assert RequestsFilledIn(last.effects);
      FilledInAppend(before.effects, last.effects);
    }
  }

  /** App is told of a sign-in exactly when some submit's sign-in resolved. */
  lemma {:induction false} NotifiesOnlyAfterSignIn(s: LoginState, evs: seq<Event>)
    ensures Notify(true) in Replay(s, evs).effects
      <==> exists k :: 0 <= k < |evs| && evs[k].SubmitForm? && evs[k].signIn.Resolved?
  {
    if evs != [] {
      var prefix := evs[..|evs| - 1];
      NotifiesOnlyAfterSignIn(s, prefix);
      var before := Replay(s, prefix);
      var ev := evs[|evs| - 1];
      var last := Apply(before.state, ev);
      assert Replay(s, evs).effects == before.effects + last.effects;
      assert Notify(true) in last.effects <==> ev.SubmitForm? && ev.signIn.Resolved?;
      if ev.SubmitForm? && ev.signIn.Resolved? {
        // The last event is then the witness on the right-hand side.
        var k := |evs| - 1;
        assert evs[k].SubmitForm? && evs[k].signIn.Resolved?;
      }
      assert forall k :: 0 <= k < |prefix| ==> prefix[k] == evs[k];
    }
  }

  /** The Login component. `app` is the App whose `userHasAuthenticated`
      arrives through `childProps`; alerts and remote calls go to its
      environment. */
  class Login {
    const app: AppSession.App
    var isLoading: bool
    var email: string
    var password: string

    function State(): LoginState
      reads this
    {
      LoginState(isLoading, email, password)
    }

    constructor (app: AppSession.App)
      ensures this.app == app
      ensures !isLoading && email == "" && password == ""
      ensures State() == Initial
    {
      this.app := app;
      isLoading := false;
      email := "";
      password := "";
    }

    method HandleChange(field: Field, value: string)
      modifies this
      ensures State() == Change(old(State()), field, value)
    {
      match field {
        case Email => email := value;
        case Password => password := value;
      }
    }

    method HandleSubmit(signIn: Outcome<()>)
      modifies this, app, app.env
      ensures State() == Submit(old(State()), signIn).state
      ensures app.env.effects == old(app.env.effects) + Submit(old(State()), signIn).effects
      ensures app.State() ==
        if signIn.Resolved? then AppSession.AfterAuthenticated(old(app.State()), true) else old(app.State())
    {
      isLoading := true;
      app.env.effects := app.env.effects + [Call(SignIn(email, password))];
      match signIn {
        case Resolved(_) =>
          app.env.effects := app.env.effects + [Notify(true)];
          app.UserHasAuthenticated(true);
        case Rejected(e) =>
          app.env.effects := app.env.effects + [AlertMessage(MessageOf(e))];
          isLoading := false;
      }
    }
  }
}
