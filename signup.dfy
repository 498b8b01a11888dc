/** The Signup view of src/containers/auth/Signup.js: a two-phase form.
    The registration form signs up and stores the pending user; from then
    on the confirmation form is shown, whose submit confirms the code,
    signs in with the registered email and password, tells App and goes
    home. Nothing sets the pending user back to null. */
module SignupFlow {
  import opened Runtime
  import AppSession

  /** What a successful `signUp` resolves with, kept as `newUser`. */
  datatype PendingUser = PendingUser(userSub: string)

  datatype SignupState = SignupState(
    isLoading: bool,
    email: string,
    password: string,
    confirmPassword: string,
    confirmationCode: string,
    newUser: Option<PendingUser>)

  /** The state the constructor installs. */
  const Initial := SignupState(false, "", "", "", "", None)

  /** The ids of the inputs of both forms. */
  datatype Field = Email | Password | ConfirmPassword | ConfirmationCode

  /** validateForm: email and password filled in, so a sign-up with them
      carries no empty credential, and the password confirmed. */
  predicate ValidateForm(s: SignupState): (ok: bool)
    ensures ok <==> FilledIn(Call(SignUp(s.email, s.password))) && s.confirmPassword == s.password
  {
    |s.email| > 0 && |s.password| > 0 && s.password == s.confirmPassword
  }

  /** validateConfirmationForm: a code has been typed, whatever the other
      fields hold. When it fails, a confirmation would be sent with an
      empty code; when it holds, one sent for a non-empty user name is
      filled in. */
  predicate ValidateConfirmationForm(s: SignupState): (ok: bool)
    ensures ok <==> s.confirmationCode != ""
    ensures !ok ==> !FilledIn(Call(ConfirmSignUp(s.email, s.confirmationCode)))
    ensures ok && s.email != "" ==> FilledIn(Call(ConfirmSignUp(s.email, s.confirmationCode)))
  {
    |s.confirmationCode| > 0
  }

  /** The signup phases, derived from `newUser`. */
  datatype Phase = RegistrationPending | ConfirmationPending

  function PhaseOf(s: SignupState): Phase
  {
    if s.newUser.None? then RegistrationPending else ConfirmationPending
  }

  /** The form render shows and the state of its submit button. */
  datatype Form =
    | RegistrationForm(submitDisabled: bool, isLoading: bool)
    | ConfirmationForm(submitDisabled: bool, isLoading: bool)

  /** render: the registration form while `newUser` is null, the
      confirmation form afterwards; each button is disabled exactly when
      its form's validator fails. */
  function Render(s: SignupState): (r: Form)
    ensures r.RegistrationForm? <==> s.newUser.None?
    ensures r.RegistrationForm? <==> PhaseOf(s) == RegistrationPending
    ensures r.RegistrationForm? ==>
      (r.submitDisabled <==> s.email == "" || s.password == "" || s.password != s.confirmPassword)
    ensures r.ConfirmationForm? ==> (r.submitDisabled <==> s.confirmationCode == "")
    ensures r.isLoading == s.isLoading
  {
    if s.newUser.None? then RegistrationForm(!ValidateForm(s), s.isLoading)
    else ConfirmationForm(!ValidateConfirmationForm(s), s.isLoading)
  }

  /** The inputs each form renders. */
  function Inputs(form: Form): set<Field>
  {
    match form
    case RegistrationForm(_, _) => {Email, Password, ConfirmPassword}
    case ConfirmationForm(_, _) => {ConfirmationCode}
  }

  /** handleChange: the input named by the event's id takes the new value;
      nothing else changes. */
  function Change(s: SignupState, field: Field, value: string): (r: SignupState)
    ensures r.isLoading == s.isLoading && r.newUser == s.newUser
    ensures r.email == (if field == Email then value else s.email)
    ensures r.password == (if field == Password then value else s.password)
    ensures r.confirmPassword == (if field == ConfirmPassword then value else s.confirmPassword)
    ensures r.confirmationCode == (if field == ConfirmationCode then value else s.confirmationCode)
  {
    match field
    case Email => s.(email := value)
    case Password => s.(password := value)
    case ConfirmPassword => s.(confirmPassword := value)
    case ConfirmationCode => s.(confirmationCode := value)
  }

  /** handleSubmit: sign up with the email as user name and the typed
      password; store the resolved user, or alert the message and keep
      `newUser`; loading ends either way. App is not told anything. */
  function Submit(s: SignupState, signUp: Outcome<PendingUser>): (r: Step<SignupState>)
    ensures !r.state.isLoading
    ensures r.state.newUser == (if signUp.Resolved? then Some(signUp.value) else s.newUser)
    ensures r.state.email == s.email && r.state.password == s.password
    ensures r.state.confirmPassword == s.confirmPassword && r.state.confirmationCode == s.confirmationCode
    ensures signUp.Resolved? ==> r.effects == [Call(SignUp(s.email, s.password))]
    ensures signUp.Rejected? ==>
      r.effects == [Call(SignUp(s.email, s.password)), AlertMessage(MessageOf(signUp.error))]
  {
    var pending := s.(isLoading := true);
    var asked := [Call(SignUp(pending.email, pending.password))];
    var settled := match signUp
      case Resolved(user) => Step(pending.(newUser := Some(user)), asked)
      case Rejected(e) => Step(pending, asked + [AlertMessage(MessageOf(e))]);
    settled.(state := settled.state.(isLoading := false))
  }

  /** handleConfirmationSubmit: confirm the code, then sign in with the
      same email and the registered password, then tell App and go home;
      loading stays on along that path. If either call fails, its message
      is alerted, loading ends, App is not told and nothing navigates,
      even when the confirmation itself succeeded. `newUser` never changes.
      `signIn` is consulted only when the confirmation resolved. */
  function ConfirmationSubmit(s: SignupState, confirm: Outcome<()>, signIn: Outcome<()>): (r: Step<SignupState>)
    ensures r.state == s.(isLoading := confirm.Resolved? && signIn.Resolved?)
    ensures confirm.Resolved? && signIn.Resolved? ==>
      r.effects == [Call(ConfirmSignUp(s.email, s.confirmationCode)), Call(SignIn(s.email, s.password)),
                    Notify(true), Push("/")]
    ensures confirm.Rejected? ==>
      r.effects == [Call(ConfirmSignUp(s.email, s.confirmationCode)), AlertMessage(MessageOf(confirm.error))]
    ensures confirm.Resolved? && signIn.Rejected? ==>
      r.effects == [Call(ConfirmSignUp(s.email, s.confirmationCode)), Call(SignIn(s.email, s.password)),
                    AlertMessage(MessageOf(signIn.error))]
    ensures Notify(true) in r.effects <==> confirm.Resolved? && signIn.Resolved?
    ensures Push("/") in r.effects <==> confirm.Resolved? && signIn.Resolved?
  {
    var pending := s.(isLoading := true);
    var confirming := [Call(ConfirmSignUp(pending.email, pending.confirmationCode))];
    match confirm
    case Rejected(e) => Step(pending.(isLoading := false), confirming + [AlertMessage(MessageOf(e))])
    case Resolved(_) =>
      var signingIn := confirming + [Call(SignIn(pending.email, pending.password))];
      match signIn
      case Rejected(e) => Step(pending.(isLoading := false), signingIn + [AlertMessage(MessageOf(e))])
      case Resolved(_) => Step(pending, signingIn + [Notify(true), Push("/")])
  }

  /** The interactions with the rendered form. */
  datatype Event =
    | Edit(field: Field, value: string)
    | SubmitRegistration(signUp: Outcome<PendingUser>)
    | SubmitConfirmation(confirm: Outcome<()>, signIn: Outcome<()>)

  /** An edit reaches only an input the current form renders; a submit
      comes from the current form, through its enabled button. */
  predicate Enabled(s: SignupState, ev: Event)
  {
    match ev
    case Edit(field, _) => field in Inputs(Render(s))
    case SubmitRegistration(_) => Render(s).RegistrationForm? && !Render(s).submitDisabled
    case SubmitConfirmation(_, _) => Render(s).ConfirmationForm? && !Render(s).submitDisabled
  }

  function Apply(s: SignupState, ev: Event): Step<SignupState>
  {
    match ev
    case Edit(field, value) => Step(Change(s, field, value), [])
    case SubmitRegistration(signUp) => Submit(s, signUp)
    case SubmitConfirmation(confirm, signIn) => ConfirmationSubmit(s, confirm, signIn)
  }

  /** The state and effects after handling `evs` in order. */
  function Replay(s: SignupState, evs: seq<Event>): Step<SignupState>
    decreases |evs|
  {
    if evs == [] then Step(s, [])
    else
      var before := Replay(s, evs[..|evs| - 1]);
      var last := Apply(before.state, evs[|evs| - 1]);
      Step(last.state, before.effects + last.effects)
  }

  /** Every event of `evs` is one the form allows when it happens. */
  predicate EnabledTrace(s: SignupState, evs: seq<Event>)
    decreases |evs|
  {
    evs == [] ||
    (EnabledTrace(s, evs[..|evs| - 1]) && Enabled(Replay(s, evs[..|evs| - 1]).state, evs[|evs| - 1]))
  }

  /** Forward only: whatever happens, a stored pending user is never
      cleared, so the registration form never comes back. */
  lemma {:induction false} NewUserNeverCleared(s: SignupState, evs: seq<Event>)
    requires s.newUser.Some?
    ensures Replay(s, evs).state.newUser.Some?
    ensures PhaseOf(Replay(s, evs).state) == ConfirmationPending
  {
    if evs != [] {
      NewUserNeverCleared(s, evs[..|evs| - 1]);
    }
  }

  /** In the confirmation phase the form offers only the code input, so the
      pending user, the email and both passwords stay as they were
      registered. */
  lemma {:induction false} ConfirmationPhaseKeepsCredentials(s: SignupState, evs: seq<Event>)
    requires s.newUser.Some? && EnabledTrace(s, evs)
    ensures Replay(s, evs).state.newUser == s.newUser
    ensures Replay(s, evs).state.email == s.email
    ensures Replay(s, evs).state.password == s.password
    ensures Replay(s, evs).state.confirmPassword == s.confirmPassword
  {
    if evs != [] {
      ConfirmationPhaseKeepsCredentials(s, evs[..|evs| - 1]);
    }
  }

  /** Every sign-in request is preceded by a sign-up request with the same
      user name and password. */
  predicate SignInsFollowSignUps(effects: seq<Effect>)
  {
    forall k :: 0 <= k < |effects| && effects[k].Call? && effects[k].request.SignIn? ==>
      Call(SignUp(effects[k].request.username, effects[k].request.password)) in effects[..k]
  }

  /** Once a pending user is stored, the credentials on screen are the ones
      that were sent to `signUp`. */
  predicate SignUpSentWith(r: Step<SignupState>)
  {
    r.state.newUser.Some? ==> Call(SignUp(r.state.email, r.state.password)) in r.effects
  }

  /** Appending effects whose sign-ins all have their sign-up already in
      `a` keeps every sign-in preceded by its sign-up. */
  lemma FollowsAfterAppend(a: seq<Effect>, b: seq<Effect>)
    requires SignInsFollowSignUps(a)
    requires forall j :: 0 <= j < |b| && b[j].Call? && b[j].request.SignIn? ==>
      Call(SignUp(b[j].request.username, b[j].request.password)) in a
    ensures SignInsFollowSignUps(a + b)
  {
    var all := a + b;
    forall k | 0 <= k < |all| && all[k].Call? && all[k].request.SignIn?
      ensures Call(SignUp(all[k].request.username, all[k].request.password)) in all[..k]
    {
      if k < |a| {
        assert all[..k] == a[..k] && all[k] == a[k];
      } else {
        assert all[k] == b[k - |a|];
        var x := Call(SignUp(all[k].request.username, all[k].request.password));
        var i :| 0 <= i < |a| && a[i] == x;
        assert all[..k][i] == x;
      }
    }
  }

  /** One allowed event keeps both trace invariants. */
  lemma StepKeepsRegistration(before: Step<SignupState>, ev: Event)
    requires Enabled(before.state, ev)
    requires SignInsFollowSignUps(before.effects) && SignUpSentWith(before)
    ensures var last := Apply(before.state, ev);
      SignInsFollowSignUps(before.effects + last.effects)
      && SignUpSentWith(Step(last.state, before.effects + last.effects))
  {
    var last := Apply(before.state, ev);
    var all := before.effects + last.effects;
    match ev {
      case Edit(field, value) =>
        assert all == before.effects;
      case SubmitRegistration(signUp) =>
        assert all[|before.effects|] == Call(SignUp(before.state.email, before.state.password));
        FollowsAfterAppend(before.effects, last.effects);
      case SubmitConfirmation(confirm, signIn) =>
        assert Call(SignUp(before.state.email, before.state.password)) in before.effects;
        FollowsAfterAppend(before.effects, last.effects);
        var j :| 0 <= j < |before.effects| && before.effects[j] == Call(SignUp(last.state.email, last.state.password));
        assert all[j] == before.effects[j];
    }
  }

  /** Event `i` of `evs` is a registration submit whose `signUp` resolved
      with the pending user `st` holds. It was sent from a valid form that
      held the email and password `st` holds. */
  predicate RegisteredAt(s: SignupState, evs: seq<Event>, i: int, st: SignupState)
  {
    && 0 <= i < |evs|
    && evs[i].SubmitRegistration? && evs[i].signUp.Resolved?
    && st.newUser == Some(evs[i].signUp.value)
    && ValidateForm(Replay(s, evs[..i]).state)
    && Replay(s, evs[..i]).state.email == st.email
    && Replay(s, evs[..i]).state.password == st.password
  }

  /** A stored pending user comes from a resolved sign-up, sent with the
      email and password now on screen. */
  predicate StoredByResolvedSignUp(s: SignupState, evs: seq<Event>)
  {
    Replay(s, evs).state.newUser.Some? ==> exists i :: 0 <= i < |evs| && RegisteredAt(s, evs, i, Replay(s, evs).state)
  }

  /** Every confirmation submit comes after a resolved sign-up that was sent
      with the email and password the confirmation uses. */
  predicate ConfirmationsFollowRegistration(s: SignupState, evs: seq<Event>)
  {
    forall k :: 0 <= k < |evs| && evs[k].SubmitConfirmation? ==>
      exists i :: 0 <= i < k && RegisteredAt(s, evs, i, Replay(s, evs[..k]).state)
  }

  /** Whether event `i` is such a registration does not depend on the
      events after it. */
  lemma RegisteredAtPrefix(s: SignupState, evs: seq<Event>, k: int, i: int, st: SignupState)
    requires 0 <= i < k <= |evs|
    ensures RegisteredAt(s, evs[..k], i, st) <==> RegisteredAt(s, evs, i, st)
  {
    assert evs[..k][..i] == evs[..i];
    assert evs[..k][i] == evs[i];
  }

  /** One allowed event keeps a stored pending user tied to its resolved
      sign-up. */
  lemma StepKeepsResolvedRegistration(s: SignupState, evs: seq<Event>, ev: Event)
    requires Enabled(Replay(s, evs).state, ev) && StoredByResolvedSignUp(s, evs)
    ensures StoredByResolvedSignUp(s, evs + [ev])
  {
    ReplaySnoc(s, evs, ev);
    var all := evs + [ev];
    var before := Replay(s, evs).state;
    var after := Replay(s, all).state;
    if after.newUser.Some? {
      if ev.SubmitRegistration? && ev.signUp.Resolved? {
        assert all[|evs|] == ev;
        assert RegisteredAt(s, all, |evs|, after);
      } else {
        assert after.newUser == before.newUser && after.email == before.email && after.password == before.password;
        var i :| 0 <= i < |evs| && RegisteredAt(s, evs, i, before);
        RegisteredAtPrefix(s, all, |evs|, i, after);
      }
    }
  }

  /** One allowed event keeps every confirmation after its registration. */
  lemma StepKeepsConfirmationsFollowing(s: SignupState, evs: seq<Event>, ev: Event)
    requires Enabled(Replay(s, evs).state, ev) && StoredByResolvedSignUp(s, evs)
    requires ConfirmationsFollowRegistration(s, evs)
    ensures ConfirmationsFollowRegistration(s, evs + [ev])
  {
    forall k | 0 <= k < |evs + [ev]| && (evs + [ev])[k].SubmitConfirmation?
      ensures exists i :: 0 <= i < k && RegisteredAt(s, evs + [ev], i, Replay(s, (evs + [ev])[..k]).state)
    {
      ConfirmationFollows(s, evs, ev, k);
    }
  }

  /** The confirmation at `k` in `evs + [ev]` follows its registration:
      an earlier one keeps the registration it had, and an appended one
      follows the registration that stored the pending user. */
  lemma ConfirmationFollows(s: SignupState, evs: seq<Event>, ev: Event, k: int)
    requires Enabled(Replay(s, evs).state, ev) && StoredByResolvedSignUp(s, evs)
    requires ConfirmationsFollowRegistration(s, evs)
    requires 0 <= k < |evs + [ev]| && (evs + [ev])[k].SubmitConfirmation?
    ensures exists i :: 0 <= i < k && RegisteredAt(s, evs + [ev], i, Replay(s, (evs + [ev])[..k]).state)
  {
    var all := evs + [ev];
    assert all[..|evs|] == evs;
    if k < |evs| {
      assert all[k] == evs[k] && all[..k] == evs[..k];
      var i :| 0 <= i < k && RegisteredAt(s, evs, i, Replay(s, evs[..k]).state);
      RegisteredAtPrefix(s, all, |evs|, i, Replay(s, evs[..k]).state);
    } else {
      var before := Replay(s, evs).state;
      var i :| 0 <= i < |evs| && RegisteredAt(s, evs, i, before);
      RegisteredAtPrefix(s, all, |evs|, i, before);
    }
  }

  /** Starting from the registration form, every confirmation submit, and
      so the implicit sign-in it makes, uses exactly the email and password
      of an earlier registration submit whose `signUp` resolved, and that
      registration form was valid. A stored pending user is always the one
      that sign-up returned. At the level of requests, every sign-in request
      follows a sign-up request with the same user name and password. */
  lemma {:induction false} SignInUsesRegisteredCredentials(s: SignupState, evs: seq<Event>)
    requires s.newUser.None? && EnabledTrace(s, evs)
    ensures ConfirmationsFollowRegistration(s, evs)
    ensures StoredByResolvedSignUp(s, evs)
    ensures SignInsFollowSignUps(Replay(s, evs).effects)
    ensures SignUpSentWith(Replay(s, evs))
  {
    if evs != [] {
      var prefix := evs[..|evs| - 1];
      var ev := evs[|evs| - 1];
      SignInUsesRegisteredCredentials(s, prefix);
      StepKeepsRegistration(Replay(s, prefix), ev);
      assert evs == prefix + [ev];
      StepKeepsResolvedRegistration(s, prefix, ev);
      StepKeepsConfirmationsFollowing(s, prefix, ev);
    }
  }

  /** Once a pending user is stored, the email and password on screen are
      non-empty. */
  predicate CredentialsFilledIn(s: SignupState)
  {
    s.newUser.Some? ==> s.email != "" && s.password != ""
  }

  /** Through the forms, empty input never reaches the
      identity provider: every sign-up, confirmation and sign-in request
      carries a non-empty user name and password or code. */
  lemma {:induction false} RequestsPassValidation(s: SignupState, evs: seq<Event>)
    requires CredentialsFilledIn(s) && EnabledTrace(s, evs)
    ensures RequestsFilledIn(Replay(s, evs).effects)
    ensures CredentialsFilledIn(Replay(s, evs).state)
  {
    if evs != [] {
      var prefix := evs[..|evs| - 1];
      RequestsPassValidation(s, prefix);
      var before := Replay(s, prefix);
      var last := Apply(before.state, evs[|evs| - 1]);
      StepPassesValidation(before.state, evs[|evs| - 1]);
      FilledInAppend(before.effects, last.effects);
    }
  }

  /** One allowed event sends only filled-in requests and keeps the stored
      credentials filled in. */
  lemma StepPassesValidation(s: SignupState, ev: Event)
    requires CredentialsFilledIn(s) && Enabled(s, ev)
    ensures RequestsFilledIn(Apply(s, ev).effects) && CredentialsFilledIn(Apply(s, ev).state)
  {
    match ev {
      case Edit(field, value) =>
      case SubmitRegistration(signUp) =>
        assert Apply(s, ev).effects[0] == Call(SignUp(s.email, s.password));
      case SubmitConfirmation(confirm, signIn) =>
        assert Apply(s, ev).effects[0] == Call(ConfirmSignUp(s.email, s.confirmationCode));
    }
  }

  /** Replaying one more event. */
  lemma ReplaySnoc(s: SignupState, evs: seq<Event>, ev: Event)
    ensures (evs + [ev])[..|evs|] == evs
    ensures Replay(s, evs + [ev]) ==
      Step(Apply(Replay(s, evs).state, ev).state, Replay(s, evs).effects + Apply(Replay(s, evs).state, ev).effects)
    ensures EnabledTrace(s, evs + [ev]) <==> EnabledTrace(s, evs) && Enabled(Replay(s, evs).state, ev)
  {
    assert (evs + [ev])[..|evs|] == evs;
  }

  /** A whole signup from a filled-in registration form: register, type
      the code, confirm. Every step is one the forms allow, and the flow
      ends by signing in with the registered credentials, telling App and
      going home. */
  lemma RegisterThenConfirm(s: SignupState, user: PendingUser, code: string)
    requires s.newUser.None? && ValidateForm(s) && code != ""
    ensures var evs := [SubmitRegistration(Resolved(user))] + [Edit(ConfirmationCode, code)]
                       + [SubmitConfirmation(Resolved(()), Resolved(()))];
      && EnabledTrace(s, evs)
      && Replay(s, evs).state.newUser == Some(user)
      && Replay(s, evs).effects ==
           [Call(SignUp(s.email, s.password)), Call(ConfirmSignUp(s.email, code)), Call(SignIn(s.email, s.password)),
            Notify(true), Push("/")]
  {
    var e2 := [SubmitRegistration(Resolved(user))] + [Edit(ConfirmationCode, code)];
    RegisterThenTypeCode(s, user, code);
    var coded := s.(isLoading := false, newUser := Some(user), confirmationCode := code);
    ReplaySnoc(s, e2, SubmitConfirmation(Resolved(()), Resolved(())));
    assert Enabled(coded, SubmitConfirmation(Resolved(()), Resolved(())));
  }

  /** The first two steps of `RegisterThenConfirm`. */
  lemma RegisterThenTypeCode(s: SignupState, user: PendingUser, code: string)
    requires s.newUser.None? && ValidateForm(s)
    ensures var evs := [SubmitRegistration(Resolved(user))] + [Edit(ConfirmationCode, code)];
      && EnabledTrace(s, evs)
      && Replay(s, evs) == Step(s.(isLoading := false, newUser := Some(user), confirmationCode := code),
                                [Call(SignUp(s.email, s.password))])
  {
    var registered := s.(isLoading := false, newUser := Some(user));
    var e1 := [SubmitRegistration(Resolved(user))];
    ReplaySnoc(s, [], SubmitRegistration(Resolved(user)));
    assert [] + e1 == e1;
    assert EnabledTrace(s, e1) && Replay(s, e1) == Step(registered, [Call(SignUp(s.email, s.password))]);
    ReplaySnoc(s, e1, Edit(ConfirmationCode, code));
  }

  /** The Signup component. `app` is the App whose `userHasAuthenticated`
      arrives through `childProps`; alerts, history pushes and remote calls
      go to its environment. */
  class Signup {
    const app: AppSession.App
    var isLoading: bool
    var email: string
    var password: string
    var confirmPassword: string
    var confirmationCode: string
    var newUser: Option<PendingUser>

    function State(): SignupState
      reads this
    {
      SignupState(isLoading, email, password, confirmPassword, confirmationCode, newUser)
    }

    constructor (app: AppSession.App)
      ensures this.app == app
      ensures !isLoading && email == "" && password == "" && confirmPassword == ""
      ensures confirmationCode == "" && newUser.None?
      ensures State() == Initial
    {
      this.app := app;
      isLoading := false;
      email := "";
      password := "";
      confirmPassword := "";
      confirmationCode := "";
      newUser := None;
    }

    method HandleChange(field: Field, value: string)
      modifies this
      ensures State() == Change(old(State()), field, value)
    {
      match field {
        case Email => email := value;
        case Password => password := value;
        case ConfirmPassword => confirmPassword := value;
        case ConfirmationCode => confirmationCode := value;
      }
    }

    method HandleSubmit(signUp: Outcome<PendingUser>)
      modifies this, app.env
      ensures State() == Submit(old(State()), signUp).state
      ensures app.env.effects == old(app.env.effects) + Submit(old(State()), signUp).effects
      ensures old(newUser).Some? ==> newUser.Some?
    {
      isLoading := true;
      app.env.effects := app.env.effects + [Call(SignUp(email, password))];
      match signUp {
        case Resolved(user) =>
          newUser := Some(user);
        case Rejected(e) =>
          app.env.effects := app.env.effects + [AlertMessage(MessageOf(e))];
      }
      isLoading := false;
    }

    method HandleConfirmationSubmit(confirm: Outcome<()>, signIn: Outcome<()>)
      modifies this, app, app.env
      ensures State() == ConfirmationSubmit(old(State()), confirm, signIn).state
      ensures app.env.effects == old(app.env.effects) + ConfirmationSubmit(old(State()), confirm, signIn).effects
      ensures app.State() ==
        if confirm.Resolved? && signIn.Resolved? then AppSession.AfterAuthenticated(old(app.State()), true)
        else old(app.State())
      ensures newUser == old(newUser)
    {
      isLoading := true;
      app.env.effects := app.env.effects + [Call(ConfirmSignUp(email, confirmationCode))];
      if confirm.Rejected? {
        app.env.effects := app.env.effects + [AlertMessage(MessageOf(confirm.error))];
        isLoading := false;
        return;
      }
      app.env.effects := app.env.effects + [Call(SignIn(email, password))];
      if signIn.Rejected? {
        app.env.effects := app.env.effects + [AlertMessage(MessageOf(signIn.error))];
        isLoading := false;
        return;
      }
      app.env.effects := app.env.effects + [Notify(true)];
      app.UserHasAuthenticated(true);
      app.env.effects := app.env.effects + [Push("/")];
    }
  }
}
