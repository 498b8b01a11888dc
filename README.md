# Authentication session model

A Dafny model of the client-side authentication layer of a small React
single-page application built on AWS Amplify and Semantic UI. The model has
four parts:

- **App** (`src/App.js`) holds the process-wide flags `isAuthenticated`,
  `isAuthenticating` and `sidebarVisible`. It looks up the current session
  once at start-up, holds back all rendering until that lookup has settled,
  and handles logout and the sidebar.
- **Login** (`src/containers/auth/Login.js`) is the email and password form.
  Its submit signs in and tells App through `childProps.userHasAuthenticated`.
- **Signup** (`src/containers/auth/Signup.js`) is a two-phase, forward-only
  form. Registration stores the pending user. After that, the confirmation
  form confirms the code and signs in with the registered credentials.
- **Routes** (`src/Routes.js`) is an ordered, first-match table of exact
  paths with a catch-all not-found route. It is wrapped in access policies.

Each component is modelled in two layers:

- A value datatype of its state and pure transition functions. Each
  function returns the new state and the list of effects the handler
  produces.
- A class with the component's real fields. Its handlers are imperative
  methods, and each one is proved to equal its transition function.

An effect is one of: a call into the identity provider, an alert, a history
push, or a call of the parent's `userHasAuthenticated`. The identity
provider's answers are method parameters (`Outcome`: resolved with a value,
or rejected with a thrown value). Login and Signup hold a reference to
their App object, which stands for the `userHasAuthenticated` callback in
`childProps`. When they call it, App's own field changes.

On top of the single steps, lemmas cover whole sequences of form events.
A form event is "enabled" only when the form on screen offers it: an input
that is rendered, or a submit button that is not disabled. The lemmas show:

- the Signup flow never returns to registration;
- the credentials freeze once confirmation begins;
- the implicit sign-in uses exactly the email and password of an earlier
  registration whose `signUp` resolved. This holds because each handler is
  one transaction. In the running code the registration inputs stay
  editable while `Auth.signUp` is awaited, and an edit made then would
  reach the later confirmation and sign-in;
- no empty field ever reaches the identity provider;
- `isAuthenticating` never becomes true again after the bootstrap.

Where the intended design and the code differ, the model follows the code:

- A rejected `signOut` aborts logout entirely. There is no `catch`, so the
  user is not signed out locally and nothing navigates.
- A successful login does not navigate and leaves `isLoading` on. It only
  tells App. The route guard then redirects away from `/login`.
- The sidebar button negates `this.state.visible`, a key the state never
  has. So it always shows the sidebar instead of toggling it.

Files: `runtime.dfy` (thrown values, outcomes, effects), `routes.dfy`,
`app.dfy`, `login.dfy`, `signup.dfy`.

## Model

| member | source | states |
|---|---|---|
| `Routes.FirstMatch` | src/Routes.js:16-23 | If it returns an index, that route matches the path and no earlier route does. It returns nothing only when no route matches. |
| `Routes.CatchAllMakesLookupTotal` | src/Routes.js:21-22 | A table that ends with the path-less catch-all route resolves every path. |
| `Routes.Switch` | src/Routes.js:16-23 | The chosen route is the first matching row of the table. `/`, `/login` and `/signup` get their own rows. Every other path, `/login/x` included, gets the NotFound catch-all. |
| `Routes.Guard` | src/Routes.js:17-22 | There is a redirect exactly for a public-only route when the user is signed in, and it goes to `/`. Otherwise the route's own component is shown. It gets `childProps` unchanged under either access policy, and gets no props on the plain catch-all `Route`. |
| `Routes.Resolve` | src/Routes.js:16-23 | `/` shows Home with `childProps`. `/login` and `/signup` redirect to `/` when authenticated and otherwise show their view with `childProps`. Any other path shows NotFound with no props. Every view that gets props gets `childProps` unchanged. |
| `AppSession.App.constructor` | src/App.js:23-31 | Starts with `isAuthenticated` false, `isAuthenticating` true and `sidebarVisible` false. |
| `AppSession.AfterAuthenticated` | src/App.js:55-57 | `userHasAuthenticated(b)` sets `isAuthenticated` to `b` and leaves the other two fields as they were. |
| `AppSession.App.UserHasAuthenticated` | src/App.js:55-57 | The method sets `isAuthenticated := b` and changes no other field. |
| `AppSession.AuthenticateIdempotent` | src/App.js:55-57 | Calling `userHasAuthenticated(b)` twice is the same as calling it once. |
| `AppSession.AfterMount` | src/App.js:37-53 | Afterwards `isAuthenticating` is false whatever the outcome. A truthy session sets `isAuthenticated`; a falsy one or a rejection leaves it alone. An alert happens exactly when the thrown value is not the string `'No current user'`. The session is requested first. |
| `AppSession.App.ComponentDidMount` | src/App.js:37-53 | The imperative bootstrap produces exactly the state and the effects of `AfterMount`. |
| `AppSession.NothingRendersBeforeMount` | src/App.js:26-53 | From the initial state, as long as no mount has happened, `isAuthenticating` stays true and render draws nothing. |
| `AppSession.MountedAppStaysMounted` | src/App.js:37-53 | From the initial state, after the mount and any later handlers, `isAuthenticating` is false. |
| `AppSession.BootstrapEndsForGood` | src/App.js:33-67 | No handler sets `isAuthenticating` back to true. Once the bootstrap has ended, the page renders for good. |
| `AppSession.AfterLogout` | src/App.js:59-67 | If `signOut` resolves: signed out, sidebar hidden, `isAuthenticating` kept, effects are the sign-out call then a push of `/login`. If it rejects: state unchanged and only the sign-out call happened. |
| `AppSession.App.HandleLogout` | src/App.js:59-67 | The imperative logout produces exactly the state and the effects of `AfterLogout`. |
| `AppSession.AfterSidebarButtonClick` | src/App.js:33 | Afterwards the sidebar is visible and the authentication flags are unchanged. |
| `AppSession.SidebarButtonIgnoresVisibility` | src/App.js:33 | The click gives the same result whether or not the sidebar was visible (it never toggles). It leaves an open sidebar open. |
| `AppSession.App.HandleSidebarButtonClick` | src/App.js:33 | The method changes the state as `AfterSidebarButtonClick` does. |
| `AppSession.AfterSidebarHide` | src/App.js:35 | Afterwards the sidebar is hidden and the authentication flags are unchanged. |
| `AppSession.App.HandleSidebarHide` | src/App.js:35 | The method changes the state as `AfterSidebarHide` does. |
| `AppSession.ChildPropsOf` | src/App.js:95-98 | The props carry App's current `isAuthenticated`. |
| `AppSession.Render` | src/App.js:119-186 | Renders nothing exactly while `isAuthenticating`. When signed in, the menu is exactly Logout; otherwise it is exactly Signup then Login. The page carries `childProps` and the sidebar flag. |
| `AppSession.Screen` | src/App.js:101-186 | While `isAuthenticating` there is no content, guarded or not. After that the route table's choice is rendered with the current `childProps`. |
| `AppSession.MenuLinksReachTheirViews` | src/App.js:111-126 | Each link in the rendered menu, Signup or Login, leads to its own view: never a redirect, never NotFound. |
| `LoginFlow.Login.constructor` | src/containers/auth/Login.js:9-17 | Starts with `isLoading` false and empty email and password. |
| `LoginFlow.ValidateForm` | src/containers/auth/Login.js:19-21 | Holds exactly when a sign-in with the form's email and password would carry no empty credential. |
| `LoginFlow.Render` | src/containers/auth/Login.js:54-90 | The submit button (lines 79-86) is disabled exactly when `validateForm` fails, that is, when the email or the password is empty. |
| `LoginFlow.Change` | src/containers/auth/Login.js:23-27 | Only the field named by the event id takes the new value. |
| `LoginFlow.Login.HandleChange` | src/containers/auth/Login.js:23-27 | The method updates the state as `Change` does. |
| `LoginFlow.Submit` | src/containers/auth/Login.js:29-53 | Signs in with the form's email and password. On success App is notified, nothing is pushed and `isLoading` stays true. On failure `e.message` is alerted, `isLoading` is false and App is not notified. |
| `LoginFlow.Login.HandleSubmit` | src/containers/auth/Login.js:29-53 | The method produces the state and the effects of `Submit`. App's `isAuthenticated` becomes true exactly on success; otherwise App is unchanged. |
| `LoginFlow.SignedInUserIsSentHome` | src/containers/auth/Login.js:42-48 | After a successful login has reached App, the page at `/login` is a redirect to `/`, coming from the route guard rather than from Login. |
| `LoginFlow.SignInsCarryCredentials` | src/containers/auth/Login.js:19-33 | Along any sequence of enabled form events, no sign-in request has an empty email or password. |
| `LoginFlow.NotifiesOnlyAfterSignIn` | src/containers/auth/Login.js:33-52 | Over any sequence of events, App is notified exactly when some submit's sign-in resolved. |
| `SignupFlow.Signup.constructor` | src/containers/auth/Signup.js:69-80 | Starts with `isLoading` false, four empty strings and no `newUser`. |
| `SignupFlow.ValidateForm` | src/containers/auth/Signup.js:82-88 | Holds exactly when a sign-up with the form's email and password would carry no empty credential and the confirmation password equals the password. |
| `SignupFlow.ValidateConfirmationForm` | src/containers/auth/Signup.js:90-92 | Holds exactly when the confirmation code is non-empty, whatever the other fields hold. So when it fails, a confirmation request would carry an empty code, and when it holds, a confirmation for a non-empty user name carries no empty field. |
| `SignupFlow.Render` | src/containers/auth/Signup.js:82-218 | Shows the registration form exactly when `newUser` is null, and the confirmation form otherwise. Registration's button is disabled exactly when email or password is empty or the passwords differ. Confirmation's button is disabled exactly when the code is empty. |
| `SignupFlow.Change` | src/containers/auth/Signup.js:94-98 | Only the field named by the event id takes the new value. `newUser` and `isLoading` are untouched. |
| `SignupFlow.Signup.HandleChange` | src/containers/auth/Signup.js:94-98 | The method updates the state as `Change` does. |
| `SignupFlow.Submit` | src/containers/auth/Signup.js:100-118 | Signs up with the email as user name and the password. On success `newUser` is the returned user. On failure `e.message` is alerted and `newUser` is kept. `isLoading` is false either way. |
| `SignupFlow.Signup.HandleSubmit` | src/containers/auth/Signup.js:100-118 | The method produces the state and the effects of `Submit` and never clears `newUser`. |
| `SignupFlow.ConfirmationSubmit` | src/containers/auth/Signup.js:120-135 | On success: `confirmSignUp(email, code)`, then `signIn(email, password)`, then notify App, then push `/`, with `isLoading` staying true. If either call fails, including a failed sign-in after a successful confirmation: alert, `isLoading` false, no notification, no navigation. `newUser` is unchanged. |
| `SignupFlow.Signup.HandleConfirmationSubmit` | src/containers/auth/Signup.js:120-135 | The method produces the state and the effects of `ConfirmationSubmit`. App becomes authenticated exactly when both calls resolved. `newUser` is unchanged. |
| `SignupFlow.NewUserNeverCleared` | src/containers/auth/Signup.js:100-135 | Once a pending user is stored, no sequence of events clears it, so the flow stays in the confirmation phase. |
| `SignupFlow.ConfirmationPhaseKeepsCredentials` | src/containers/auth/Signup.js:137-161 | In the confirmation phase, enabled events keep `newUser`, the email and both passwords, since only the code input is rendered. |
| `SignupFlow.SignInUsesRegisteredCredentials` | src/containers/auth/Signup.js:100-135 | Starting from registration, along enabled events: every confirmation submit comes after a registration submit whose `signUp` resolved. That registration was sent from a valid form with the same email and password the confirmation and its sign-in use. A stored pending user is the one that sign-up returned. Every sign-in request follows a sign-up request with the same user name and password. |
| `SignupFlow.RegisterThenConfirm` | src/containers/auth/Signup.js:100-135 | Starting from a valid registration form: registering, typing the code and confirming are all enabled steps. They leave `newUser` set. The effects are exactly sign-up, confirm, sign-in with the registered credentials, notify App, push `/`. |
| `SignupFlow.RequestsPassValidation` | src/containers/auth/Signup.js:82-92 | Along enabled events, every sign-up, confirmation and sign-in request carries a non-empty user name, and a non-empty password or code. |

## Left out

- Layout and styling are not modelled: Semantic UI menus, the sidebar animation, `Responsive` and its `"700"` breakpoint, the logo, the burger item, images and CSS.
- The Amplify `Auth` service is not implemented. Each call is a parameter giving its outcome. The session `currentSession` resolves with is reduced to its truthiness. The user `signUp` resolves with is an opaque, non-null `PendingUser`.
- Real asynchrony is not modelled. Each handler is one sequential transaction, so the `isLoading: true` stretch while a call is in flight is not a separately observable state. Interleaved handlers, unmounting while a call is in flight, and `setState` batching are not modelled.
- `alert`, `history.push` and the callback call are recorded as effects, not performed. `alert(e)` records the value itself, not how a browser turns it into text. `event.preventDefault()` is not modelled.
- AppliedRoute, UnauthenticatedRoute, LoaderButton, Home and NotFound are not part of this model. The redirect to `/` for a signed-in user on a public-only route rests on the comment at src/containers/auth/Login.js:42-48. Whether LoaderButton also disables itself while loading is unknown, so enabled events ignore `isLoading`.
- `AppSession.App.HandleLogout`: the unhandled promise rejection a failed `signOut` raises is not modelled.
- `Routes.Switch`: React Router's `exact` matching is modelled as string equality. The router's tolerance of a trailing slash and its case-insensitive matching live in the library and are not modelled.
- `SignupFlow.SignInUsesRegisteredCredentials`: holds for handlers run as single transactions. An edit to the registration inputs while `Auth.signUp` is awaited (src/containers/auth/Signup.js:103-112) would make the later confirmation and sign-in use the edited values. That interleaving is not modelled.
- `SignupFlow.Change`, `LoginFlow.Change`: `handleChange` writes whatever key the event id names. Only the ids of the inputs the forms render are modelled.
- The `withRouter` wrapper and the explanatory comment block at src/containers/auth/Signup.js:1-59, with its suggested resend-code fix, are not code the application runs.
