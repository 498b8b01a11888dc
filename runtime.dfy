/** What the components see of the world around them: the values a rejected
    identity-provider call throws, the settled outcome of each awaited call,
    and the effects a handler leaves behind (remote calls it issued, alerts,
    history pushes, calls of its parent's callback). */
module Runtime {

  datatype Option<T> = None | Some(value: T)

  /** A value thrown by a rejected call: a bare string, or an object whose
      `message` property may be missing. */
  datatype Thrown = Text(text: string) | Object(message: Option<string>)

  /** `e.message` as JavaScript evaluates it; `None` is `undefined` (a string
      has no `message` property). */
  function MessageOf(e: Thrown): Option<string>
  {
    match e
    case Text(_) => None
    case Object(message) => message
  }

  /** How an awaited identity-provider call settled. */
  datatype Outcome<T> = Resolved(value: T) | Rejected(error: Thrown)

  /** The calls the components make into the identity provider. */
  datatype Request =
    | CurrentSession
    | SignIn(username: string, password: string)
    | SignUp(username: string, password: string)
    | ConfirmSignUp(username: string, code: string)
    | SignOut

  /** One observable effect of a handler, in the order it happens. */
  datatype Effect =
    | Call(request: Request)          // a call into the identity provider
    | AlertValue(value: Thrown)       // alert(e)
    | AlertMessage(message: Option<string>)  // alert(e.message)
    | Push(path: string)              // history.push(path)
    | Notify(authenticated: bool)     // props.userHasAuthenticated(b), called by a child view

  /** Some effect is an alert. */
  predicate Alerted(effects: seq<Effect>)
  {
    exists k :: 0 <= k < |effects| && (effects[k].AlertValue? || effects[k].AlertMessage?)
  }

  /** A request that carries no empty credential or code. Requests without
      arguments qualify trivially. */
  predicate FilledIn(e: Effect)
  {
    match e
    case Call(SignIn(username, password)) => username != "" && password != ""
    case Call(SignUp(username, password)) => username != "" && password != ""
    case Call(ConfirmSignUp(username, code)) => username != "" && code != ""
    case _ => true
  }

  predicate RequestsFilledIn(effects: seq<Effect>)
  {
    forall k :: 0 <= k < |effects| ==> FilledIn(effects[k])
  }

  lemma FilledInAppend(a: seq<Effect>, b: seq<Effect>)
    requires RequestsFilledIn(a) && RequestsFilledIn(b)
    ensures RequestsFilledIn(a + b)
  {
    forall k | 0 <= k < |a + b| ensures FilledIn((a + b)[k]) {
      if k >= |a| {
        assert (a + b)[k] == b[k - |a|];
      }
    }
  }

  /** The state a handler leaves and the effects it produced on the way. */
  datatype Step<S> = Step(state: S, effects: seq<Effect>)

  /** The browser window, router history and identity provider, seen only
      through the effects the components produce on them. */
  class Environment {
    var effects: seq<Effect>

    constructor ()
      ensures effects == []
    {
      effects := [];
    }
  }
}
