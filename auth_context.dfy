/**
 * The authentication state of src/contexts/AuthContext.tsx: a reducer over
 * `{user, loading, error}` driven by four actions, and the provider's
 * `login`, `signup` and `logout`, each a fixed sequence of dispatches around
 * one awaited service call.
 */
module AuthContext {
  import opened Wrappers
  import opened AuthService

  /** What the UI sees: the signed-in user, whether a request is running, and the last error. */
  datatype AuthState = AuthState(user: Option<User>, loading: bool, error: Option<string>)

  /** The closed set of reducer actions. */
  datatype AuthAction =
    | SetLoading(isLoading: bool)
    | SetUser(newUser: Option<User>)
    | SetError(message: Option<string>)
    | ClearError

  /** The state the provider starts from: no user, loading, no error. */
  function InitialState(): AuthState
  {
    AuthState(None, true, None)
  }

  /** `authReducer`: the state after one action. */
  function Reduce(s: AuthState, a: AuthAction): (r: AuthState)
    ensures a.SetLoading? ==> r.loading == a.isLoading && r.user == s.user && r.error == s.error
    ensures a.SetUser? ==> r.user == a.newUser && !r.loading && r.error == None
    ensures a.SetError? ==> r.error == a.message && !r.loading && r.user == s.user
    ensures a.ClearError? ==> r.error == None && r.user == s.user && r.loading == s.loading
  {
    match a
    case SetLoading(b) => s.(loading := b)
    case SetUser(u) => s.(user := u, loading := false, error := None)
    case SetError(e) => s.(error := e, loading := false)
    case ClearError => s.(error := None)
  }

  /** The state after a sequence of dispatches, in order. */
  function Run(s: AuthState, actions: seq<AuthAction>): AuthState
    decreases |actions|
  {
    if actions == [] then s else Run(Reduce(s, actions[0]), actions[1..])
  }

  /** The three fields of the state, to say which of them an action assigns. */
  datatype Field = UserField | LoadingField | ErrorField

  /** The fields each case of the reducer assigns. */
  function Writes(a: AuthAction): set<Field>
  {
    match a
    case SetLoading(_) => {LoadingField}
    case SetUser(_) => {UserField, LoadingField, ErrorField}
    case SetError(_) => {ErrorField, LoadingField}
    case ClearError => {ErrorField}
  }

  /** `s` and `t` agree on the fields in `fs`. */
  predicate AgreeOn(s: AuthState, t: AuthState, fs: set<Field>)
  {
    (UserField in fs ==> s.user == t.user) &&
    (LoadingField in fs ==> s.loading == t.loading) &&
    (ErrorField in fs ==> s.error == t.error)
  }

  /** An action leaves every field it does not assign as it was. */
  lemma ReduceFrame(s: AuthState, a: AuthAction)
    ensures AgreeOn(Reduce(s, a), s, {UserField, LoadingField, ErrorField} - Writes(a))
  {
  }

  /** What an action assigns does not depend on the state it is applied to. */
  lemma ReduceOverwrites(s: AuthState, t: AuthState, a: AuthAction)
    ensures AgreeOn(Reduce(s, a), Reduce(t, a), Writes(a))
  {
  }

  /** Dispatching the same action twice is the same as dispatching it once. */
  lemma ReduceIdempotent(s: AuthState, a: AuthAction)
    ensures Reduce(Reduce(s, a), a) == Reduce(s, a)
  {
  }

  lemma InitialStateShape()
    ensures InitialState().user == None && InitialState().loading && InitialState().error == None
  {
  }

  lemma {:induction false} RunAppend(s: AuthState, xs: seq<AuthAction>, ys: seq<AuthAction>)
    ensures Run(s, xs + ys) == Run(Run(s, xs), ys)
    decreases |xs|
  {
    if xs == [] {
      assert xs + ys == ys;
    } else {
      assert (xs + ys)[0] == xs[0];
      assert (xs + ys)[1..] == xs[1..] + ys;
      RunAppend(Reduce(s, xs[0]), xs[1..], ys);
    }
  }

  /** A state in which at most one of `loading` and `error` is set. */
  predicate Settled(s: AuthState)
  {
    !(s.loading && s.error.Some?)
  }

  /** What an awaited service call may throw: an `Error` object with its message, or any other value. */
  datatype Thrown = ErrorObject(message: string) | OtherValue

  /** How an awaited service call ends. */
  datatype Completion<T> = Returned(value: T) | Threw(thrown: Thrown)

  const LoginFallback: string := "Login failed"
  const SignupFallback: string := "Signup failed"
  const LogoutFallback: string := "Logout failed"

  /** `error instanceof Error ? error.message : fallback` */
  function ErrorMessage(t: Thrown, fallback: string): string
  {
    match t
    case ErrorObject(m) => m
    case OtherValue => fallback
  }

  /** The dispatches of `login` (with `LoginFallback`) and of `signup` (with `SignupFallback`). */
  function AttemptTrace(reply: Completion<User>, fallback: string): seq<AuthAction>
  {
    [SetLoading(true), ClearError] +
    match reply
    case Returned(u) => [SetUser(Some(u))]
    case Threw(t) => [SetError(Some(ErrorMessage(t, fallback)))]
  }

  /** The dispatches of `logout`. */
  function LogoutTrace(reply: Completion<()>): seq<AuthAction>
  {
    [SetLoading(true)] +
    match reply
    case Returned(_) => [SetUser(None)]
    case Threw(t) => [SetError(Some(ErrorMessage(t, LogoutFallback)))]
  }

  /**
   * A login or signup ends with the returned user, not loading and no error,
   * whatever came before; a failed one ends with the thrown message (or the
   * fallback), not loading, and the user it started with.
   */
  lemma AttemptOutcome(s: AuthState, reply: Completion<User>, fallback: string)
    ensures reply.Returned? ==> Run(s, AttemptTrace(reply, fallback)) == AuthState(Some(reply.value), false, None)
    ensures reply.Threw? ==>
              Run(s, AttemptTrace(reply, fallback)) ==
              AuthState(s.user, false, Some(ErrorMessage(reply.thrown, fallback)))
    ensures reply.Threw? && reply.thrown.OtherValue? ==> Run(s, AttemptTrace(reply, fallback)).error == Some(fallback)
    ensures Settled(Run(s, AttemptTrace(reply, fallback)))
  {
    var t := AttemptTrace(reply, fallback);
    assert t == [t[0]] + ([t[1]] + [t[2]]);
    RunAppend(s, [t[0]], [t[1]] + [t[2]]);
    RunAppend(Reduce(s, t[0]), [t[1]], [t[2]]);
  }

  /** While a login or signup waits for the service, the state is loading, has no error, and keeps its user. */
  lemma AttemptPending(s: AuthState, reply: Completion<User>, fallback: string)
    ensures Run(s, AttemptTrace(reply, fallback)[..2]) == AuthState(s.user, true, None)
  {
    var t := AttemptTrace(reply, fallback)[..2];
    assert t == [SetLoading(true)] + [ClearError];
    RunAppend(s, [SetLoading(true)], [ClearError]);
  }

  /**
   * A successful logout ends with no user, not loading and no error; a failed
   * one ends with the thrown message (or the fallback), not loading, and the
   * user it started with.
   */
  lemma LogoutOutcome(s: AuthState, reply: Completion<()>)
    ensures reply.Returned? ==> Run(s, LogoutTrace(reply)) == AuthState(None, false, None)
    ensures reply.Threw? ==>
              Run(s, LogoutTrace(reply)) == AuthState(s.user, false, Some(ErrorMessage(reply.thrown, LogoutFallback)))
    ensures Settled(Run(s, LogoutTrace(reply)))
  {
    var t := LogoutTrace(reply);
    assert t == [t[0]] + [t[1]];
    RunAppend(s, [t[0]], [t[1]]);
  }

  /**
   * `logout` raises `loading` without clearing the error, so while it waits
   * for the service an earlier error is still shown beside the spinner.
   */
  lemma LogoutPendingKeepsError(s: AuthState, reply: Completion<()>)
    ensures Run(s, LogoutTrace(reply)[..1]) == AuthState(s.user, true, s.error)
    ensures s.error.Some? ==> !Settled(Run(s, LogoutTrace(reply)[..1]))
  {
  }

  /** The demo service's `login` as an awaited call: its errors are always `Error` objects. */
  function LoginCall(c: LoginCredentials, loadedAt: string): (r: Completion<User>)
    ensures r.Threw? ==> r.thrown.ErrorObject?
  {
    match Login(c, loadedAt)
    case Success(u) => Returned(u)
    case Failure(m) => Threw(ErrorObject(m))
  }

  /** The demo service's `signup` as an awaited call: its errors are always `Error` objects. */
  function SignupCall(c: SignupCredentials, loadedAt: string): (r: Completion<User>)
    ensures r.Threw? ==> r.thrown.ErrorObject?
  {
    match Signup(c, loadedAt)
    case Success(u) => Returned(u)
    case Failure(m) => Threw(ErrorObject(m))
  }

  /** Against the demo service, the error a failed login leaves is exactly the validator's message, never the fallback. */
  lemma DemoLoginError(s: AuthState, c: LoginCredentials, loadedAt: string)
    requires Login(c, loadedAt).Failure?
    ensures Run(s, AttemptTrace(LoginCall(c, loadedAt), LoginFallback)) ==
            AuthState(s.user, false, Some(Login(c, loadedAt).error))
  {
    AttemptOutcome(s, LoginCall(c, loadedAt), LoginFallback);
  }

  /** Against the demo service, the error a failed signup leaves is exactly the validator's message, never the fallback. */
  lemma DemoSignupError(s: AuthState, c: SignupCredentials, loadedAt: string)
    requires Signup(c, loadedAt).Failure?
    ensures Run(s, AttemptTrace(SignupCall(c, loadedAt), SignupFallback)) ==
            AuthState(s.user, false, Some(Signup(c, loadedAt).error))
  {
    AttemptOutcome(s, SignupCall(c, loadedAt), SignupFallback);
  }

  /** Logging in as `a@demo.com` with password `short` while signed out leaves no user and the error "Invalid credentials". */
  lemma ShortPasswordScenario(loadedAt: string)
    ensures Run(AuthState(None, false, None),
                AttemptTrace(LoginCall(LoginCredentials("a@demo.com", "short"), loadedAt), LoginFallback)) ==
            AuthState(None, false, Some(InvalidCredentialsMessage))
  {
    assert Utf16Length("short") == 5;
    DemoLoginError(AuthState(None, false, None), LoginCredentials("a@demo.com", "short"), loadedAt);
  }

  /**
   * `AuthProvider`: the reducer-held state and the session store it writes.
   * The reply of the service call each operation awaits is a parameter; for
   * the demo service it is `LoginCall` or `SignupCall` of the credentials.
   */
  class AuthProvider {
    var state: AuthState
    const store: SessionStore

    /** `useReducer(authReducer, initialState)` */
    constructor (store: SessionStore)
      ensures state == InitialState() && this.store == store
    {
      state := InitialState();
      this.store := store;
    }

    /** `dispatch` */
    method Dispatch(a: AuthAction)
      modifies this
      ensures state == Reduce(old(state), a)
    {
      state := Reduce(state, a);
    }

    /** The mount effect: take the user already in the store, if any. */
    method Mount()
      modifies this
      ensures state == AuthState(store.CurrentUser(), false, None)
      ensures Settled(state)
    {
      var current := store.CurrentUser();
      Dispatch(SetUser(current));
    }

    /** The body shared by `login` and `signup`. */
    method Attempt(reply: Completion<User>, fallback: string)
      modifies this, store
      ensures state == Run(old(state), AttemptTrace(reply, fallback))
      ensures reply.Returned? ==>
                state == AuthState(Some(reply.value), false, None) &&
                store.items == old(store.items)[StorageKey := reply.value]
      ensures reply.Threw? ==>
                state == AuthState(old(state).user, false, Some(ErrorMessage(reply.thrown, fallback))) &&
                store.items == old(store.items)
      ensures Settled(state)
    {
      ghost var s0 := state;
      AttemptOutcome(s0, reply, fallback);
      Dispatch(SetLoading(true));
      Dispatch(ClearError);
      match reply
      case Returned(u) =>
        store.SetCurrentUser(u);
        Dispatch(SetUser(Some(u)));
      case Threw(t) =>
        Dispatch(SetError(Some(ErrorMessage(t, fallback))));
    }

    /** `login` */
    method Login(reply: Completion<User>)
      modifies this, store
      ensures state == Run(old(state), AttemptTrace(reply, LoginFallback))
      ensures reply.Returned? ==>
                state == AuthState(Some(reply.value), false, None) &&
                store.items == old(store.items)[StorageKey := reply.value]
      ensures reply.Threw? ==>
                state == AuthState(old(state).user, false, Some(ErrorMessage(reply.thrown, LoginFallback))) &&
                store.items == old(store.items)
      ensures Settled(state)
    {
      Attempt(reply, LoginFallback);
    }

    /** `signup` */
    method Signup(reply: Completion<User>)
      modifies this, store
      ensures state == Run(old(state), AttemptTrace(reply, SignupFallback))
      ensures reply.Returned? ==>
                state == AuthState(Some(reply.value), false, None) &&
                store.items == old(store.items)[StorageKey := reply.value]
      ensures reply.Threw? ==>
                state == AuthState(old(state).user, false, Some(ErrorMessage(reply.thrown, SignupFallback))) &&
                store.items == old(store.items)
      ensures Settled(state)
    {
      Attempt(reply, SignupFallback);
    }

    /** `logout`: on success the service has removed the stored user. */
    method Logout(reply: Completion<()>)
      modifies this, store
      ensures state == Run(old(state), LogoutTrace(reply))
      ensures reply.Returned? ==>
                state == AuthState(None, false, None) && store.items == old(store.items) - {StorageKey}
      ensures reply.Threw? ==>
                state == AuthState(old(state).user, false, Some(ErrorMessage(reply.thrown, LogoutFallback))) &&
                store.items == old(store.items)
      ensures Settled(state)
    {
      ghost var s0 := state;
      LogoutOutcome(s0, reply);
      Dispatch(SetLoading(true));
      match reply
      case Returned(_) =>
        store.Logout();
        Dispatch(SetUser(None));
      case Threw(t) =>
        Dispatch(SetError(Some(ErrorMessage(t, LogoutFallback))));
    }
  }
}
