/**
 * The client-side auth store: three fields, `user`, `session` and `isLoading`,
 * updated by four actions. What the auth backend answers to each action is an
 * input to that action.
 */
module AuthStore {
  import opened Wrappers

  datatype User = User(id: string, email: Option<string>)
  datatype Session = Session(accessToken: string, user: User)
  datatype AuthError = AuthError(message: string)

  /** `{ data: { user, session }, error }` as returned by `signInWithPassword` and `signUp`. */
  datatype AuthResponse = AuthResponse(user: Option<User>, session: Option<Session>, error: Option<AuthError>)

  datatype AuthState = AuthState(user: Option<User>, session: Option<Session>, isLoading: bool)

  const INITIAL := AuthState(None, None, true)

  /** `signIn` and `signUp` alike: take the user and session only when the backend returned a session. */
  function AfterSignIn(s: AuthState, resp: AuthResponse): (r: AuthState)
    ensures r.isLoading == s.isLoading
  {
    if resp.session.Some? then s.(user := resp.user, session := resp.session) else s
  }

  function AfterSignOut(s: AuthState): (r: AuthState)
    ensures r.user.None? && r.session.None?
    ensures r.isLoading == s.isLoading
  {
    s.(user := None, session := None)
  }

  /** After a refresh: the user is the session's user (null without a session), the session is the one
      reported, and loading is over. */
  function AfterRefresh(s: AuthState, session: Option<Session>): (r: AuthState)
    ensures !r.isLoading && r.session == session
    ensures r.user.Some? <==> session.Some?
  {
    AuthState(if session.Some? then Some(session.value.user) else None, session, false)
  }

  /** The store's user is the user of its session, and there is none without a session. */
  predicate Consistent(s: AuthState) {
    match s.session
    case None => s.user.None?
    case Some(ses) => s.user == Some(ses.user)
  }

  /** A backend answer whose top-level user is its session's user, as Supabase returns them. */
  predicate Coherent(resp: AuthResponse) {
    resp.session.Some? ==> resp.user == Some(resp.session.value.user)
  }

  datatype Action =
    | SignIn(resp: AuthResponse)
    | SignUp(resp: AuthResponse)
    | SignOut
    | RefreshSession(session: Option<Session>)

  function Step(s: AuthState, a: Action): AuthState {
    match a
    case SignIn(resp) => AfterSignIn(s, resp)
    case SignUp(resp) => AfterSignIn(s, resp)
    case SignOut => AfterSignOut(s)
    case RefreshSession(ses) => AfterRefresh(s, ses)
  }

  /** The state after a sequence of actions, first action first. */
  function Run(s: AuthState, actions: seq<Action>): AuthState
    decreases |actions|
  {
    if actions == [] then s else Run(Step(s, actions[0]), actions[1..])
  }

  /** `signIn` changes nothing unless a session came back, and then sets exactly user and session. */
  lemma SignInOnlyWithSession(s: AuthState, resp: AuthResponse)
    ensures resp.session.None? ==> AfterSignIn(s, resp) == s
    ensures resp.session.Some? ==> AfterSignIn(s, resp) == AuthState(resp.user, resp.session, s.isLoading)
  {
  }

  /** Signing out twice is signing out once. */
  lemma SignOutIdempotent(s: AuthState)
    ensures AfterSignOut(AfterSignOut(s)) == AfterSignOut(s)
  {
  }

  /** After `refreshSession` the user is the session's user, or null when there is no session. */
  lemma RefreshConsistent(s: AuthState, session: Option<Session>)
    ensures Consistent(AfterRefresh(s, session))
  {
  }

  /** Every action keeps the store consistent, given backend answers that are coherent. */
  lemma {:induction false} RunKeepsConsistent(s: AuthState, actions: seq<Action>)
    requires Consistent(s)
    requires forall i :: 0 <= i < |actions| && (actions[i].SignIn? || actions[i].SignUp?) ==> Coherent(actions[i].resp)
    ensures Consistent(Run(s, actions))
    decreases |actions|
  {
    if actions != [] {
      RunKeepsConsistent(Step(s, actions[0]), actions[1..]);
    }
  }

  /** Only `refreshSession` touches `isLoading`: from the initial state it stays true until the first refresh. */
  lemma {:induction false} LoadingUntilRefresh(s: AuthState, actions: seq<Action>)
    ensures Run(s, actions).isLoading ==
      if exists i :: 0 <= i < |actions| && actions[i].RefreshSession? then false else s.isLoading
    decreases |actions|
  {
    if actions != [] {
      LoadingUntilRefresh(Step(s, actions[0]), actions[1..]);
      if actions[0].RefreshSession? {
      } else {
        forall i | 1 <= i < |actions| && actions[i].RefreshSession?
          ensures exists j :: 0 <= j < |actions[1..]| && actions[1..][j].RefreshSession?
        {
          assert actions[1..][i - 1] == actions[i];
        }
        forall j | 0 <= j < |actions[1..]| && actions[1..][j].RefreshSession?
          ensures exists i :: 0 <= i < |actions| && actions[i].RefreshSession?
        {
          assert actions[j + 1] == actions[1..][j];
        }
      }
    }
  }

  /** The zustand store. */
  class Store {
    var user: Option<User>
    var session: Option<Session>
    var isLoading: bool

    function State(): AuthState
      reads this
    {
      AuthState(user, session, isLoading)
    }

    constructor ()
      ensures State() == INITIAL
    {
      user := None;
      session := None;
      isLoading := true;
    }

    /** `signIn(email, password)`; `resp` is the backend's answer. Returns the backend error as is. */
    method SignIn(resp: AuthResponse) returns (error: Option<AuthError>)
      modifies this
      ensures State() == AfterSignIn(old(State()), resp)
      ensures error == resp.error
    {
      if resp.session.Some? {
        user, session := resp.user, resp.session;
      }
      error := resp.error;
    }

    /** `signUp(email, password)`: the same shape as `signIn`. */
    method SignUp(resp: AuthResponse) returns (error: Option<AuthError>)
      modifies this
      ensures State() == AfterSignIn(old(State()), resp)
      ensures error == resp.error
    {
      if resp.session.Some? {
        user, session := resp.user, resp.session;
      }
      error := resp.error;
    }

    method SignOut()
      modifies this
      ensures State() == AfterSignOut(old(State()))
    {
      user, session := None, None;
    }

    /** `refreshSession()`; `current` is the session the backend reports. */
    method RefreshSession(current: Option<Session>)
      modifies this
      ensures State() == AfterRefresh(old(State()), current)
    {
      user := if current.Some? then Some(current.value.user) else None;
      session := current;
      isLoading := false;
    }
  }
}
