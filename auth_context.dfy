/** The client's authentication state and its reducer
    (client/src/contexts/AuthContext.jsx). The provider's side effects
    (local storage, calls to the server, notifications) are not modelled;
    the stored token enters as a parameter of the initial state. */
module AuthContext {
  import opened Js

  /** The fields of a user object. */
  type Fields = map<string, Value>

  datatype AuthState = AuthState(
    user: Option<Fields>,
    token: Option<string>,
    isAuthenticated: bool,
    isLoading: bool,
    error: Value,
    isNewUser: Value)

  datatype AuthAction =
    | AuthStart
    | AuthSuccess(user: Option<Fields>, token: Option<string>, isNewUser: Value)
    | AuthFailure(message: Value)
    | Logout
    | UpdateUser(changes: Fields)
    | ClearError
    /** Any action type other than the six above; the reducer never sees a
        known type under this constructor. */
    | Unrecognized(kind: string)

  /** The state before any action: loading, with the token kept in storage. */
  function InitialState(storedToken: Option<string>): AuthState {
    AuthState(None, storedToken, false, true, Null, Bool(false))
  }

  function AuthReducer(state: AuthState, action: AuthAction): AuthState {
    match action
    case AuthStart => state.(isLoading := true, error := Null)
    case AuthSuccess(user, token, isNewUser) =>
      state.(user := user, token := token, isAuthenticated := true, isLoading := false,
             error := Null, isNewUser := Or(isNewUser, Bool(false)))
    case AuthFailure(message) =>
      state.(user := None, token := None, isAuthenticated := false, isLoading := false,
             error := message, isNewUser := Bool(false))
    case Logout =>
      state.(user := None, token := None, isAuthenticated := false, isLoading := false,
             error := Null, isNewUser := Bool(false))
    case UpdateUser(changes) => state.(user := Some(Merge(state.user, changes)))
    case ClearError => state.(error := Null)
    case Unrecognized(_) => state
  }

  /** AUTH_START raises the loading flag and clears the error; the session
      fields stay as they were. */
  lemma AuthStartKeepsSession(s: AuthState)
    ensures var r := AuthReducer(s, AuthStart);
      r.isLoading && r.error == Null
      && r.user == s.user && r.token == s.token
      && r.isAuthenticated == s.isAuthenticated && r.isNewUser == s.isNewUser
  {
  }

  /** AUTH_SUCCESS installs the user and token, authenticates, stops
      loading, clears the error, and takes `isNewUser` from the payload with
      `false` standing in for a falsy flag. */
  lemma AuthSuccessInstalls(s: AuthState, user: Option<Fields>, token: Option<string>, isNewUser: Value)
    ensures var r := AuthReducer(s, AuthSuccess(user, token, isNewUser));
      r.user == user && r.token == token && r.isAuthenticated && !r.isLoading && r.error == Null
      && (Truthy(isNewUser) ==> r.isNewUser == isNewUser)
      && (!Truthy(isNewUser) ==> r.isNewUser == Bool(false))
  {
  }

  /** AUTH_FAILURE drops the session and records the payload as the error. */
  lemma AuthFailureDropsSession(s: AuthState, message: Value)
    ensures var r := AuthReducer(s, AuthFailure(message));
      r.user == None && r.token == None && !r.isAuthenticated && !r.isLoading
      && r.error == message && r.isNewUser == Bool(false)
  {
  }

  /** LOGOUT is AUTH_FAILURE without an error, whatever the failure's message. */
  lemma LogoutIsSilentFailure(s: AuthState, message: Value)
    ensures AuthReducer(s, Logout) == AuthReducer(s, AuthFailure(message)).(error := Null)
  {
  }

  /** UPDATE_USER lays the changed fields over the user's (an absent user
      counts as no fields) and touches nothing else. */
  lemma UpdateUserMerges(s: AuthState, changes: Fields)
    ensures var r := AuthReducer(s, UpdateUser(changes));
      r.user.Some?
      && (forall k :: k in changes ==> k in r.user.value && r.user.value[k] == changes[k])
      && (s.user.Some? ==> forall k :: k in s.user.value && k !in changes ==>
            k in r.user.value && r.user.value[k] == s.user.value[k])
      && (forall k :: k in r.user.value ==> k in changes || (s.user.Some? && k in s.user.value))
      && r.(user := s.user) == s
  {
  }

  /** CLEAR_ERROR changes only the error, and a second one changes nothing. */
  lemma ClearErrorIdempotent(s: AuthState)
    ensures AuthReducer(s, ClearError).(error := s.error) == s
    ensures AuthReducer(AuthReducer(s, ClearError), ClearError) == AuthReducer(s, ClearError)
  {
  }

  /** An action of any other type leaves the state as it is. */
  lemma UnrecognizedIsIdentity(s: AuthState, kind: string)
    ensures AuthReducer(s, Unrecognized(kind)) == s
  {
  }

  /** AUTH_SUCCESS is the only action that can authenticate. */
  lemma OnlySuccessAuthenticates(s: AuthState, a: AuthAction)
    requires !s.isAuthenticated && AuthReducer(s, a).isAuthenticated
    ensures a.AuthSuccess?
  {
  }

  /** The state after dispatching `actions` in order. */
  function Replay(s: AuthState, actions: seq<AuthAction>): AuthState
    decreases |actions|
  {
    if actions == [] then s else Replay(AuthReducer(s, actions[0]), actions[1..])
  }

  /** Without an AUTH_SUCCESS among the dispatched actions, a session that
      was not authenticated never becomes so. */
  lemma {:induction false} NoSuccessNoSession(s: AuthState, actions: seq<AuthAction>)
    requires !s.isAuthenticated
    requires forall i :: 0 <= i < |actions| ==> !actions[i].AuthSuccess?
    ensures !Replay(s, actions).isAuthenticated
    decreases |actions|
  {
    if actions != [] {
      assert !actions[0].AuthSuccess?;
      NoSuccessNoSession(AuthReducer(s, actions[0]), actions[1..]);
    }
  }

  /** After a LOGOUT, only an AUTH_SUCCESS among the later actions can
      restore a session. */
  lemma LogoutThenNoSuccess(s: AuthState, later: seq<AuthAction>)
    requires forall i :: 0 <= i < |later| ==> !later[i].AuthSuccess?
    ensures !Replay(s, [Logout] + later).isAuthenticated
  {
    assert ([Logout] + later)[1..] == later;
    NoSuccessNoSession(AuthReducer(s, Logout), later);
  }

  /** The provider starts signed out with the stored token, and no run of
      actions without an AUTH_SUCCESS signs anyone in from there. */
  lemma StartSignedOut(storedToken: Option<string>, actions: seq<AuthAction>)
    requires forall i :: 0 <= i < |actions| ==> !actions[i].AuthSuccess?
    ensures InitialState(storedToken).token == storedToken && InitialState(storedToken).user == None
    ensures !Replay(InitialState(storedToken), actions).isAuthenticated
  {
    NoSuccessNoSession(InitialState(storedToken), actions);
  }
}
