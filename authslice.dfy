/**
 * front-end/services/authSlice.ts: the Redux slice "auth" holding the access token. Its
 * reducer maps a state and an action to the next state; an absent state (Redux's first
 * call) starts from the initial state, and an action of another slice leaves the state alone.
 */
module AuthSlice {
  import opened Wrappers

  /** The slice state: `token: string | null`. */
  datatype AuthState = AuthState(token: Option<string>)

  const InitialState: AuthState := AuthState(None)

  /** The slice's actions; `Foreign` is any action type the slice does not handle. */
  datatype Action = SetAuthData(token: string) | ClearAuthData | Foreign

  /** The slice reducer. setAuthData spreads its payload over the state; clearAuthData sets the token to null. */
  function Reduce(state: Option<AuthState>, action: Action): AuthState
  {
    var s := if state.None? then InitialState else state.value;
    match action
    case SetAuthData(t) => s.(token := Some(t))
    case ClearAuthData => s.(token := None)
    case Foreign => s
  }

  /** The state after dispatching the actions in order, starting from the store's first call. */
  function Run(actions: seq<Action>): AuthState
  {
    if actions == [] then Reduce(None, Foreign)
    else Reduce(Some(Run(actions[..|actions| - 1])), actions[|actions| - 1])
  }

  /** The token the last setAuthData after the last clearAuthData left, found by scanning back. */
  function LastToken(actions: seq<Action>): (r: Option<string>)
    ensures r.Some? ==> exists i | 0 <= i < |actions| :: actions[i] == SetAuthData(r.value)
  {
    if actions == [] then None
    else match actions[|actions| - 1]
      case SetAuthData(t) => Some(t)
      case ClearAuthData => None
      case Foreign =>
        var r := LastToken(actions[..|actions| - 1]);
        if r.Some? then
          var i :| 0 <= i < |actions| - 1 && actions[..|actions| - 1][i] == SetAuthData(r.value);
          assert actions[i] == SetAuthData(r.value);
          r
        else r
  }

  /** The store starts with no token. */
  lemma StartsWithoutToken()
    ensures Run([]) == InitialState && InitialState.token == None
  {
  }

  /** setAuthData replaces the token with the payload's, whatever the state was. */
  lemma SetReplacesToken(state: Option<AuthState>, t: string)
    ensures Reduce(state, SetAuthData(t)).token == Some(t)
  {
  }

  /** clearAuthData leaves no token, and clearing again changes nothing. */
  lemma ClearIdempotent(state: Option<AuthState>)
    ensures Reduce(state, ClearAuthData) == InitialState
    ensures Reduce(Some(Reduce(state, ClearAuthData)), ClearAuthData) == Reduce(state, ClearAuthData)
  {
  }

  /** Setting a token and then clearing it is back at the initial state. */
  lemma SetThenClear(state: Option<AuthState>, t: string)
    ensures Reduce(Some(Reduce(state, SetAuthData(t))), ClearAuthData) == InitialState
  {
  }

  /** An action of another slice leaves the state as it is. */
  lemma ForeignKeepsState(state: AuthState)
    ensures Reduce(Some(state), Foreign) == state
  {
  }

  /** After any run of actions the token is the one the last set left, unless a clear came after it. */
  lemma {:induction false} RunToken(actions: seq<Action>)
    ensures Run(actions).token == LastToken(actions)
  {
    if actions != [] {
      RunToken(actions[..|actions| - 1]);
    }
  }
}
