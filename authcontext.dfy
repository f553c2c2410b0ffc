/**
 * front-end/contexts/AuthContext.tsx: the signed-in user (React state), the token in
 * localStorage and the navigation after sign-in. The register and login mutations are the
 * server's answers to the request they send; toast.promise is recorded as the message it
 * finally shows.
 */
module AuthContext {
  import opened Wrappers
  import opened Models
  import opened Browser

  const DashboardPath: string := "/dashboard"
  const RegisterFailed: string := "Failed to register."
  const LoginFailed: string := "Failed to login"
  const SuccessToast: string := "Success"
  const OutsideProvider: string := "useAuth must be used within an AuthProvider"

  /** The register mutation's result: data, or an error that carries the response body (`data`) when one was read. */
  datatype RegisterReply = Registered(user: User, token: string) | RegisterError(data: Option<string>)

  /** The login mutation's result. */
  datatype LoginReply = LoggedIn(user: User, token: string) | LoginError

  class AuthProvider {
    var user: Option<User>
    var toasts: seq<string>
    const window: Window
    const registerApi: RegisterReq -> RegisterReply
    const loginApi: LoginRequest -> LoginReply

    constructor (window: Window, registerApi: RegisterReq -> RegisterReply, loginApi: LoginRequest -> LoginReply)
      ensures user == None && toasts == []
      ensures this.window == window && this.registerApi == registerApi && this.loginApi == loginApi
    {
      user := None;
      toasts := [];
      this.window := window;
      this.registerApi := registerApi;
      this.loginApi := loginApi;
    }

    /** signUpHandler: on success the user, the stored token and the page change; on failure it throws and nothing changes. */
    method SignUpHandler(name: string, email: string, password: string) returns (thrown: Option<string>)
      modifies this`user, window`storage, window`pathname
      ensures var reply := registerApi(RegisterReq(email, password, name));
              if reply.Registered? then
                && thrown == None && user == Some(reply.user)
                && window.storage == old(window.storage)[TokenKey := reply.token]
                && window.pathname == DashboardPath
              else
                && thrown == Some(if reply.data.Some? then reply.data.value else RegisterFailed)
                && user == old(user) && window.storage == old(window.storage) && window.pathname == old(window.pathname)
    {
      var reply := registerApi(RegisterReq(email, password, name));
      if reply.RegisterError? {
        if reply.data.Some? {
          return Some(reply.data.value);
        }
        return Some(RegisterFailed);
      }
      user := Some(reply.user);
      window.SetItem(TokenKey, reply.token);
      window.Navigate(DashboardPath);
      thrown := None;
    }

    /** signInHandler: the same effects as signUpHandler, with one fixed failure message. */
    method SignInHandler(email: string, password: string) returns (thrown: Option<string>)
      modifies this`user, window`storage, window`pathname
      ensures var reply := loginApi(LoginRequest(email, password));
              if reply.LoggedIn? then
                && thrown == None && user == Some(reply.user)
                && window.storage == old(window.storage)[TokenKey := reply.token]
                && window.pathname == DashboardPath
              else
                && thrown == Some(LoginFailed)
                && user == old(user) && window.storage == old(window.storage) && window.pathname == old(window.pathname)
    {
      var reply := loginApi(LoginRequest(email, password));
      if reply.LoginError? {
        return Some(LoginFailed);
      }
      user := Some(reply.user);
      window.SetItem(TokenKey, reply.token);
      window.Navigate(DashboardPath);
      thrown := None;
    }

    /**
     * signUp: hands the handler's promise to toast.promise and neither awaits nor returns it,
     * so it never fails; the failure only shows as a toast. The model applies the handler's
     * outcome before returning, whereas the program returns while the request is pending.
     */
    method SignUp(name: string, email: string, password: string)
      modifies this`user, this`toasts, window`storage, window`pathname
      ensures var reply := registerApi(RegisterReq(email, password, name));
              if reply.Registered? then
                && toasts == old(toasts) + [SuccessToast] && user == Some(reply.user)
                && window.storage == old(window.storage)[TokenKey := reply.token]
                && window.pathname == DashboardPath
              else
                && toasts == old(toasts) + [if reply.data.Some? then reply.data.value else RegisterFailed]
                && user == old(user) && window.storage == old(window.storage) && window.pathname == old(window.pathname)
    {
      var thrown := SignUpHandler(name, email, password);
      toasts := toasts + [if thrown.None? then SuccessToast else thrown.value];
    }

    /** signIn: like signUp, over signInHandler. */
    method SignIn(email: string, password: string)
      modifies this`user, this`toasts, window`storage, window`pathname
      ensures var reply := loginApi(LoginRequest(email, password));
              if reply.LoggedIn? then
                && toasts == old(toasts) + [SuccessToast] && user == Some(reply.user)
                && window.storage == old(window.storage)[TokenKey := reply.token]
                && window.pathname == DashboardPath
              else
                && toasts == old(toasts) + [LoginFailed]
                && user == old(user) && window.storage == old(window.storage) && window.pathname == old(window.pathname)
    {
      var thrown := SignInHandler(email, password);
      toasts := toasts + [if thrown.None? then SuccessToast else thrown.value];
    }

    /** logout: no user and no stored token; the page stays. */
    method Logout()
      modifies this`user, window`storage
      ensures user == None && window.storage == old(window.storage) - {TokenKey}
    {
      user := None;
      window.RemoveItem(TokenKey);
    }

    /** The user-detail query's skip flag; inBrowser is `typeof window !== "undefined"`. A stored "" counts as no token. */
    predicate SkipUserDetail(inBrowser: bool)
      reads this, window
    {
      (inBrowser && (window.GetItem(TokenKey).None? || window.GetItem(TokenKey).value == "")) || user.Some?
    }

    /** The effect on a new query result: the user becomes whatever the query holds, undefined included. */
    method OnUserDetail(detail: Option<User>)
      modifies this`user
      ensures user == detail
    {
      user := detail;
    }
  }

  /** The query is fetched only in the browser, with a non-empty stored token and no user yet. */
  lemma SkipUserDetailIff(p: AuthProvider, inBrowser: bool)
    ensures !p.SkipUserDetail(inBrowser) <==>
              && p.user.None?
              && (inBrowser ==> TokenKey in p.window.storage && p.window.storage[TokenKey] != "")
  {
  }

  /** useAuth: the provider's value, or the error thrown outside a provider. */
  function UseAuth(context: Option<AuthProvider>): (r: Result<AuthProvider, string>)
    ensures r.Err? <==> context.None?
    ensures r.Err? ==> r.error == OutsideProvider
    ensures r.Ok? ==> r.value == context.value
  {
    if context.None? then Err(OutsideProvider) else Ok(context.value)
  }

  /** Logging out twice is logging out once. */
  method LogoutIdempotent(p: AuthProvider)
    modifies p`user, p.window`storage
    ensures p.user == None && p.window.storage == old(p.window.storage) - {TokenKey}
  {
    p.Logout();
    p.Logout();
  }
}
