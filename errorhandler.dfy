/**
 * front-end/services/middleware/errorHandleMiddleware.ts: the base query every API call goes
 * through. It sends one request carrying the stored token and, on a 401 while the user is on
 * a protected page, sends the user to the login page and forgets the token.
 */
module ErrorHandler {
  import opened Wrappers
  import opened JsText
  import opened Browser

  const LoginPath: string := "/login"

  /** A request as sent: the query arguments and the Authorization header value. */
  datatype Request = Request(args: string, authorization: string)

  /** What fetchBaseQuery resolves to: data, or an error with the response status when a response came. */
  datatype FetchResult = Data(body: string) | Failure(status: Option<int>, data: string)

  /** The API server as the client sees it: the requests sent so far, and the answer to each. */
  class Network {
    var sent: seq<Request>
    const respond: Request -> FetchResult

    constructor (respond: Request -> FetchResult)
      ensures sent == [] && this.respond == respond
    {
      sent := [];
      this.respond := respond;
    }

    method Fetch(req: Request) returns (r: FetchResult)
      modifies this`sent
      ensures sent == old(sent) + [req] && r == respond(req)
    {
      sent := sent + [req];
      r := respond(req);
    }
  }

  /** The header prepareHeaders sets: a template literal, so a missing token is spelled "null". */
  function AuthorizationHeader(stored: Option<string>): string
  {
    "Bearer " + (if stored.Some? then stored.value else "null")
  }

  /** The 401 handling applies only on pages whose path mentions subscriptions or the dashboard. */
  predicate LogsOutOn401(pathname: string)
  {
    Includes(pathname, "/subscriptions") || Includes(pathname, "/dashboard")
  }

  /** A Next.js router instance, opaque here. */
  datatype Router = Router(id: nat)

  /** The module: its `router` variable, the window it runs in and the network it talks to. */
  class ApiClient {
    var router: Option<Router>
    const window: Window
    const network: Network

    constructor (window: Window, network: Network)
      ensures router == None && this.window == window && this.network == network
    {
      router := None;
      this.window := window;
      this.network := network;
    }

    /** setRouter. */
    method SetRouter(r: Router)
      modifies this`router
      ensures router == Some(r)
    {
      router := Some(r);
    }

    /**
     * errorHandlerMiddleware: exactly one request, carrying the stored token, and its result
     * returned unchanged; a 401 on a protected page moves to /login and removes the token.
     */
    method BaseQuery(args: string) returns (result: FetchResult)
      modifies network`sent, window`pathname, window`storage
      ensures network.sent == old(network.sent) + [Request(args, NormalizeHeaderValue(AuthorizationHeader(old(window.GetItem(TokenKey)))))]
      ensures result == network.respond(network.sent[|network.sent| - 1])
      ensures result.Failure? && result.status == Some(401) && LogsOutOn401(old(window.pathname)) ==>
                window.pathname == LoginPath && window.storage == old(window.storage) - {TokenKey}
      ensures !(result.Failure? && result.status == Some(401) && LogsOutOn401(old(window.pathname))) ==>
                window.pathname == old(window.pathname) && window.storage == old(window.storage)
    {
      var header := AuthorizationHeader(window.GetItem(TokenKey));
      result := network.Fetch(Request(args, NormalizeHeaderValue(header)));
      if result.Failure? && result.status == Some(401) {
        if LogsOutOn401(window.pathname) {
          window.Navigate(LoginPath);
          window.RemoveItem(TokenKey);
        }
      }
    }
  }

  /** The dashboard and the subscription pages are protected; the login and register pages are not. */
  lemma ProtectedPages()
    ensures LogsOutOn401("/dashboard") && LogsOutOn401("/subscriptions/add")
    ensures !LogsOutOn401("/login") && !LogsOutOn401("/register")
  {
    assert OccursAt("/dashboard", "/dashboard", 0);
    assert OccursAt("/subscriptions/add", "/subscriptions", 0);
  }
}
