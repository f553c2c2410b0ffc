/**
 * The parts of net/http the handlers use: status codes, http.Error, JSON responses and
 * Set-Cookie values. A JSON body is kept as the value that was encoded.
 */
module HttpModel {
  import opened Models

  const StatusOK: int := 200
  const StatusCreated: int := 201
  const StatusNoContent: int := 204
  const StatusBadRequest: int := 400
  const StatusUnauthorized: int := 401
  const StatusNotFound: int := 404
  const StatusConflict: int := 409
  const StatusInternalServerError: int := 500

  datatype SameSite = SameSiteDefaultMode | SameSiteLaxMode | SameSiteStrictMode | SameSiteNoneMode

  /** http.Cookie; expires is in Unix seconds. */
  datatype Cookie = Cookie(
    name: string,
    value: string,
    path: string,
    expires: int,
    httpOnly: bool,
    secure: bool,
    sameSite: SameSite)

  /** The values the handlers hand to json.NewEncoder(w).Encode. */
  datatype Json =
    | JString(text: string)
    | JUser(user: User)
    | JSubscription(subscription: Subscription)
    | JSubscriptions(subscriptions: seq<Subscription>)
    | JAuth(message: string, token: string, user: User)            // models.AuthResponse
    | JAccessToken(message: string, token: string)                 // models.AccessTokenResponse

  datatype Body = NoBody | Text(text: string) | JsonBody(value: Json)

  datatype Response = Response(status: int, headers: map<string, string>, cookies: seq<Cookie>, body: Body)

  /** http.Error: the message and a newline as plain text, with sniffing disabled. */
  function HttpError(msg: string, code: int): Response
  {
    Response(code, map["Content-Type" := "text/plain; charset=utf-8", "X-Content-Type-Options" := "nosniff"], [], Text(msg + "\n"))
  }

  /** Content-Type set to application/json, then the status (200 unless written), then the encoded value. */
  function JsonResponse(status: int, cookies: seq<Cookie>, value: Json): Response
  {
    Response(status, map["Content-Type" := "application/json"], cookies, JsonBody(value))
  }
}
