/**
 * How the two halves meet: the header the front-end's baseQuery builds from localStorage
 * (front-end/services/middleware/errorHandleMiddleware.ts), as fetch sends it, read by the
 * server's auth middleware (back-end/internal/middleware/auth.go).
 */
module EndToEnd {
  import opened Wrappers
  import opened Models
  import opened Jwt
  import opened HttpModel
  import opened Browser
  import opened ErrorHandler
  import opened Middleware
  import Database

  /** A compact token is visible ASCII. */
  lemma CompactIsVisibleAscii(t: string)
    requires IsCompact(t)
    ensures IsVisibleAscii(t)
  {
    assert forall i | 0 <= i < |t| :: IsCompactChar(t[i]);
  }

  /** A stored visible-ASCII token reaches the server's format check intact. */
  lemma {:induction false} StoredTokenReachesServer(t: string)
    requires t != [] && IsVisibleAscii(t)
    ensures BearerToken(NormalizeHeaderValue(AuthorizationHeader(Some(t)))) == Some(t)
  {
    var h := AuthorizationHeader(Some(t));
    assert h == "Bearer " + t;
    assert h[0] == 'B' && h[|h| - 1] == t[|t| - 1];
    assert '!' <= t[|t| - 1] <= '~';
    NormalizeKeeps(h);
    assert ' ' !in t by {
      forall i | 0 <= i < |t| ensures t[i] != ' ' {
        assert '!' <= t[i];
      }
    }
    BearerTokenIff(h, t);
  }

  /** A stored empty token is sent as "Bearer" and refused by the format check. */
  lemma EmptyStoredTokenRejected(k: Keyring, now: int, users: map<int, User>, online: bool)
    ensures NormalizeHeaderValue(AuthorizationHeader(Some(""))) == "Bearer"
    ensures AuthMiddleware(NormalizeHeaderValue(AuthorizationHeader(Some(""))), k, now, users, online)
              == Reject(HttpError(HeaderFormat, StatusUnauthorized))
  {
    NormalizeDropsTrailingSpace("Bearer");
    assert AuthorizationHeader(Some("")) == "Bearer" + " ";
    GoText.SplitWithoutSeparator("Bearer", ' ');
  }

  /** With nothing stored, the client sends "Bearer null" and the server tries the token "null". */
  lemma MissingTokenSentAsNull()
    ensures BearerToken(NormalizeHeaderValue(AuthorizationHeader(None))) == Some("null")
  {
    StoredTokenReachesServer("null");
  }

  /**
   * An access token the server issued, stored by the client and sent within its five minutes,
   * lets the request through as the user it was issued for, without the password hash.
   */
  lemma IssuedTokenRoundTrip(k: Keyring, users: map<int, User>, id: int, issued: int, now: int)
    requires Sound(k)
    requires Database.InInt4(id) && id in users && users[id].id == id
    requires GenerateJWT(k, users[id], issued).Ok?
    requires issued <= now < issued + AccessLifetimeSeconds
    ensures var header := NormalizeHeaderValue(AuthorizationHeader(Some(GenerateJWT(k, users[id], issued).value)));
            AuthMiddleware(header, k, now, users, true) == Next(Database.ByIdView(users[id]))
  {
    var t := GenerateJWT(k, users[id], issued).value;
    assert k.sign(Token("HS256", NewClaims(users[id], issued, AccessLifetimeSeconds))).Some?;
    CompactIsVisibleAscii(t);
    StoredTokenReachesServer(t);
    ValidityWindow(k, users[id], issued, AccessLifetimeSeconds, now);
    BearerTokenIff("Bearer " + t, t);
    ValidTokenPasses(t, k, now, users);
    NormalizeKeeps("Bearer " + t);
  }
}
