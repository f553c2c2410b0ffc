/**
 * A user agent's cookie store for one host, as section 5.3 of RFC 6265 describes it: a cookie
 * is identified by its name and path, a newly received cookie replaces the stored one with
 * the same identity, and a cookie whose expiry time has passed is evicted.
 */
module CookieJar {
  import opened HttpModel

  type Jar = map<(string, string), Cookie>

  predicate ExpiredAt(c: Cookie, now: int) { c.expires <= now }

  /** Receiving a Set-Cookie at time now. */
  function Store(jar: Jar, c: Cookie, now: int): (r: Jar)
    ensures (c.name, c.path) in r <==> !ExpiredAt(c, now)
    ensures (c.name, c.path) in r ==> r[(c.name, c.path)] == c
    ensures forall key | key in jar && key != (c.name, c.path) :: key in r && r[key] == jar[key]
    ensures forall key | key in r && key != (c.name, c.path) :: key in jar
  {
    if ExpiredAt(c, now) then jar - {(c.name, c.path)} else jar[(c.name, c.path) := c]
  }
}
