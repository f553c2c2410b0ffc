/**
 * back-end/internal/redis/redis.go: environment lookups, the cache TTL, the cache-key
 * generators and the key-value client. The Redis server is an in-memory map from key to
 * the cached subscription list (the JSON encoding the client writes and reads back is taken
 * to round-trip); `online` says whether the server answers. Key expiry is not modelled.
 */
module Redis {
  import opened Wrappers
  import opened GoText
  import opened Models

  const DefaultCacheTTLSeconds: int := 3600
  const NanosPerSecond: int := 1_000_000_000
  const DefaultUserSubscriptionsPattern: string := "subscriptions:user:%d"
  const DefaultUserStatsPattern: string := "stats:user:%d"
  const ConnectionError: string := "redis: connection refused"
  const MissingKey: string := "redis: nil"

  /** getEnv: the variable's value whenever it is set, even to "", otherwise the default. */
  function GetEnv(env: map<string, string>, key: string, default: string): string
  {
    if key in env then env[key] else default
  }

  /** The default is used only when the variable is unset: a variable set to "" gives "". */
  lemma GetEnvSetWins(env: map<string, string>, key: string, default: string)
    ensures key in env ==> GetEnv(env, key, default) == env[key]
    ensures GetEnv(env, key, default) != default ==> key in env
  {
  }

  /** getEnvAsInt: the variable read with strconv.Atoi, or the default when unset or not an integer. */
  function GetEnvAsInt(env: map<string, string>, key: string, default: int): (r: int)
    ensures key !in env ==> r == default
  {
    if key in env && Atoi(env[key]).Some? then Atoi(env[key]).value else default
  }

  /** The two's-complement 64-bit value of x: what Go's int64 arithmetic leaves. */
  function Wrap64(x: int): (r: int)
    ensures MinInt64 <= r <= MaxInt64
    ensures MinInt64 <= x <= MaxInt64 ==> r == x
  {
    (x - MinInt64) % 0x1_0000_0000_0000_0000 + MinInt64
  }

  /** GetCacheTTL as a time.Duration, in nanoseconds: REDIS_CACHE_TTL seconds, wrapped to 64 bits. */
  function CacheTTL(env: map<string, string>): int
  {
    Wrap64(GetEnvAsInt(env, "REDIS_CACHE_TTL", DefaultCacheTTLSeconds) * NanosPerSecond)
  }

  /** Unset, empty or non-numeric REDIS_CACHE_TTL gives one hour. */
  lemma CacheTTLDefault(env: map<string, string>)
    requires "REDIS_CACHE_TTL" !in env || Atoi(env["REDIS_CACHE_TTL"]).None?
    ensures CacheTTL(env) == 3600 * NanosPerSecond
  {
  }

  /** REDIS_CACHE_TTL holding the decimal form of n gives n seconds, as long as that fits in a Duration. */
  lemma CacheTTLFromEnv(env: map<string, string>, n: int)
    requires "REDIS_CACHE_TTL" in env && env["REDIS_CACHE_TTL"] == Itoa(n)
    requires MinInt64 <= n * NanosPerSecond <= MaxInt64
    ensures CacheTTL(env) == n * NanosPerSecond
  {
    AtoiItoa(n);
  }

  /**
   * fmt.Sprintf(pattern, n) for one int argument. `used` records whether the argument has been
   * consumed. %d and %v print n, %% prints %, a lone trailing % prints %!(NOVERB), a verb with
   * no argument left prints %!x(MISSING), and an unused argument is reported at the end as
   * %!(EXTRA int=n). Only these are modelled: Go's other int verbs (%x %X %o %O %b %c %q %U),
   * flags and widths are rendered here as the bad-verb text %!c(int=n), which Go does not do.
   */
  function Sprintf(pattern: string, n: int, used: bool): string
    decreases |pattern|
  {
    if pattern == [] then
      (if used then "" else "%!(EXTRA int=" + Itoa(n) + ")")
    else if pattern[0] != '%' then
      [pattern[0]] + Sprintf(pattern[1..], n, used)
    else if |pattern| == 1 then
      "%!(NOVERB)" + Sprintf([], n, used)
    else if pattern[1] == '%' then
      "%" + Sprintf(pattern[2..], n, used)
    else if used then
      "%!" + [pattern[1]] + "(MISSING)" + Sprintf(pattern[2..], n, used)
    else if pattern[1] == 'd' || pattern[1] == 'v' then
      Itoa(n) + Sprintf(pattern[2..], n, true)
    else
      "%!" + [pattern[1]] + "(int=" + Itoa(n) + ")" + Sprintf(pattern[2..], n, true)
  }

  /** A pattern "<prefix>%d" whose prefix has no % formats to the prefix followed by the number. */
  lemma {:induction false} SprintfPrefix(prefix: string, n: int)
    requires '%' !in prefix
    ensures Sprintf(prefix + "%d", n, false) == prefix + Itoa(n)
  {
    if prefix != [] {
      assert (prefix + "%d")[1..] == prefix[1..] + "%d";
      SprintfPrefix(prefix[1..], n);
      assert [prefix[0]] + prefix[1..] == prefix;
    } else {
      assert prefix + "%d" == "%d";
    }
  }

  /** GetUserSubscriptionsCacheKey. */
  function UserSubscriptionsKey(env: map<string, string>, userID: int): string
  {
    Sprintf(GetEnv(env, "CACHE_KEY_USER_SUBSCRIPTIONS", DefaultUserSubscriptionsPattern), userID, false)
  }

  /** GetUserStatsCacheKey. */
  function UserStatsKey(env: map<string, string>, userID: int): string
  {
    Sprintf(GetEnv(env, "CACHE_KEY_USER_STATS", DefaultUserStatsPattern), userID, false)
  }

  /** With the default pattern the key is "subscriptions:user:" and the decimal id. */
  lemma DefaultUserSubscriptionsKey(env: map<string, string>, userID: int)
    requires "CACHE_KEY_USER_SUBSCRIPTIONS" !in env
    ensures UserSubscriptionsKey(env, userID) == "subscriptions:user:" + Itoa(userID)
  {
    assert DefaultUserSubscriptionsPattern == "subscriptions:user:" + "%d";
    SprintfPrefix("subscriptions:user:", userID);
  }

  /** With the default patterns, distinct users get distinct subscription keys. */
  lemma DefaultUserKeysDistinct(env: map<string, string>, a: int, b: int)
    requires "CACHE_KEY_USER_SUBSCRIPTIONS" !in env
    requires a != b
    ensures UserSubscriptionsKey(env, a) != UserSubscriptionsKey(env, b)
  {
    DefaultUserSubscriptionsKey(env, a);
    DefaultUserSubscriptionsKey(env, b);
    var p := "subscriptions:user:";
    if p + Itoa(a) == p + Itoa(b) {
      assert Itoa(a) == (p + Itoa(a))[|p|..] == (p + Itoa(b))[|p|..] == Itoa(b);
      ItoaInjective(a, b);
    }
  }

  /** With the default patterns, no stats key is ever a subscriptions key. */
  lemma DefaultStatsKeyNeverSubscriptionsKey(env: map<string, string>, a: int, b: int)
    requires "CACHE_KEY_USER_SUBSCRIPTIONS" !in env && "CACHE_KEY_USER_STATS" !in env
    ensures UserStatsKey(env, a) != UserSubscriptionsKey(env, b)
  {
    DefaultUserSubscriptionsKey(env, b);
    assert DefaultUserStatsPattern == "stats:user:" + "%d";
    SprintfPrefix("stats:user:", a);
    assert UserStatsKey(env, a)[1] == 't' && UserSubscriptionsKey(env, b)[1] == 'u';
  }

  /** The Exists rule: true only for a successful reply counting at least one key. */
  function ExistsRule(reply: Result<int, string>): bool
  {
    reply.Ok? && reply.value > 0
  }

  /** RedisClient, connected to a server whose store is `entries`. */
  class RedisClient {
    var entries: map<string, seq<Subscription>>
    var online: bool
    const env: map<string, string>

    /** NewRedisClient when the server answers the ping. */
    constructor (env: map<string, string>)
      ensures entries == map[] && online && this.env == env
    {
      this.env := env;
      entries := map[];
      online := true;
    }

    /** Set: store the value under the key, when the server answers. */
    method Set(key: string, value: seq<Subscription>, ttl: int) returns (err: Option<string>)
      modifies this`entries
      ensures err.None? <==> online
      ensures entries == if online then old(entries)[key := value] else old(entries)
    {
      if online {
        entries := entries[key := value];
        err := None;
      } else {
        err := Some(ConnectionError);
      }
    }

    /** Get: the stored value; a missing key (redis.Nil) or an unreachable server is an error. */
    method Get(key: string) returns (r: Result<seq<Subscription>, string>)
      ensures r.Ok? <==> online && key in entries
      ensures r.Ok? ==> r.value == entries[key]
    {
      if !online {
        r := Err(ConnectionError);
      } else if key in entries {
        r := Ok(entries[key]);
      } else {
        r := Err(MissingKey);
      }
    }

    /** Delete: remove the key (absent keys are fine) when the server answers. */
    method Delete(key: string) returns (err: Option<string>)
      modifies this`entries
      ensures err.None? <==> online
      ensures entries == if online then old(entries) - {key} else old(entries)
    {
      if online {
        entries := entries - {key};
        err := None;
      } else {
        err := Some(ConnectionError);
      }
    }

    /** Exists: the server's count of the key, read through ExistsRule. */
    method Exists(key: string) returns (b: bool)
      ensures b <==> online && key in entries
    {
      var reply: Result<int, string> := if online then Ok(if key in entries then 1 else 0) else Err(ConnectionError);
      b := ExistsRule(reply);
    }

    function GetCacheTTL(): int
    {
      CacheTTL(env)
    }

    function GetUserSubscriptionsCacheKey(userID: int): string
    {
      UserSubscriptionsKey(env, userID)
    }

    function GetUserStatsCacheKey(userID: int): string
    {
      UserStatsKey(env, userID)
    }
  }
}
