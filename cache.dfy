/**
 * back-end/internal/cache/cache.go: CacheService reads, writes and deletes single entries of
 * the shared Redis store. The key of the global subscription list comes from
 * GetSubscriptionsCacheKey, which redis.go does not define; the service holds it as the
 * abstract constant `subscriptionsKey`.
 */
module Cache {
  import opened Wrappers
  import opened Models
  import opened Redis

  class CacheService {
    const redis: RedisClient
    const subscriptionsKey: string

    /** NewCacheService. */
    constructor (redis: RedisClient, subscriptionsKey: string)
      ensures this.redis == redis && this.subscriptionsKey == subscriptionsKey
    {
      this.redis := redis;
      this.subscriptionsKey := subscriptionsKey;
    }

    function UserKey(userID: int): string
    {
      redis.GetUserSubscriptionsCacheKey(userID)
    }

    /** CacheAllSubscriptions: on success the global entry holds the list and nothing else changed. */
    method CacheAllSubscriptions(subscriptions: seq<Subscription>) returns (err: Option<string>)
      modifies redis`entries
      ensures err.None? <==> redis.online
      ensures err.None? ==> redis.entries == old(redis.entries)[subscriptionsKey := subscriptions]
      ensures err.Some? ==> redis.entries == old(redis.entries)
    {
      err := redis.Set(subscriptionsKey, subscriptions, redis.GetCacheTTL());
    }

    /** GetCachedSubscriptions: the global entry, or an error and no list when it is missing. */
    method GetCachedSubscriptions() returns (r: Result<seq<Subscription>, string>)
      ensures r.Ok? <==> redis.online && subscriptionsKey in redis.entries
      ensures r.Ok? ==> r.value == redis.entries[subscriptionsKey]
    {
      r := redis.Get(subscriptionsKey);
    }

    /** CacheUserSubscriptions: on success user userID's entry holds the list and nothing else changed. */
    method CacheUserSubscriptions(userID: int, subscriptions: seq<Subscription>) returns (err: Option<string>)
      modifies redis`entries
      ensures err.None? <==> redis.online
      ensures err.None? ==> redis.entries == old(redis.entries)[UserKey(userID) := subscriptions]
      ensures err.Some? ==> redis.entries == old(redis.entries)
    {
      err := redis.Set(UserKey(userID), subscriptions, redis.GetCacheTTL());
    }

    /** GetCachedUserSubscriptions: user userID's entry, or an error and no list when it is missing. */
    method GetCachedUserSubscriptions(userID: int) returns (r: Result<seq<Subscription>, string>)
      ensures r.Ok? <==> redis.online && UserKey(userID) in redis.entries
      ensures r.Ok? ==> r.value == redis.entries[UserKey(userID)]
    {
      r := redis.Get(UserKey(userID));
    }

    /** InvalidateSubscriptionsCache: the global entry is gone and every other entry is kept. */
    method InvalidateSubscriptionsCache() returns (err: Option<string>)
      modifies redis`entries
      ensures err.None? <==> redis.online
      ensures redis.online ==> subscriptionsKey !in redis.entries
      ensures forall k | k != subscriptionsKey && k in old(redis.entries) :: k in redis.entries && redis.entries[k] == old(redis.entries)[k]
      ensures forall k | k in redis.entries :: k in old(redis.entries)
      ensures !redis.online ==> redis.entries == old(redis.entries)
    {
      err := redis.Delete(subscriptionsKey);
    }

    /** InvalidateUserSubscriptionsCache: only user userID's entry is removed. */
    method InvalidateUserSubscriptionsCache(userID: int) returns (err: Option<string>)
      modifies redis`entries
      ensures err.None? <==> redis.online
      ensures redis.online ==> UserKey(userID) !in redis.entries
      ensures forall k | k != UserKey(userID) && k in old(redis.entries) :: k in redis.entries && redis.entries[k] == old(redis.entries)[k]
      ensures forall k | k in redis.entries :: k in old(redis.entries)
      ensures !redis.online ==> redis.entries == old(redis.entries)
    {
      err := redis.Delete(UserKey(userID));
    }

    /** HasSubscriptionsCache. */
    method HasSubscriptionsCache() returns (b: bool)
      ensures b <==> redis.online && subscriptionsKey in redis.entries
    {
      b := redis.Exists(subscriptionsKey);
    }

    /** HasUserSubscriptionsCache. */
    method HasUserSubscriptionsCache(userID: int) returns (b: bool)
      ensures b <==> redis.online && UserKey(userID) in redis.entries
    {
      b := redis.Exists(UserKey(userID));
    }
  }

  /** Caching a list and reading it back gives the same list; invalidating then makes the cache absent. */
  method CacheReadInvalidate(c: CacheService, subscriptions: seq<Subscription>) returns (read: Result<seq<Subscription>, string>, present: bool)
    requires c.redis.online
    modifies c.redis`entries
    ensures read == Ok(subscriptions)
    ensures !present
  {
    var err := c.CacheAllSubscriptions(subscriptions);
    read := c.GetCachedSubscriptions();
    err := c.InvalidateSubscriptionsCache();
    present := c.HasSubscriptionsCache();
  }

  /** Caching a user's list makes that user's entry present, and reading it gives the list back. */
  method CacheUserReadBack(c: CacheService, userID: int, subscriptions: seq<Subscription>)
      returns (present: bool, read: Result<seq<Subscription>, string>)
    requires c.redis.online
    modifies c.redis`entries
    ensures present && read == Ok(subscriptions)
  {
    var err := c.CacheUserSubscriptions(userID, subscriptions);
    present := c.HasUserSubscriptionsCache(userID);
    read := c.GetCachedUserSubscriptions(userID);
  }

  /** With the default key pattern, invalidating user a's entry keeps user b's entry. */
  method InvalidateKeepsOtherUsers(c: CacheService, a: int, b: int, subscriptions: seq<Subscription>)
      returns (read: Result<seq<Subscription>, string>)
    requires c.redis.online && a != b
    requires "CACHE_KEY_USER_SUBSCRIPTIONS" !in c.redis.env
    modifies c.redis`entries
    ensures read == Ok(subscriptions)
  {
    var err := c.CacheUserSubscriptions(b, subscriptions);
    err := c.InvalidateUserSubscriptionsCache(a);
    DefaultUserKeysDistinct(c.redis.env, a, b);
    read := c.GetCachedUserSubscriptions(b);
  }
}
