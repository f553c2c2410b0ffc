/**
 * back-end/internal/handlers/subscription.go: the id parsing and status mapping of the
 * subscription endpoints. The path id goes through strconv.Atoi. GetAllSubscriptions and
 * the one-argument CreateSubscription these handlers call are not defined by the store, so
 * their outcomes are parameters.
 */
module SubscriptionHandlers {
  import opened Wrappers
  import opened GoText
  import opened Models
  import opened HttpModel
  import opened Database
  import opened Cache
  import opened Redis

  const InvalidId: string := "Invalid ID"
  const InvalidJson: string := "Invalid JSON"
  const NotFound: string := "Subscription not found"

  /** The headers of an answer served from the cache. */
  const CacheHitHeaders: map<string, string> := map["X-Cache" := "HIT", "Content-Type" := "application/json"]

  /** GetSubscriptions: a present, readable cache entry is served as is; otherwise the store's list, or 500 with its error. */
  method GetSubscriptions(cacheService: CacheService?, store: Result<seq<Subscription>, string>) returns (resp: Response)
    ensures cacheService != null && cacheService.redis.online && cacheService.subscriptionsKey in cacheService.redis.entries ==>
              resp == Response(StatusOK, CacheHitHeaders, [], JsonBody(JSubscriptions(cacheService.redis.entries[cacheService.subscriptionsKey])))
    ensures !(cacheService != null && cacheService.redis.online && cacheService.subscriptionsKey in cacheService.redis.entries) ==>
              resp == (if store.Err? then HttpError(store.error, StatusInternalServerError)
                       else JsonResponse(StatusOK, [], JSubscriptions(store.value)))
  {
    if cacheService != null {
      var present := cacheService.HasSubscriptionsCache();
      if present {
        var cached := cacheService.GetCachedSubscriptions();
        if cached.Ok? {
          return Response(StatusOK, CacheHitHeaders, [], JsonBody(JSubscriptions(cached.value)));
        }
      }
    }
    if store.Err? {
      return HttpError(store.error, StatusInternalServerError);
    }
    resp := JsonResponse(StatusOK, [], JSubscriptions(store.value));
  }

  /** CreateSubscription: 400 for a body that does not decode, 500 with the store's error, else 201 with the record. */
  function CreateSubscription(body: Option<SubscriptionRequest>, store: Result<Subscription, string>): (resp: Response)
    ensures resp.status == StatusCreated <==> body.Some? && store.Ok?
    ensures resp.status == StatusCreated ==> resp.body == JsonBody(JSubscription(store.value))
    ensures body.None? ==> resp == HttpError(InvalidJson, StatusBadRequest)
    ensures body.Some? && store.Err? ==> resp == HttpError(store.error, StatusInternalServerError)
  {
    if body.None? then HttpError(InvalidJson, StatusBadRequest)
    else if store.Err? then HttpError(store.error, StatusInternalServerError)
    else JsonResponse(StatusCreated, [], JSubscription(store.value))
  }

  /** GetSubscription: 400 for an id that is not an integer, 404 for any failed lookup. */
  method GetSubscription(db: DB, idText: string) returns (resp: Response)
    requires db.Valid()
    ensures Atoi(idText).None? ==> resp == HttpError(InvalidId, StatusBadRequest)
    ensures Atoi(idText).Some? && !(db.online && InInt4(Atoi(idText).value) && Atoi(idText).value in db.subs) ==>
              resp == HttpError(NotFound, StatusNotFound)
    ensures Atoi(idText).Some? && db.online && InInt4(Atoi(idText).value) && Atoi(idText).value in db.subs ==>
              resp == JsonResponse(StatusOK, [], JSubscription(db.JoinedRow(Atoi(idText).value)))
  {
    var id := Atoi(idText);
    if id.None? {
      return HttpError(InvalidId, StatusBadRequest);
    }
    var found := db.GetSubscriptionByID(id.value);
    if found.Err? {
      return HttpError(NotFound, StatusNotFound);
    }
    resp := JsonResponse(StatusOK, [], JSubscription(found.value));
  }

  /** UpdateSubscription: the id is checked before the body; store errors are answered 500 with their text. */
  method UpdateSubscription(db: DB, idText: string, body: Option<SubscriptionRequest>, now: int) returns (resp: Response)
    requires db.Valid()
    modifies db`subs, db.CacheFrame()`entries
    ensures db.Valid()
    ensures Atoi(idText).None? ==> resp == HttpError(InvalidId, StatusBadRequest) && db.subs == old(db.subs)
    ensures Atoi(idText).Some? && body.None? ==> resp == HttpError(InvalidJson, StatusBadRequest) && db.subs == old(db.subs)
    ensures Atoi(idText).Some? && body.Some? ==>
              var id := Atoi(idText).value;
              if db.online && InInt4(id) && id in old(db.subs) && PriceFits(body.value.priceCents) then
                && db.subs == old(db.subs)[id := Updated(old(db.subs)[id], body.value, now)]
                && resp == JsonResponse(StatusOK, [], JSubscription(Joined(Updated(old(db.subs)[id], body.value, now), "")))
              else
                && db.subs == old(db.subs)
                && resp.status == StatusInternalServerError
    ensures Atoi(idText).Some? && body.Some? && db.online && InInt4(Atoi(idText).value) && Atoi(idText).value !in old(db.subs) ==>
              resp == HttpError(ErrorText(NoRows), StatusInternalServerError)
    ensures db.cache != null && resp.status != StatusOK ==> db.cache.redis.entries == old(db.cache.redis.entries)
  {
    var id := Atoi(idText);
    if id.None? {
      return HttpError(InvalidId, StatusBadRequest);
    }
    if body.None? {
      return HttpError(InvalidJson, StatusBadRequest);
    }
    var updated := db.UpdateSubscription(id.value, body.value, now);
    if updated.Err? {
      return HttpError(ErrorText(updated.error), StatusInternalServerError);
    }
    resp := JsonResponse(StatusOK, [], JSubscription(updated.value));
  }

  /** DeleteSubscription: 400 without touching store or cache for a bad id, else 204 or 500 with the store's error. */
  method DeleteSubscription(db: DB, idText: string) returns (resp: Response)
    requires db.Valid()
    modifies db`subs, db.CacheFrame()`entries
    ensures db.Valid()
    ensures Atoi(idText).None? ==>
              && resp == HttpError(InvalidId, StatusBadRequest) && db.subs == old(db.subs)
              && (db.cache != null ==> db.cache.redis.entries == old(db.cache.redis.entries))
    ensures Atoi(idText).Some? && db.online && InInt4(Atoi(idText).value) ==>
              resp == Response(StatusNoContent, map[], [], NoBody) && db.subs == old(db.subs) - {Atoi(idText).value}
    ensures Atoi(idText).Some? && !(db.online && InInt4(Atoi(idText).value)) ==>
              resp.status == StatusInternalServerError && db.subs == old(db.subs)
  {
    var id := Atoi(idText);
    if id.None? {
      return HttpError(InvalidId, StatusBadRequest);
    }
    var err := db.DeleteSubscription(id.value);
    if err.Some? {
      return HttpError(ErrorText(err.value), StatusInternalServerError);
    }
    resp := Response(StatusNoContent, map[], [], NoBody);
  }
}
