/**
 * back-end/internal/database/database.go: the subscriptions and users tables as maps from
 * id to row. `online` says whether the PostgreSQL server answers; when it does not, every
 * statement fails. Every mutation of the subscriptions table also invalidates the global
 * cache entry through the optional CacheService.
 */
module Database {
  import opened Wrappers
  import opened Models
  import opened Cache
  import opened Redis

  /** The range of the INTEGER (int4) id columns; an id parameter outside it makes the statement fail. */
  const Int4Min: int := -0x8000_0000
  const Int4Max: int := 0x7FFF_FFFF
  /** DECIMAL(10,2) keeps at most eight digits before the point: |price| < 10^8, that is 10^10 cents. */
  const PriceLimitCents: int := 10_000_000_000
  /** CURRENT_DATE + INTERVAL '3 days'. */
  const UpcomingWindowDays: int := 3

  datatype DbError =
    | Unavailable
    | NoRows
    | IntegerOutOfRange
    | ForeignKeyViolation
    | NumericOverflow
    | SequenceExhausted

  /** err.Error() for each failure: sql.ErrNoRows has this exact text; the others stand for the driver's messages. */
  function ErrorText(e: DbError): string
  {
    match e
    case Unavailable => "driver: bad connection"
    case NoRows => "sql: no rows in result set"
    case IntegerOutOfRange => "pq: value out of range for type integer"
    case ForeignKeyViolation => "pq: insert or update on table \"subscriptions\" violates foreign key constraint \"fk_users\""
    case NumericOverflow => "pq: numeric field overflow"
    case SequenceExhausted => "pq: nextval: reached maximum value of sequence"
  }

  predicate InInt4(n: int) { Int4Min <= n <= Int4Max }

  predicate PriceFits(cents: int) { -PriceLimitCents < cents < PriceLimitCents }

  /** A subscription row as the API shows it, with the owner's email. */
  function Joined(row: SubRow, email: string): Subscription
  {
    Subscription(row.id, row.name, row.priceCents, row.billingCycle, row.nextBillingDate, email,
                 row.category, row.isActive, row.createdAt, row.updatedAt)
  }

  /** The row an INSERT of the request for this user, at time now, produces (is_active defaults to true). */
  function NewRow(id: int, req: SubscriptionRequest, userId: int, now: int): SubRow
  {
    SubRow(id, req.name, req.category, req.priceCents, req.billingCycle, req.nextBillingDate,
           userId, true, now, now)
  }

  /** The row after the UPDATE's SET list. */
  function Updated(row: SubRow, req: SubscriptionRequest, now: int): SubRow
  {
    row.(name := req.name, category := req.category, priceCents := req.priceCents,
         billingCycle := req.billingCycle, nextBillingDate := req.nextBillingDate, updatedAt := now)
  }

  /** UPDATE touches only the six listed columns: is_active, created_at, user_id and the id stay. */
  lemma UpdateKeepsOtherColumns(row: SubRow, req: SubscriptionRequest, now: int)
    ensures Updated(row, req, now).id == row.id && Updated(row, req, now).userId == row.userId
    ensures Updated(row, req, now).isActive == row.isActive && Updated(row, req, now).createdAt == row.createdAt
    ensures Joined(Updated(row, req, now), "").name == req.name
    ensures Joined(Updated(row, req, now), "").priceCents == req.priceCents
  {
  }

  /** GetUserByID selects neither password_hash nor third_party, so both stay empty. */
  function ByIdView(u: User): User
  {
    u.(passwordHash := "", thirdParty := "")
  }

  /**
   * The INSERT ... RETURNING id, email, name, third_party, created_at, updated_at of CreateUser
   * scans created_at into UpdatedAt and updated_at into CreatedAt; password_hash is not returned.
   */
  function CreatedView(row: User): User
  {
    User(row.id, row.name, row.email, "", row.thirdParty, row.updatedAt, row.createdAt)
  }

  /** On a freshly inserted user both timestamps are CURRENT_TIMESTAMP, so the swap is not visible. */
  lemma CreatedViewOfFreshRow(row: User)
    requires row.createdAt == row.updatedAt
    ensures CreatedView(row) == row.(passwordHash := "")
  {
  }

  /** GetUserByID over a users table: the row with that id, without its secret columns. */
  function LookupUserById(users: map<int, User>, online: bool, id: int): (r: Result<User, DbError>)
    ensures r.Ok? <==> online && InInt4(id) && id in users
    ensures r.Ok? ==> r.value.id == users[id].id && r.value.email == users[id].email && r.value.name == users[id].name
    ensures r.Ok? ==> r.value.passwordHash == "" && r.value.thirdParty == ""
    ensures !online ==> r == Err(Unavailable)
    ensures online && !InInt4(id) ==> r == Err(IntegerOutOfRange)
    ensures online && InInt4(id) && id !in users ==> r == Err(NoRows)
  {
    if !online then Err(Unavailable)
    else if !InInt4(id) then Err(IntegerOutOfRange)
    else if id in users then Ok(ByIdView(users[id]))
    else Err(NoRows)
  }

  /** Which rows a listing query keeps. */
  datatype Filter =
    | OwnedBy(userId: int)      // WHERE s.user_id = $1
    | DueBy(today: int)         // WHERE s.next_billing_date <= CURRENT_DATE + INTERVAL '3 days' AND s.is_active = true

  predicate Keeps(f: Filter, row: SubRow)
  {
    match f
    case OwnedBy(u) => row.userId == u
    case DueBy(today) => row.isActive && row.nextBillingDate <= today + UpcomingWindowDays
  }

  /** The aggregate of GetUserSubscriptionsStats; a SUM or a subquery over no rows is SQL NULL (None). */
  datatype Stats = Stats(totalMonthly: Option<int>, activeCount: int, nextPayment: Option<int>)

  /** A set is empty or has an element, which is what picking one with :| needs. */
  lemma EmptyOrHasElement(s: set<int>)
    ensures s == {} || exists x :: x in s
  {
    if forall x :: x !in s {
      assert s == {};
    }
  }

  ghost function SumPrices(m: map<int, SubRow>, ids: set<int>): int
    requires ids <= m.Keys
    decreases ids
  {
    if ids == {} then 0 else EmptyOrHasElement(ids); var k :| k in ids; m[k].priceCents + SumPrices(m, ids - {k})
  }

  lemma {:induction false} SumPricesRemove(m: map<int, SubRow>, ids: set<int>, k: int)
    requires ids <= m.Keys && k in ids
    ensures SumPrices(m, ids) == m[k].priceCents + SumPrices(m, ids - {k})
    decreases ids
  {
    var j :| j in ids && SumPrices(m, ids) == m[j].priceCents + SumPrices(m, ids - {j});
    if j != k {
      SumPricesRemove(m, ids - {j}, k);
      SumPricesRemove(m, ids - {k}, j);
      assert ids - {j} - {k} == ids - {k} - {j};
    }
  }

  /** Adding a row to a set of rows adds its price to their total. */
  lemma SumPricesAdd(m: map<int, SubRow>, ids: set<int>, k: int)
    requires ids <= m.Keys && k in m && k !in ids
    ensures SumPrices(m, ids + {k}) == SumPrices(m, ids) + m[k].priceCents
  {
    SumPricesRemove(m, ids + {k}, k);
    assert ids + {k} - {k} == ids;
  }

  /** Row id has the earliest next billing date among ids (ties allowed: ORDER BY ... LIMIT 1 picks any). */
  ghost predicate IsEarliest(m: map<int, SubRow>, ids: set<int>, id: int)
    requires ids <= m.Keys
  {
    id in ids && forall o | o in ids :: m[id].nextBillingDate <= m[o].nextBillingDate
  }

  /** One more active row: the total grows by its price, the count by one, and the earlier of the two dates wins. */
  lemma {:induction false} AddActiveRow(m: map<int, SubRow>, before: set<int>, id: int, best: Option<int>)
    requires before <= m.Keys && id in m && id !in before
    requires best.None? <==> before == {}
    requires best.Some? ==> IsEarliest(m, before, best.value)
    ensures SumPrices(m, before + {id}) == SumPrices(m, before) + m[id].priceCents
    ensures |before + {id}| == |before| + 1
    ensures var next := if best.None? || m[id].nextBillingDate < m[best.value].nextBillingDate then id else best.value;
            IsEarliest(m, before + {id}, next)
  {
    SumPricesAdd(m, before, id);
  }

  lemma DiffStep(all: set<int>, remaining: set<int>, id: int)
    requires id in remaining
    ensures id in all ==> all - (remaining - {id}) == (all - remaining) + {id}
    ensures id !in all ==> all - (remaining - {id}) == all - remaining
  {
  }

  /** The rows of userId whose is_active is true. */
  ghost function ActiveIn(m: map<int, SubRow>, userId: int): set<int>
  {
    set id | id in m && m[id].userId == userId && m[id].isActive
  }

  /** The aggregation over the user's active rows: their total price, their number and the earliest due one. */
  method Aggregate(m: map<int, SubRow>, userId: int) returns (total: int, count: int, best: Option<int>)
    ensures total == SumPrices(m, ActiveIn(m, userId))
    ensures count == |ActiveIn(m, userId)|
    ensures best.None? <==> ActiveIn(m, userId) == {}
    ensures best.Some? ==> IsEarliest(m, ActiveIn(m, userId), best.value)
  {
    ghost var all := ActiveIn(m, userId);
    ghost var done: set<int> := {};
    var remaining := m.Keys;
    total, count, best := 0, 0, None;
    while remaining != {}
      invariant remaining <= m.Keys && all <= m.Keys
      invariant done == all - remaining
      invariant total == SumPrices(m, done)
      invariant count == |done|
      invariant best.None? <==> done == {}
      invariant best.Some? ==> IsEarliest(m, done, best.value)
      decreases remaining
    {
      EmptyOrHasElement(remaining);
      var id :| id in remaining;
      DiffStep(all, remaining, id);
      if m[id].userId == userId && m[id].isActive {
        assert id in all;
        AddActiveRow(m, done, id, best);
        total := total + m[id].priceCents;
        count := count + 1;
        if best.None? || m[id].nextBillingDate < m[best.value].nextBillingDate {
          best := Some(id);
        }
        done := done + {id};
      } else {
        assert id !in all;
      }
      remaining := remaining - {id};
    }
    assert all - remaining == all;
  }

  class DB {
    var subs: map<int, SubRow>
    var users: map<int, User>
    var nextSubId: int
    var nextUserId: int
    var online: bool
    const cache: CacheService?

    /** Keys are ids, ids come from the SERIAL counters, and every subscription's owner exists (fk_users). */
    ghost predicate Valid()
      reads this
    {
      && 1 <= nextSubId && 1 <= nextUserId
      && (forall id | id in subs :: subs[id].id == id && id < nextSubId && subs[id].userId in users)
      && (forall id | id in users :: users[id].id == id && id < nextUserId)
    }

    /** InitDB once both tables exist: empty tables on a server that answers. */
    constructor (cache: CacheService?)
      ensures Valid() && this.cache == cache && online
      ensures subs == map[] && users == map[]
    {
      this.cache := cache;
      subs, users := map[], map[];
      nextSubId, nextUserId := 1, 1;
      online := true;
    }

    function CacheFrame(): set<RedisClient>
    {
      if cache == null then {} else {cache.redis}
    }

    /** A subscription row as the LEFT JOIN with its owner shows it. */
    function JoinedRow(id: int): Subscription
      reads this
      requires Valid() && id in subs
    {
      Joined(subs[id], users[subs[id].userId].email)
    }

    /** out lists each row the filter keeps exactly once, with its owner's email, and nothing else. */
    ghost predicate Lists(out: seq<Subscription>, f: Filter)
      reads this
      requires Valid()
    {
      && (forall i | 0 <= i < |out| :: out[i].id in subs && Keeps(f, subs[out[i].id]) && out[i] == JoinedRow(out[i].id))
      && (forall id | id in subs && Keeps(f, subs[id]) :: exists i | 0 <= i < |out| :: out[i].id == id)
      && (forall i, j | 0 <= i < j < |out| :: out[i].id != out[j].id)
    }

    ghost function ActiveIds(userId: int): set<int>
      reads this
    {
      ActiveIn(subs, userId)
    }

    /** What the stats query answers for this user. */
    ghost predicate IsStatsFor(st: Stats, userId: int)
      reads this
    {
      var ids := ActiveIds(userId);
      && st.activeCount == |ids|
      && st.totalMonthly == (if ids == {} then None else Some(SumPrices(subs, ids)))
      && (st.nextPayment.Some? <==> ids != {})
      && (st.nextPayment.Some? ==> exists id | IsEarliest(subs, ids, id) :: subs[id].priceCents == st.nextPayment.value)
    }

    /** The rows' loop: every row the filter keeps, joined with its owner, in the order the rows come. */
    method SelectRows(f: Filter) returns (out: seq<Subscription>)
      requires Valid()
      ensures Lists(out, f)
    {
      var remaining := subs.Keys;
      out := [];
      while remaining != {}
        invariant remaining <= subs.Keys
        invariant forall i | 0 <= i < |out| :: out[i].id in subs && out[i].id !in remaining && Keeps(f, subs[out[i].id]) && out[i] == JoinedRow(out[i].id)
        invariant forall id | id in subs && id !in remaining && Keeps(f, subs[id]) :: exists i | 0 <= i < |out| :: out[i].id == id
        invariant forall i, j | 0 <= i < j < |out| :: out[i].id != out[j].id
        decreases remaining
      {
        EmptyOrHasElement(remaining);
        var id :| id in remaining;
        if Keeps(f, subs[id]) {
          ghost var prev := out;
          out := out + [JoinedRow(id)];
          assert forall i | 0 <= i < |prev| :: out[i] == prev[i];
          assert out[|out| - 1].id == id;
        }
        remaining := remaining - {id};
      }
    }

    /** GetUserSubscriptions: exactly the user's rows, each with the owner's email. */
    method GetUserSubscriptions(userId: int) returns (r: Result<seq<Subscription>, DbError>)
      requires Valid()
      ensures r.Ok? <==> online && InInt4(userId)
      ensures r.Ok? ==> Lists(r.value, OwnedBy(userId))
    {
      if !online {
        return Err(Unavailable);
      }
      if !InInt4(userId) {
        return Err(IntegerOutOfRange);
      }
      var out := SelectRows(OwnedBy(userId));
      r := Ok(out);
    }

    /** GetSubscriptionByID: the row with that id joined with its owner, or NoRows. */
    method GetSubscriptionByID(id: int) returns (r: Result<Subscription, DbError>)
      requires Valid()
      ensures r.Ok? <==> online && InInt4(id) && id in subs
      ensures r.Ok? ==> r.value == JoinedRow(id) && r.value.id == id
      ensures online && InInt4(id) && id !in subs ==> r == Err(NoRows)
    {
      if !online {
        r := Err(Unavailable);
      } else if !InInt4(id) {
        r := Err(IntegerOutOfRange);
      } else if id in subs {
        r := Ok(JoinedRow(id));
      } else {
        r := Err(NoRows);
      }
    }

    /** CreateSubscription: one new active row with the request's fields and the given owner. */
    method CreateSubscription(req: SubscriptionRequest, userId: int, now: int) returns (r: Result<Subscription, DbError>)
      requires Valid()
      modifies this`subs, this`nextSubId, CacheFrame()`entries
      ensures Valid()
      ensures r.Ok? <==> old(online) && InInt4(userId) && userId in users && PriceFits(req.priceCents) && old(nextSubId) <= Int4Max
      ensures r.Ok? ==> var id := old(nextSubId);
                        && id !in old(subs)
                        && subs == old(subs)[id := NewRow(id, req, userId, now)]
                        && r.value == Joined(NewRow(id, req, userId, now), "")
                        && nextSubId == id + 1
      ensures r.Err? ==> subs == old(subs) && nextSubId == old(nextSubId)
      ensures cache != null ==>
                cache.redis.entries == if r.Ok? && cache.redis.online then old(cache.redis.entries) - {cache.subscriptionsKey}
                                       else old(cache.redis.entries)
    {
      if !online {
        return Err(Unavailable);
      }
      if !InInt4(userId) {
        return Err(IntegerOutOfRange);
      }
      if !PriceFits(req.priceCents) {
        return Err(NumericOverflow);
      }
      if userId !in users {
        return Err(ForeignKeyViolation);
      }
      if nextSubId > Int4Max {
        return Err(SequenceExhausted);
      }
      var id := nextSubId;
      var row := NewRow(id, req, userId, now);
      subs := subs[id := row];
      nextSubId := nextSubId + 1;
      if cache != null {
        var _ := cache.InvalidateSubscriptionsCache();
      }
      r := Ok(Joined(row, ""));
    }

    /** UpdateSubscription: rewrites the six columns of that one row; a missing row is NoRows. */
    method UpdateSubscription(id: int, req: SubscriptionRequest, now: int) returns (r: Result<Subscription, DbError>)
      requires Valid()
      modifies this`subs, CacheFrame()`entries
      ensures Valid()
      ensures r.Ok? <==> old(online) && InInt4(id) && id in old(subs) && PriceFits(req.priceCents)
      ensures r.Ok? ==> subs == old(subs)[id := Updated(old(subs)[id], req, now)]
                        && r.value == Joined(Updated(old(subs)[id], req, now), "")
      ensures r.Err? ==> subs == old(subs)
      ensures old(online) && InInt4(id) && id !in old(subs) ==> r == Err(NoRows)
      ensures cache != null ==>
                cache.redis.entries == if r.Ok? && cache.redis.online then old(cache.redis.entries) - {cache.subscriptionsKey}
                                       else old(cache.redis.entries)
    {
      if !online {
        return Err(Unavailable);
      }
      if !InInt4(id) {
        return Err(IntegerOutOfRange);
      }
      if id !in subs {
        return Err(NoRows);
      }
      if !PriceFits(req.priceCents) {
        return Err(NumericOverflow);
      }
      var row := Updated(subs[id], req, now);
      subs := subs[id := row];
      if cache != null {
        var _ := cache.InvalidateSubscriptionsCache();
      }
      r := Ok(Joined(row, ""));
    }

    /** DeleteSubscription: removes that one row (an absent id is no error) and invalidates the cache even on failure. */
    method DeleteSubscription(id: int) returns (err: Option<DbError>)
      requires Valid()
      modifies this`subs, CacheFrame()`entries
      ensures Valid()
      ensures err.None? <==> old(online) && InInt4(id)
      ensures err.None? ==> subs == old(subs) - {id}
      ensures err.Some? ==> subs == old(subs)
      ensures cache != null ==>
                cache.redis.entries == if cache.redis.online then old(cache.redis.entries) - {cache.subscriptionsKey}
                                       else old(cache.redis.entries)
    {
      if !online {
        err := Some(Unavailable);
      } else if !InInt4(id) {
        err := Some(IntegerOutOfRange);
      } else {
        subs := subs - {id};
        err := None;
      }
      if cache != null {
        var _ := cache.InvalidateSubscriptionsCache();
      }
    }

    /** GetUpcomingSubscriptions: every active row due on or before today + 3 days, overdue ones included. */
    method GetUpcomingSubscriptions(today: int) returns (r: Result<seq<Subscription>, DbError>)
      requires Valid()
      ensures r.Ok? <==> online
      ensures r.Ok? ==> Lists(r.value, DueBy(today))
    {
      if !online {
        return Err(Unavailable);
      }
      var out := SelectRows(DueBy(today));
      r := Ok(out);
    }

    /** GetUserSubscriptionsStats: total, count and next payment over the user's active rows. */
    method GetUserSubscriptionsStats(userId: int) returns (r: Result<Stats, DbError>)
      requires Valid()
      ensures r.Ok? <==> online && InInt4(userId)
      ensures r.Ok? ==> IsStatsFor(r.value, userId)
    {
      if !online {
        return Err(Unavailable);
      }
      if !InInt4(userId) {
        return Err(IntegerOutOfRange);
      }
      var total, count, best := Aggregate(subs, userId);
      var next: Option<int> := None;
      if best.Some? {
        next := Some(subs[best.value].priceCents);
      }
      r := Ok(Stats(if count == 0 then None else Some(total), count, next));
    }

    /** CreateUser: one new row with the given fields; the result carries no password hash. */
    method CreateUser(user: User, now: int) returns (r: Result<User, DbError>)
      requires Valid()
      modifies this`users, this`nextUserId
      ensures Valid()
      ensures r.Ok? <==> old(online) && old(nextUserId) <= Int4Max
      ensures r.Ok? ==> var id := old(nextUserId);
                        var row := User(id, user.name, user.email, user.passwordHash, user.thirdParty, now, now);
                        && id !in old(users)
                        && users == old(users)[id := row]
                        && r.value == CreatedView(row)
                        && nextUserId == id + 1
      ensures r.Err? ==> users == old(users) && nextUserId == old(nextUserId)
    {
      if !online {
        return Err(Unavailable);
      }
      if nextUserId > Int4Max {
        return Err(SequenceExhausted);
      }
      var id := nextUserId;
      var row := User(id, user.name, user.email, user.passwordHash, user.thirdParty, now, now);
      users := users[id := row];
      nextUserId := nextUserId + 1;
      r := Ok(CreatedView(row));
    }

    /** GetUserByID. */
    method GetUserByID(id: int) returns (r: Result<User, DbError>)
      ensures r == LookupUserById(users, online, id)
    {
      r := LookupUserById(users, online, id);
    }

    /** GetUserByEmail: some full row with that email (emails are not unique and QueryRow takes any). */
    method GetUserByEmail(email: string) returns (r: Result<User, DbError>)
      requires Valid()
      ensures r.Ok? <==> online && exists id | id in users :: users[id].email == email
      ensures r.Ok? ==> r.value.id in users && users[r.value.id] == r.value && r.value.email == email
      ensures online && !(exists id | id in users :: users[id].email == email) ==> r == Err(NoRows)
      ensures !online ==> r == Err(Unavailable)
      ensures r.Ok? || r == Err(NoRows) || r == Err(Unavailable)
    {
      if !online {
        return Err(Unavailable);
      }
      if id :| id in users && users[id].email == email {
        r := Ok(users[id]);
      } else {
        r := Err(NoRows);
      }
    }
  }
}
