/**
 * The subscriptions table and the service that reads and writes it: the
 * per-user row holding the Stripe references, the plan status, the billing
 * period and the generation quota; the insert-or-merge `ensureSubscriptionRow`;
 * the insert-or-update `upsertSubscriptionForUser`; and the pure rules
 * `resolveQuotaLimit`, `hasActiveSubscription` and `shouldResetUsage`.
 *
 * The table holds at most one row per user, so it is a map from user id to
 * row (the row's own `id` column is not modelled).
 */
module Subscriptions {
  import opened JsValues
  import opened Platform
  import opened Plans
  import opened Timestamps

  /** One row of the subscriptions table. Every column but the owner is nullable. */
  datatype Subscription = Subscription(
    userId: UserId,
    customerId: Option<string>,
    subscriptionId: Option<string>,
    priceId: Option<string>,
    status: Option<string>,
    periodStart: Option<string>,
    periodEnd: Option<string>,
    quotaLimit: Option<int>,
    quotaUsed: Option<int>,
    updatedAt: Option<string>)

  /** One key of a partial update object: missing (or `undefined`, which
      serialisation drops) or present with a value, which may be `null`. */
  datatype Field<T> = Absent | Set(value: T)

  function Pick<T>(f: Field<T>, current: T): (r: T)
    ensures f.Set? ==> r == f.value
    ensures f.Absent? ==> r == current
  {
    if f.Set? then f.value else current
  }

  /** `Partial<Omit<SubscriptionRecord, 'id' | 'user_id'>>`, plus the
      `updated_at` stamp that the upsert adds. */
  datatype Patch = Patch(
    customerId: Field<Option<string>>,
    subscriptionId: Field<Option<string>>,
    priceId: Field<Option<string>>,
    status: Field<Option<string>>,
    periodStart: Field<Option<string>>,
    periodEnd: Field<Option<string>>,
    quotaLimit: Field<Option<int>>,
    quotaUsed: Field<Option<int>>,
    updatedAt: Field<Option<string>>)

  const EmptyPatch := Patch(Absent, Absent, Absent, Absent, Absent, Absent, Absent, Absent, Absent)

  /** `Object.keys(p).length === 0`. */
  predicate IsEmpty(p: Patch) {
    p == EmptyPatch
  }

  /** `{ ...row, ...p }`: every key present in the patch replaces that column. */
  function Overlay(row: Subscription, p: Patch): (r: Subscription)
    ensures r.userId == row.userId
    ensures r.customerId == Pick(p.customerId, row.customerId)
    ensures r.subscriptionId == Pick(p.subscriptionId, row.subscriptionId)
    ensures r.priceId == Pick(p.priceId, row.priceId)
    ensures r.status == Pick(p.status, row.status)
    ensures r.periodStart == Pick(p.periodStart, row.periodStart)
    ensures r.periodEnd == Pick(p.periodEnd, row.periodEnd)
    ensures r.quotaLimit == Pick(p.quotaLimit, row.quotaLimit)
    ensures r.quotaUsed == Pick(p.quotaUsed, row.quotaUsed)
    ensures r.updatedAt == Pick(p.updatedAt, row.updatedAt)
  {
    Subscription(row.userId,
      Pick(p.customerId, row.customerId), Pick(p.subscriptionId, row.subscriptionId),
      Pick(p.priceId, row.priceId), Pick(p.status, row.status),
      Pick(p.periodStart, row.periodStart), Pick(p.periodEnd, row.periodEnd),
      Pick(p.quotaLimit, row.quotaLimit), Pick(p.quotaUsed, row.quotaUsed),
      Pick(p.updatedAt, row.updatedAt))
  }

  /** `{ ...p, ...q }`: the later object's keys win. */
  function Then(p: Patch, q: Patch): (r: Patch)
    ensures q.status.Set? ==> r.status == q.status
    ensures q.status.Absent? ==> r.status == p.status
  {
    Patch(
      if q.customerId.Set? then q.customerId else p.customerId,
      if q.subscriptionId.Set? then q.subscriptionId else p.subscriptionId,
      if q.priceId.Set? then q.priceId else p.priceId,
      if q.status.Set? then q.status else p.status,
      if q.periodStart.Set? then q.periodStart else p.periodStart,
      if q.periodEnd.Set? then q.periodEnd else p.periodEnd,
      if q.quotaLimit.Set? then q.quotaLimit else p.quotaLimit,
      if q.quotaUsed.Set? then q.quotaUsed else p.quotaUsed,
      if q.updatedAt.Set? then q.updatedAt else p.updatedAt)
  }

  /** The empty patch changes nothing. */
  lemma OverlayEmpty(row: Subscription)
    ensures Overlay(row, EmptyPatch) == row
  {
  }

  /** Applying the same patch twice is the same as applying it once. */
  lemma OverlayIdempotent(row: Subscription, p: Patch)
    ensures Overlay(Overlay(row, p), p) == Overlay(row, p)
  {
  }

  /** Two successive merges are one merge of the spread of both patches. */
  lemma OverlayThen(row: Subscription, p: Patch, q: Patch)
    ensures Overlay(Overlay(row, p), q) == Overlay(row, Then(p, q))
  {
  }

  /** Only the keys a patch holds are written. */
  lemma OverlayOnlyPatchedColumns(row: Subscription, p: Patch)
    ensures p.quotaUsed.Absent? ==> Overlay(row, p).quotaUsed == row.quotaUsed
    ensures p.priceId.Absent? ==> Overlay(row, p).priceId == row.priceId
    ensures p.customerId.Absent? ==> Overlay(row, p).customerId == row.customerId
    ensures IsEmpty(p) <==> (forall r: Subscription :: Overlay(r, p) == r)
  {
    if !IsEmpty(p) {
      var probe := Subscription(row.userId, Some("a"), Some("a"), Some("a"), Some("a"),
        Some("a"), Some("a"), Some(-1), Some(-1), Some("a"));
      var other := Subscription(row.userId, None, None, None, None, None, None, None, None, None);
      assert Overlay(probe, p) != probe || Overlay(other, p) != other;
    }
  }

  // ----- pure rules --------------------------------------------------------

  /** `PAID_STATUSES`. */
  const PaidStatuses: set<string> := {"active", "trialing", "past_due"}

  /** `resolveQuotaLimit`: the plan quota of a known price, else the free quota. */
  function ResolveQuotaLimit(priceId: Option<string>): (q: int)
    ensures priceId.None? || priceId == Some("") ==> q == FreeTierQuota
    ensures priceId.Some? && priceId.value in StripePlanQuotas ==> q == StripePlanQuotas[priceId.value]
    ensures priceId.Some? && priceId.value !in StripePlanQuotas ==> q == FreeTierQuota
  {
    match priceId
    case None => FreeTierQuota
    case Some(p) => if p == "" then FreeTierQuota else if p in StripePlanQuotas then StripePlanQuotas[p] else FreeTierQuota
  }

  /** The quota of each plan: 10 free, 50 Basic, 200 Pro; never below the free quota. */
  lemma QuotaOfEachPlan(priceId: Option<string>)
    ensures ResolveQuotaLimit(Some(StripeBasicPriceId)) == 50
    ensures ResolveQuotaLimit(Some(StripeProPriceId)) == 200
    ensures ResolveQuotaLimit(priceId) >= FreeTierQuota
    ensures ResolveQuotaLimit(priceId) != FreeTierQuota ==> priceId == Some(StripeBasicPriceId) || priceId == Some(StripeProPriceId)
  {
    PlanQuotaTable();
  }

  /** `hasActiveSubscription`. */
  predicate HasActiveSubscription(status: Option<string>) {
    status.Some? && status.value != "" && status.value in PaidStatuses
  }

  lemma ActiveStatuses(status: Option<string>)
    ensures HasActiveSubscription(status) <==> status == Some("active") || status == Some("trialing") || status == Some("past_due")
  {
  }

  /** `shouldResetUsage(previousPeriodStart, nextPeriodStart)`: a new billing
      period is detected when the stored start, in whole epoch seconds,
      differs from the reported one. Unparseable text is `NaN`, which differs
      from everything. */
  function ShouldResetUsage(previous: Option<string>, next: int): (reset: bool)
    ensures next == 0 ==> !reset
    ensures next != 0 && (previous.None? || previous == Some("")) ==> reset
    ensures next != 0 && previous.Some? && previous.value != "" ==>
      (reset <==> ParseIso(previous.value).None? || ParseIso(previous.value).value / 1000 != next)
  {
    if next == 0 then false
    else if previous.None? || previous.value == "" then true
    else
      match ParseIso(previous.value)
      case None => true
      case Some(ms) => ms / 1000 != next
  }

  /** A period start stored through `toIso` is recognised as the same period. */
  lemma SamePeriodNoReset(e: int)
    requires e != 0
    ensures !ShouldResetUsage(ToIso(Some(e)), e)
  {
    assert (e * 1000) / 1000 == e;
  }

  // ----- the table -----------------------------------------------------

  type Table = map<UserId, Subscription>

  /** Each row sits under its owner's id. */
  predicate Keyed(t: Table) {
    forall u :: u in t ==> t[u].userId == u
  }

  /** `defaults?.key ?? baseline`: a missing key or an explicit `null` falls back. */
  function OrElse<T>(f: Field<Option<T>>, baseline: Option<T>): (r: Option<T>)
    ensures f.Set? && f.value.Some? ==> r == f.value
    ensures f.Absent? || f.value.None? ==> r == baseline
  {
    if f.Set? && f.value.Some? then f.value else baseline
  }

  /** The row `ensureSubscriptionRow` inserts for a user without one. */
  function SeedRow(userId: UserId, defaults: Patch): (r: Subscription)
    ensures r.userId == userId
    ensures r.status == OrElse(defaults.status, Some("free"))
    ensures r.quotaLimit == OrElse(defaults.quotaLimit, Some(FreeTierQuota))
    ensures r.quotaUsed == OrElse(defaults.quotaUsed, Some(0))
    ensures r.customerId == OrElse(defaults.customerId, None)
    ensures r.subscriptionId == OrElse(defaults.subscriptionId, None)
    ensures r.priceId == OrElse(defaults.priceId, None)
    ensures r.status.Some? && r.quotaLimit.Some? && r.quotaUsed.Some?
  {
    Subscription(userId,
      OrElse(defaults.customerId, None), OrElse(defaults.subscriptionId, None),
      OrElse(defaults.priceId, None), OrElse(defaults.status, Some("free")),
      OrElse(defaults.periodStart, None), OrElse(defaults.periodEnd, None),
      OrElse(defaults.quotaLimit, Some(FreeTierQuota)), OrElse(defaults.quotaUsed, Some(0)),
      None)
  }

  /** The baseline of an upsert insert: `{ user_id, quota_limit: FREE_TIER_QUOTA,
      quota_used: 0, status: 'free' }`; other columns take their (null) default. */
  function Baseline(userId: UserId): (r: Subscription)
    ensures r.userId == userId && r.status == Some("free")
    ensures r.quotaLimit == Some(FreeTierQuota) && r.quotaUsed == Some(0)
    ensures r.customerId.None? && r.subscriptionId.None? && r.priceId.None?
  {
    Subscription(userId, None, None, None, Some("free"), None, None, Some(FreeTierQuota), Some(0), None)
  }

  /** No patch key is an explicit `null`. */
  predicate NoNulls(p: Patch) {
    (p.customerId.Set? ==> p.customerId.value.Some?) && (p.subscriptionId.Set? ==> p.subscriptionId.value.Some?)
    && (p.priceId.Set? ==> p.priceId.value.Some?) && (p.status.Set? ==> p.status.value.Some?)
    && (p.periodStart.Set? ==> p.periodStart.value.Some?) && (p.periodEnd.Set? ==> p.periodEnd.value.Some?)
    && (p.quotaLimit.Set? ==> p.quotaLimit.value.Some?) && (p.quotaUsed.Set? ==> p.quotaUsed.value.Some?)
    && p.updatedAt.Absent?
  }

  /** The `??` seed of `ensureSubscriptionRow` and the spread baseline of the
      upsert agree as long as the defaults hold no explicit `null`. */
  lemma SeedIsBaselineOverlay(userId: UserId, defaults: Patch)
    requires NoNulls(defaults)
    ensures SeedRow(userId, defaults) == Overlay(Baseline(userId), defaults)
  {
  }

  /** What `ensureSubscriptionRow` returns and leaves behind. */
  datatype Ensured = Ensured(result: Result<Subscription, DbError>, table: Table)

  /**
   * `ensureSubscriptionRow(userId, defaults)`. An existing row gets the
   * defaults merged in (with empty defaults nothing is written) and the merged
   * row is returned; a user without a row gets a seeded row, unless the
   * insert fails, in which case the error is raised and nothing changes.
   */
  function EnsureRow(t: Table, userId: UserId, defaults: Patch, insertError: Option<DbError>): (e: Ensured)
    ensures userId in t ==> e.result == Ok(Overlay(t[userId], defaults)) && e.table == t[userId := Overlay(t[userId], defaults)]
    ensures userId in t && IsEmpty(defaults) ==> e.table == t && e.result == Ok(t[userId])
    ensures userId !in t && insertError.Some? ==> e.result == Err(insertError.value) && e.table == t
    ensures userId !in t && insertError.None? ==> e.result == Ok(SeedRow(userId, defaults)) && e.table == t[userId := SeedRow(userId, defaults)]
    ensures e.result.Ok? ==> userId in e.table && e.table[userId] == e.result.value
    ensures e.table.Keys == t.Keys + (if e.result.Ok? then {userId} else {})
    ensures forall v :: v in t && v != userId ==> e.table[v] == t[v]
    ensures Keyed(t) ==> Keyed(e.table)
  {
    if userId in t then
      if !IsEmpty(defaults) then
        var merged := Overlay(t[userId], defaults);
        Ensured(Ok(merged), t[userId := merged])
      else
        OverlayEmpty(t[userId]);
        Ensured(Ok(t[userId]), t)
    else if insertError.Some? then
      Ensured(Err(insertError.value), t)
    else
      Ensured(Ok(SeedRow(userId, defaults)), t[userId := SeedRow(userId, defaults)])
  }

  /** The keys whose seed falls back on something other than `null` hold no
      explicit `null`, and the defaults carry no stamp. */
  predicate SeedStable(defaults: Patch) {
    defaults.status != Set(None) && defaults.quotaLimit != Set(None) && defaults.quotaUsed != Set(None)
    && defaults.updatedAt.Absent?
  }

  lemma OverlaySeed(userId: UserId, defaults: Patch)
    requires SeedStable(defaults)
    ensures Overlay(SeedRow(userId, defaults), defaults) == SeedRow(userId, defaults)
  {
  }

  /** Ensuring twice with the same defaults is the same as ensuring once. An
      explicit `null` status or quota breaks this: the seed replaces it by the
      baseline, the merge then writes the `null`. */
  lemma EnsureIdempotent(t: Table, userId: UserId, defaults: Patch, err1: Option<DbError>, err2: Option<DbError>)
    requires SeedStable(defaults)
    requires EnsureRow(t, userId, defaults, err1).result.Ok?
    ensures var once := EnsureRow(t, userId, defaults, err1);
      EnsureRow(once.table, userId, defaults, err2) == once
  {
    var once := EnsureRow(t, userId, defaults, err1);
    if userId in t {
      OverlayIdempotent(t[userId], defaults);
    } else {
      var s := SeedRow(userId, defaults);
      assert once.table[userId] == s;
      if !IsEmpty(defaults) {
        OverlaySeed(userId, defaults);
        assert once.table[userId := s] == once.table;
      }
    }
  }

  /** Without that condition ensuring is not idempotent: a `null` status is
      seeded as 'free' and then merged in as `null`. */
  lemma EnsureNullStatusNotIdempotent(userId: UserId)
    ensures var d := EmptyPatch.(status := Set(None));
      var once := EnsureRow(map[], userId, d, None);
      once.table[userId].status == Some("free")
      && EnsureRow(once.table, userId, d, None).table[userId].status == None
  {
  }

  /** The update payload of an upsert: the caller's keys plus `updated_at`. */
  function Stamped(updates: Patch, now: string): (p: Patch)
    ensures p == updates.(updatedAt := Set(Some(now)))
  {
    updates.(updatedAt := Set(Some(now)))
  }

  /** The row an upsert inserts: baseline, then `createDefaults`, then `updates`. */
  function InsertRow(userId: UserId, updates: Patch, createDefaults: Patch): (r: Subscription)
    ensures r == Overlay(Baseline(userId), Then(createDefaults, updates))
  {
    OverlayThen(Baseline(userId), createDefaults, updates);
    Overlay(Overlay(Baseline(userId), createDefaults), updates)
  }

  /**
   * `upsertSubscriptionForUser(userId, updates, { createDefaults })`. An
   * existing row changes in exactly the keys of `updates`, plus `updated_at`;
   * otherwise one row is inserted. Write errors are ignored by the source and
   * every write here succeeds.
   */
  function Upserted(t: Table, userId: UserId, updates: Patch, createDefaults: Patch, now: string): (u: Table)
    ensures u.Keys == t.Keys + {userId}
    ensures userId in t ==> u[userId] == Overlay(t[userId], Stamped(updates, now))
    ensures userId !in t ==> u[userId] == InsertRow(userId, updates, createDefaults)
    ensures forall v :: v in t && v != userId ==> u[v] == t[v]
    ensures Keyed(t) ==> Keyed(u)
  {
    if userId in t then t[userId := Overlay(t[userId], Stamped(updates, now))]
    else t[userId := InsertRow(userId, updates, createDefaults)]
  }

  /** A row without its `updated_at` stamp. */
  function Unstamped(row: Subscription): (r: Subscription)
    ensures r.updatedAt.None? && r == row.(updatedAt := None)
  {
    row.(updatedAt := None)
  }

  function UnstampedTable(t: Table): (r: Table)
    ensures r.Keys == t.Keys && forall u :: u in t ==> r[u] == Unstamped(t[u])
  {
    map u | u in t :: Unstamped(t[u])
  }

  lemma UnstampedUpdate(t: Table, userId: UserId, row: Subscription)
    ensures UnstampedTable(t[userId := row]) == UnstampedTable(t)[userId := Unstamped(row)]
  {
  }

  /** Repeating an upsert with the same arguments changes nothing but `updated_at`. */
  lemma UpsertIdempotentModuloStamp(t: Table, userId: UserId, updates: Patch, createDefaults: Patch, now1: string, now2: string)
    requires updates.updatedAt.Absent?
    ensures var once := Upserted(t, userId, updates, createDefaults, now1);
      UnstampedTable(Upserted(once, userId, updates, createDefaults, now2)) == UnstampedTable(once)
  {
    var once := Upserted(t, userId, updates, createDefaults, now1);
    var row := once[userId];
    var again := Overlay(row, Stamped(updates, now2));
    ReupsertedRow(t, userId, updates, createDefaults, now1, now2);
    assert Upserted(once, userId, updates, createDefaults, now2) == once[userId := again];
    UnstampedUpdate(once, userId, again);
    var u := UnstampedTable(once);
    RewriteSameRow(u, userId);
  }

  lemma RewriteSameRow(u: Table, userId: UserId)
    requires userId in u
    ensures u[userId := u[userId]] == u
  {
  }

  lemma ReupsertedRow(t: Table, userId: UserId, updates: Patch, createDefaults: Patch, now1: string, now2: string)
    requires updates.updatedAt.Absent?
    ensures var row := Upserted(t, userId, updates, createDefaults, now1)[userId];
      Unstamped(Overlay(row, Stamped(updates, now2))) == Unstamped(row)
  {
    if userId !in t {
      OverlayIdempotent(Overlay(Baseline(userId), createDefaults), updates);
    }
  }

  /** When the row exists, `createDefaults` plays no part. */
  lemma UpsertExistingIgnoresCreateDefaults(t: Table, userId: UserId, updates: Patch, d1: Patch, d2: Patch, now: string)
    requires userId in t
    ensures Upserted(t, userId, updates, d1, now) == Upserted(t, userId, updates, d2, now)
  {
  }

  /** `.eq(column, value).maybeSingle()`: the one matching row, or nothing when
      there is no match or (an error that the callers ignore) several. */
  function Single(t: Table, matches: set<UserId>): (r: Option<Subscription>)
    requires matches <= t.Keys
    ensures r.Some? <==> |matches| == 1
    ensures r.Some? ==> exists u :: u in matches && r.value == t[u]
  {
    if |matches| == 1 then
      SingletonHasWitness(matches);
      var u :| matches == {u};
      Some(t[u])
    else None
  }

  lemma SingletonHasWitness<T>(s: set<T>)
    requires |s| == 1
    ensures exists x :: s == {x}
  {
    var x :| x in s;
    assert |s - {x}| == 0;
    assert s == {x};
  }

  function CustomerRows(t: Table, customerId: string): (s: set<UserId>)
    ensures s <= t.Keys
    ensures forall u :: u in s <==> u in t && t[u].customerId == Some(customerId)
  {
    set u | u in t && t[u].customerId == Some(customerId)
  }

  function SubscriptionRows(t: Table, subscriptionId: string): (s: set<UserId>)
    ensures s <= t.Keys
    ensures forall u :: u in s <==> u in t && t[u].subscriptionId == Some(subscriptionId)
  {
    set u | u in t && t[u].subscriptionId == Some(subscriptionId)
  }

  /** `select('*').eq('stripe_customer_id', customerId).maybeSingle()`. */
  function FindByCustomer(t: Table, customerId: string): (r: Option<Subscription>)
    ensures r.Some? ==> r.value in t.Values && r.value.customerId == Some(customerId)
    ensures r.None? ==> |CustomerRows(t, customerId)| != 1
  {
    Single(t, CustomerRows(t, customerId))
  }

  /** `select('user_id').eq('stripe_subscription_id', subscriptionId).maybeSingle()`. */
  function FindBySubscription(t: Table, subscriptionId: string): (r: Option<Subscription>)
    ensures r.Some? ==> r.value in t.Values && r.value.subscriptionId == Some(subscriptionId)
    ensures r.None? ==> |SubscriptionRows(t, subscriptionId)| != 1
  {
    Single(t, SubscriptionRows(t, subscriptionId))
  }

  /** `fetchSubscriptionForUser`: the user's row, if any. */
  function FindByUser(t: Table, userId: UserId): (r: Option<Subscription>)
    ensures r.Some? <==> userId in t
    ensures r.Some? ==> r.value == t[userId]
  {
    if userId in t then Some(t[userId]) else None
  }

  /** What a route answers and the table it leaves behind. */
  datatype Served = Served(response: Response, table: Table)

  /** The subscriptions table behind the service functions. */
  class SubscriptionStore {
    var rows: Table

    constructor(initial: Table)
      ensures rows == initial
    {
      rows := initial;
    }

    /** `ensureSubscriptionRow`. */
    method Ensure(userId: UserId, defaults: Patch, insertError: Option<DbError>) returns (r: Result<Subscription, DbError>)
      modifies this
      ensures r == EnsureRow(old(rows), userId, defaults, insertError).result
      ensures rows == EnsureRow(old(rows), userId, defaults, insertError).table
    {
      if userId in rows {
        var existing := rows[userId];
        if !IsEmpty(defaults) {
          rows := rows[userId := Overlay(existing, defaults)];
          return Ok(Overlay(existing, defaults));
        }
        return Ok(existing);
      }
      var payload := SeedRow(userId, defaults);
      if insertError.Some? {
        return Err(insertError.value);
      }
      rows := rows[userId := payload];
      r := Ok(payload);
    }

    /** `upsertSubscriptionForUser`. */
    method Upsert(userId: UserId, updates: Patch, createDefaults: Patch, now: string)
      modifies this
      ensures rows == Upserted(old(rows), userId, updates, createDefaults, now)
    {
      if userId in rows {
        rows := rows[userId := Overlay(rows[userId], Stamped(updates, now))];
        return;
      }
      var inserted := Overlay(Overlay(Baseline(userId), createDefaults), updates);
      rows := rows[userId := inserted];
    }
  }
}
