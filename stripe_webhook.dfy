/**
 * The Stripe webhook endpoint: signature gate, dispatch on the event type,
 * and the three handlers that reconcile the subscriptions table with Stripe's
 * view of a checkout session, a subscription and a paid invoice.
 *
 * Stripe objects are plain values; a reference that Stripe may send either
 * as an id or as an expanded object is reduced to the id. The reply of the
 * customer lookup the subscription handler may make is an input, and so is
 * the insert error of the checkout handler's `ensureSubscriptionRow`.
 */
module StripeWebhook {
  import opened JsValues
  import opened Platform
  import opened Plans
  import opened Timestamps
  import opened Subscriptions
  import opened StripeObjects

  /** A verified event; `Unhandled` is any other event type. */
  datatype StripeEvent =
    | CheckoutSessionCompleted(session: CheckoutSession)
    | SubscriptionCreated(created: StripeSubscription)
    | SubscriptionUpdated(updated: StripeSubscription)
    | SubscriptionDeleted(deleted: StripeSubscription)
    | InvoicePaymentSucceeded(invoice: Invoice)
    | Unhandled(eventType: string)

  /** The one write a handler makes, if any. */
  datatype Write =
    | NoWrite
    | EnsureWrite(owner: UserId, defaults: Patch)
    | UpsertWrite(user: UserId, updates: Patch, createDefaults: Patch)

  /**
   * The owner of a subscription event: the subscription's metadata, else the
   * `user_id` of the row matched by customer id, else, when those give
   * nothing usable, the metadata of the Stripe customer (unless it was
   * deleted or could not be retrieved). `None` means unresolved.
   */
  function ResolveOwner(sub: StripeSubscription, existing: Option<Subscription>, customer: CustomerLookup): (r: Option<UserId>)
    ensures r.Some? ==> r.value != ""
    ensures Present(sub.metadataUserId) ==> r == sub.metadataUserId
    ensures sub.metadataUserId.None? && existing.Some? && existing.value.userId != "" ==> r == Some(existing.value.userId)
    ensures !Present(sub.metadataUserId) && r.Some? && (existing.None? || r.value != existing.value.userId) ==>
      customer.ActiveCustomer? && r == customer.metadataUserId
    ensures (customer.ActiveCustomer? && Present(customer.metadataUserId) && !Present(sub.metadataUserId)
      && (sub.metadataUserId.Some? || existing.None? || existing.value.userId == "")) ==> r == customer.metadataUserId
    ensures !customer.ActiveCustomer? && !Present(sub.metadataUserId) && (sub.metadataUserId.Some? || existing.None?) ==> r.None?
  {
    var first := if sub.metadataUserId.Some? then sub.metadataUserId
      else if existing.Some? then Some(existing.value.userId) else None;
    if Present(first) then first
    else if customer.ActiveCustomer? && Present(customer.metadataUserId) then customer.metadataUserId
    else None
  }

  predicate IsTerminated(status: string) {
    status == "canceled" || status == "incomplete_expired"
  }

  /** The update a subscription event applies to its owner's row. `previousStart`
      is the period start of the row matched by customer id. */
  function SubscriptionUpdates(sub: StripeSubscription, customerId: string, previousStart: Option<string>): (p: Patch)
    ensures p.customerId == Set(Some(customerId)) && p.subscriptionId == Set(Some(sub.id))
    ensures p.status == Set(Some(sub.status))
    ensures p.periodStart == Set(ToIso(sub.periodStart)) && p.periodEnd == Set(ToIso(sub.periodEnd))
    ensures !IsTerminated(sub.status) ==>
      p.quotaLimit == Set(Some(ResolveQuotaLimit(FirstPrice(sub.items)))) && p.priceId == Set(FirstPrice(sub.items))
    ensures !IsTerminated(sub.status) ==>
      (p.quotaUsed.Set? <==> ShouldResetUsage(previousStart, sub.periodStart.GetOr(0)))
    ensures IsTerminated(sub.status) ==>
      p.quotaLimit == Set(Some(FreeTierQuota)) && p.priceId == Set(None) && p.quotaUsed == Set(Some(0))
    ensures p.quotaUsed.Set? ==> p.quotaUsed == Set(Some(0))
    ensures p.updatedAt.Absent?
  {
    var priceId := FirstPrice(sub.items);
    var base := Patch(Set(Some(customerId)), Set(Some(sub.id)), Set(priceId), Set(Some(sub.status)),
      Set(ToIso(sub.periodStart)), Set(ToIso(sub.periodEnd)), Set(Some(ResolveQuotaLimit(priceId))), Absent, Absent);
    var reset := if ShouldResetUsage(previousStart, sub.periodStart.GetOr(0)) then base.(quotaUsed := Set(Some(0))) else base;
    if IsTerminated(sub.status) then
      reset.(quotaLimit := Set(Some(FreeTierQuota)), priceId := Set(None), quotaUsed := Set(Some(0)))
    else reset
  }

  /** The row a subscription event inserts for an owner without one. */
  function SubscriptionCreateDefaults(sub: StripeSubscription, customerId: string): (p: Patch)
    ensures p.quotaUsed == Set(Some(0)) && p.status == Set(Some(sub.status))
    ensures p.quotaLimit == Set(Some(ResolveQuotaLimit(FirstPrice(sub.items))))
    ensures p.customerId == Set(Some(customerId)) && p.subscriptionId == Set(Some(sub.id))
  {
    var priceId := FirstPrice(sub.items);
    Patch(Set(Some(customerId)), Set(Some(sub.id)), Set(priceId), Set(Some(sub.status)),
      Set(ToIso(sub.periodStart)), Set(ToIso(sub.periodEnd)), Set(Some(ResolveQuotaLimit(priceId))), Set(Some(0)), Absent)
  }

  /** `handleSubscriptionEvent`. */
  function SubscriptionEventWrite(t: Table, sub: StripeSubscription, customer: CustomerLookup): (w: Write)
    ensures !Present(sub.customer) ==> w.NoWrite?
    ensures w.UpsertWrite? ==> (Present(sub.customer)
      && var existing := FindByCustomer(t, sub.customer.value);
         Some(w.user) == ResolveOwner(sub, existing, customer)
         && w.updates == SubscriptionUpdates(sub, sub.customer.value, if existing.Some? then existing.value.periodStart else None)
         && w.createDefaults == SubscriptionCreateDefaults(sub, sub.customer.value))
    ensures Present(sub.customer) && ResolveOwner(sub, FindByCustomer(t, sub.customer.value), customer).None? ==> w.NoWrite?
    ensures !w.EnsureWrite?
  {
    if !Present(sub.customer) then NoWrite
    else
      var customerId := sub.customer.value;
      var existing := FindByCustomer(t, customerId);
      match ResolveOwner(sub, existing, customer)
      case None => NoWrite
      case Some(owner) =>
        UpsertWrite(owner,
          SubscriptionUpdates(sub, customerId, if existing.Some? then existing.value.periodStart else None),
          SubscriptionCreateDefaults(sub, customerId))
  }

  /** `handleCheckoutSession`: a completed checkout marks the owner's row pending. */
  function CheckoutSessionWrite(session: CheckoutSession): (w: Write)
    ensures !Present(session.customer) || !Present(session.metadataUserId) ==> w.NoWrite?
    ensures Present(session.customer) && Present(session.metadataUserId) ==>
      w == EnsureWrite(session.metadataUserId.value,
        EmptyPatch.(customerId := Set(session.customer), status := Set(Some("pending")), subscriptionId := Set(session.subscription)))
  {
    if !Present(session.customer) || !Present(session.metadataUserId) then NoWrite
    else EnsureWrite(session.metadataUserId.value,
      EmptyPatch.(customerId := Set(session.customer), status := Set(Some("pending")), subscriptionId := Set(session.subscription)))
  }

  /** The update a paid invoice applies: usage restarts, the plan is active,
      the period and quota follow the first line; a line without a price
      leaves the stored price as it is. */
  function InvoiceUpdates(subscriptionId: string, customerId: string, line: Option<InvoiceLine>): (p: Patch)
    ensures p.quotaUsed == Set(Some(0)) && p.status == Set(Some("active"))
    ensures p.customerId == Set(Some(customerId)) && p.subscriptionId == Set(Some(subscriptionId))
    ensures line.None? || line.value.priceId.None? ==> p.priceId.Absent? && p.quotaLimit == Set(Some(FreeTierQuota))
    ensures line.Some? && line.value.priceId.Some? ==>
      p.priceId == Set(line.value.priceId) && p.quotaLimit == Set(Some(ResolveQuotaLimit(line.value.priceId)))
    ensures line.Some? ==> p.periodStart == Set(ToIso(Some(line.value.periodStart))) && p.periodEnd == Set(ToIso(Some(line.value.periodEnd)))
    ensures line.None? ==> p.periodStart == Set(None) && p.periodEnd == Set(None)
    ensures p.updatedAt.Absent?
  {
    var priceId := if line.Some? then line.value.priceId else None;
    Patch(Set(Some(customerId)), Set(Some(subscriptionId)),
      if priceId.Some? then Set(priceId) else Absent,
      Set(Some("active")),
      Set(ToIso(if line.Some? then Some(line.value.periodStart) else None)),
      Set(ToIso(if line.Some? then Some(line.value.periodEnd) else None)),
      Set(Some(ResolveQuotaLimit(priceId))), Set(Some(0)), Absent)
  }

  function InvoiceCreateDefaults(subscriptionId: string, customerId: string, line: Option<InvoiceLine>): (p: Patch)
    ensures p.quotaUsed == Set(Some(0)) && p.status == Set(Some("active"))
  {
    var priceId := if line.Some? then line.value.priceId else None;
    Patch(Set(Some(customerId)), Set(Some(subscriptionId)), Set(priceId), Set(Some("active")),
      Set(ToIso(if line.Some? then Some(line.value.periodStart) else None)),
      Set(ToIso(if line.Some? then Some(line.value.periodEnd) else None)),
      Set(Some(ResolveQuotaLimit(priceId))), Set(Some(0)), Absent)
  }

  function FirstLine(lines: seq<InvoiceLine>): Option<InvoiceLine> {
    if |lines| == 0 then None else Some(lines[0])
  }

  /** `handleInvoicePaid`: only a row already linked to the subscription is touched. */
  function InvoiceWrite(t: Table, invoice: Invoice): (w: Write)
    ensures !Present(invoice.subscription) || !Present(invoice.customer) ==> w.NoWrite?
    ensures w.UpsertWrite? ==> (Present(invoice.subscription) && Present(invoice.customer)
      && var existing := FindBySubscription(t, invoice.subscription.value);
         existing.Some? && existing.value.userId == w.user && w.user != ""
         && w.updates == InvoiceUpdates(invoice.subscription.value, invoice.customer.value, FirstLine(invoice.lines)))
    ensures Present(invoice.subscription) && Present(invoice.customer) && FindBySubscription(t, invoice.subscription.value).None? ==> w.NoWrite?
    ensures !w.EnsureWrite?
  {
    if !Present(invoice.subscription) || !Present(invoice.customer) then NoWrite
    else
      var subscriptionId := invoice.subscription.value;
      var customerId := invoice.customer.value;
      var existing := FindBySubscription(t, subscriptionId);
      if existing.None? || existing.value.userId == "" then NoWrite
      else
        var line := FirstLine(invoice.lines);
        UpsertWrite(existing.value.userId,
          InvoiceUpdates(subscriptionId, customerId, line),
          InvoiceCreateDefaults(subscriptionId, customerId, line))
  }

  /** The `switch (event.type)` of `POST`. */
  function EventWrite(t: Table, event: StripeEvent, customer: CustomerLookup): (w: Write)
    ensures event.Unhandled? ==> w.NoWrite?
    ensures event.SubscriptionCreated? ==> w == SubscriptionEventWrite(t, event.created, customer)
    ensures event.SubscriptionUpdated? ==> w == SubscriptionEventWrite(t, event.updated, customer)
    ensures event.SubscriptionDeleted? ==> w == SubscriptionEventWrite(t, event.deleted, customer)
    ensures event.CheckoutSessionCompleted? ==> w == CheckoutSessionWrite(event.session)
    ensures event.InvoicePaymentSucceeded? ==> w == InvoiceWrite(t, event.invoice)
    ensures w.EnsureWrite? ==> event.CheckoutSessionCompleted?
  {
    match event
    case CheckoutSessionCompleted(session) => CheckoutSessionWrite(session)
    case SubscriptionCreated(sub) => SubscriptionEventWrite(t, sub, customer)
    case SubscriptionUpdated(sub) => SubscriptionEventWrite(t, sub, customer)
    case SubscriptionDeleted(sub) => SubscriptionEventWrite(t, sub, customer)
    case InvoicePaymentSucceeded(invoice) => InvoiceWrite(t, invoice)
    case Unhandled(_) => NoWrite
  }

  /** The result of performing a write: whether it raised, and the table after it. */
  datatype Applied = Applied(raised: bool, table: Table)

  function ApplyWrite(t: Table, w: Write, insertError: Option<DbError>, now: string): (a: Applied)
    ensures w.NoWrite? ==> a == Applied(false, t)
    ensures w.UpsertWrite? ==> a == Applied(false, Upserted(t, w.user, w.updates, w.createDefaults, now))
    ensures w.EnsureWrite? ==> (a.table == EnsureRow(t, w.owner, w.defaults, insertError).table
      && (a.raised <==> EnsureRow(t, w.owner, w.defaults, insertError).result.Err?))
    ensures a.raised ==> a.table == t
    ensures Keyed(t) ==> Keyed(a.table)
  {
    match w
    case NoWrite => Applied(false, t)
    case EnsureWrite(owner, defaults) =>
      var e := EnsureRow(t, owner, defaults, insertError);
      Applied(e.result.Err?, e.table)
    case UpsertWrite(user, updates, createDefaults) =>
      Applied(false, Upserted(t, user, updates, createDefaults, now))
  }

  const ReceivedBody: Json := JObj(map["received" := JBool(true)])

  /** What `POST` answers and leaves in the table. */
  datatype Delivery = Delivery(response: Response, table: Table)

  /**
   * `POST /api/webhooks/stripe`. `signature` is the `stripe-signature`
   * header; `verified` is what `constructEvent` yields, `None` when it throws
   * (a bad signature, a missing secret or an unreadable body).
   */
  function Deliver(t: Table, signature: Option<string>, verified: Option<StripeEvent>,
                   customer: CustomerLookup, insertError: Option<DbError>, now: string): (d: Delivery)
    ensures !Present(signature) ==> d == Delivery(MessageResponse(400, "Missing Stripe signature header."), t)
    ensures Present(signature) && verified.None? ==> d == Delivery(MessageResponse(400, "Invalid signature."), t)
    ensures d.response.status == 500 ==> d.response == MessageResponse(500, "Webhook handler failed.") && d.table == t
    ensures d.response.status in {200, 400, 500}
    ensures d.response.status == 200 <==> (Present(signature) && verified.Some?
      && !ApplyWrite(t, EventWrite(t, verified.value, customer), insertError, now).raised)
    ensures d.response.status == 200 ==> (d.response.body == ReceivedBody
      && d.table == ApplyWrite(t, EventWrite(t, verified.value, customer), insertError, now).table)
    ensures d.response.status != 200 ==> d.table == t
  {
    if !Present(signature) then Delivery(MessageResponse(400, "Missing Stripe signature header."), t)
    else if verified.None? then Delivery(MessageResponse(400, "Invalid signature."), t)
    else
      var a := ApplyWrite(t, EventWrite(t, verified.value, customer), insertError, now);
      if a.raised then Delivery(MessageResponse(500, "Webhook handler failed."), t)
      else Delivery(Response(200, ReceivedBody), a.table)
  }

  // ----- properties ----------------------------------------------------

  /** Unhandled event types, and subscription events without a customer or
      without a resolvable owner, are acknowledged and change nothing. */
  lemma IgnoredEventsWriteNothing(t: Table, signature: string, event: StripeEvent,
                                  customer: CustomerLookup, insertError: Option<DbError>, now: string)
    requires signature != ""
    requires event.Unhandled?
      || (event.SubscriptionUpdated? && (!Present(event.updated.customer)
          || ResolveOwner(event.updated, FindByCustomer(t, event.updated.customer.value), customer).None?))
    ensures Deliver(t, Some(signature), Some(event), customer, insertError, now) == Delivery(Response(200, ReceivedBody), t)
  {
  }

  /** A failed or deleted customer lookup never fails the delivery. */
  lemma CustomerLookupFailureSwallowed(t: Table, signature: string, sub: StripeSubscription, insertError: Option<DbError>, now: string)
    requires signature != ""
    ensures Deliver(t, Some(signature), Some(SubscriptionUpdated(sub)), LookupFailed, insertError, now).response.status == 200
    ensures Deliver(t, Some(signature), Some(SubscriptionUpdated(sub)), DeletedCustomer, insertError, now).response.status == 200
  {
  }

  /** The subscription event's effect on its owner's existing row: status and
      period mirror the payload; the quota follows the first price; usage is
      reset to 0 exactly when a new period is detected, and left alone
      otherwise; a cancelled or expired subscription falls back to the free plan. */
  lemma SubscriptionEventOnExistingRow(t: Table, sub: StripeSubscription, customer: CustomerLookup, now: string)
    requires Keyed(t)
    requires Present(sub.customer)
    requires var w := SubscriptionEventWrite(t, sub, customer); w.UpsertWrite? && w.user in t
    ensures var w := SubscriptionEventWrite(t, sub, customer);
      var row := Upserted(t, w.user, w.updates, w.createDefaults, now)[w.user];
      var existing := FindByCustomer(t, sub.customer.value);
      var previousStart := if existing.Some? then existing.value.periodStart else None;
      && row.status == Some(sub.status)
      && row.customerId == sub.customer
      && row.subscriptionId == Some(sub.id)
      && row.periodStart == ToIso(sub.periodStart)
      && row.updatedAt == Some(now)
      && (!IsTerminated(sub.status) ==> row.quotaLimit == Some(ResolveQuotaLimit(FirstPrice(sub.items))))
      && (!IsTerminated(sub.status) && !ShouldResetUsage(previousStart, sub.periodStart.GetOr(0)) ==> row.quotaUsed == t[w.user].quotaUsed)
      && (!IsTerminated(sub.status) && ShouldResetUsage(previousStart, sub.periodStart.GetOr(0)) ==> row.quotaUsed == Some(0))
      && (IsTerminated(sub.status) ==> row.quotaLimit == Some(FreeTierQuota) && row.priceId.None? && row.quotaUsed == Some(0))
  {
  }

  /** A redelivered subscription event for the period already stored on the
      owner's row does not reset usage again, so generations consumed in
      between are kept. */
  lemma RedeliveryKeepsUsage(t: Table, sub: StripeSubscription, customer: CustomerLookup, now: string)
    requires Keyed(t) && Present(sub.customer) && !IsTerminated(sub.status)
    requires sub.periodStart.Some? && sub.periodStart.value != 0
    requires var w := SubscriptionEventWrite(t, sub, customer); w.UpsertWrite? && w.user in t
    requires var w := SubscriptionEventWrite(t, sub, customer);
      CustomerRows(t, sub.customer.value) == {w.user} && t[w.user].periodStart == ToIso(sub.periodStart)
    ensures var w := SubscriptionEventWrite(t, sub, customer);
      Upserted(t, w.user, w.updates, w.createDefaults, now)[w.user].quotaUsed == t[w.user].quotaUsed
  {
    var w := SubscriptionEventWrite(t, sub, customer);
    var existing := FindByCustomer(t, sub.customer.value);
    assert existing == Some(t[w.user]);
    SamePeriodNoReset(sub.periodStart.value);
  }

  /** The first delivery for a new owner inserts a row with zero usage and the plan's quota. */
  lemma SubscriptionEventInsertsRow(t: Table, sub: StripeSubscription, customer: CustomerLookup, now: string)
    requires Present(sub.customer) && !IsTerminated(sub.status)
    requires var w := SubscriptionEventWrite(t, sub, customer); w.UpsertWrite? && w.user !in t
    ensures var w := SubscriptionEventWrite(t, sub, customer);
      var row := Upserted(t, w.user, w.updates, w.createDefaults, now)[w.user];
      row.userId == w.user && row.quotaUsed == Some(0) && row.status == Some(sub.status)
      && row.quotaLimit == Some(ResolveQuotaLimit(FirstPrice(sub.items)))
  {
  }

  /** A completed checkout with a customer and an owner ensures the owner's
      row with status 'pending'; an existing row, even an active one, is
      marked pending. Without either id nothing is written. */
  lemma CheckoutMarksPending(t: Table, session: CheckoutSession, insertError: Option<DbError>, now: string)
    requires Present(session.customer) && Present(session.metadataUserId)
    requires session.metadataUserId.value in t
    ensures var a := ApplyWrite(t, CheckoutSessionWrite(session), insertError, now);
      !a.raised && a.table[session.metadataUserId.value].status == Some("pending")
      && a.table[session.metadataUserId.value].customerId == session.customer
      && a.table[session.metadataUserId.value].quotaUsed == t[session.metadataUserId.value].quotaUsed
  {
  }

  /** A paid invoice for a linked row restarts usage and activates the plan;
      without a price on its first line, the stored price is kept. */
  lemma InvoiceRenewsRow(t: Table, invoice: Invoice, now: string)
    requires Keyed(t)
    requires InvoiceWrite(t, invoice).UpsertWrite?
    ensures var w := InvoiceWrite(t, invoice);
      w.user in t
      && var row := Upserted(t, w.user, w.updates, w.createDefaults, now)[w.user];
         row.quotaUsed == Some(0) && row.status == Some("active")
         && row.subscriptionId == invoice.subscription
         && (FirstLine(invoice.lines).None? || FirstLine(invoice.lines).value.priceId.None? ==> row.priceId == t[w.user].priceId)
  {
    var w := InvoiceWrite(t, invoice);
    var existing := FindBySubscription(t, invoice.subscription.value);
    assert existing.value in t.Values;
    var u :| u in t && t[u] == existing.value;
    assert u == w.user;
  }

  /** Re-sending a delivery that was acknowledged changes nothing but `updated_at`,
      for an upsert-type event whose lookups find the same rows. */
  lemma RedeliveredWriteIsStable(t: Table, w: Write, now1: string, now2: string)
    requires w.UpsertWrite? && w.updates.updatedAt.Absent?
    ensures var once := ApplyWrite(t, w, None, now1).table;
      UnstampedTable(ApplyWrite(once, w, None, now2).table) == UnstampedTable(once)
  {
    UpsertIdempotentModuloStamp(t, w.user, w.updates, w.createDefaults, now1, now2);
  }

  // ----- the handlers, step by step -------------------------------------

  /** `handleSubscriptionEvent`, as the source runs it: resolve the owner,
      build the update, then adjust it in place. */
  method HandleSubscriptionEvent(store: SubscriptionStore, sub: StripeSubscription, customer: CustomerLookup, now: string)
    modifies store
    ensures store.rows == ApplyWrite(old(store.rows), SubscriptionEventWrite(old(store.rows), sub, customer), None, now).table
  {
    if !Present(sub.customer) {
      return;
    }
    var customerId := sub.customer.value;
    var existing := FindByCustomer(store.rows, customerId);
    var userId := ResolveOwner(sub, existing, customer);
    if userId.None? {
      return;
    }
    var previousStart := if existing.Some? then existing.value.periodStart else None;
    store.Upsert(userId.value, SubscriptionUpdates(sub, customerId, previousStart), SubscriptionCreateDefaults(sub, customerId), now);
  }

  /** `handleCheckoutSession`; `raised` is the propagated insert error. */
  method HandleCheckoutSession(store: SubscriptionStore, session: CheckoutSession, insertError: Option<DbError>) returns (raised: bool)
    modifies store
    ensures var a := ApplyWrite(old(store.rows), CheckoutSessionWrite(session), insertError, "");
      store.rows == a.table && raised == a.raised
  {
    if !Present(session.customer) || !Present(session.metadataUserId) {
      return false;
    }
    var r := store.Ensure(session.metadataUserId.value,
      EmptyPatch.(customerId := Set(session.customer), status := Set(Some("pending")), subscriptionId := Set(session.subscription)),
      insertError);
    raised := r.Err?;
  }

  /** `handleInvoicePaid`. */
  method HandleInvoicePaid(store: SubscriptionStore, invoice: Invoice, now: string)
    modifies store
    ensures store.rows == ApplyWrite(old(store.rows), InvoiceWrite(old(store.rows), invoice), None, now).table
  {
    if !Present(invoice.subscription) || !Present(invoice.customer) {
      return;
    }
    var existing := FindBySubscription(store.rows, invoice.subscription.value);
    if existing.None? || existing.value.userId == "" {
      return;
    }
    var line := FirstLine(invoice.lines);
    store.Upsert(existing.value.userId,
      InvoiceUpdates(invoice.subscription.value, invoice.customer.value, line),
      InvoiceCreateDefaults(invoice.subscription.value, invoice.customer.value, line), now);
  }

  /** `POST /api/webhooks/stripe`. */
  method Post(store: SubscriptionStore, signature: Option<string>, verified: Option<StripeEvent>,
              customer: CustomerLookup, insertError: Option<DbError>, now: string) returns (response: Response)
    modifies store
    ensures var d := Deliver(old(store.rows), signature, verified, customer, insertError, now);
      response == d.response && store.rows == d.table
  {
    if !Present(signature) {
      return MessageResponse(400, "Missing Stripe signature header.");
    }
    if verified.None? {
      return MessageResponse(400, "Invalid signature.");
    }
    var raised := false;
    match verified.value {
      case CheckoutSessionCompleted(session) =>
        raised := HandleCheckoutSession(store, session, insertError);
      case SubscriptionCreated(sub) =>
        HandleSubscriptionEvent(store, sub, customer, now);
      case SubscriptionUpdated(sub) =>
        HandleSubscriptionEvent(store, sub, customer, now);
      case SubscriptionDeleted(sub) =>
        HandleSubscriptionEvent(store, sub, customer, now);
      case InvoicePaymentSucceeded(invoice) =>
        HandleInvoicePaid(store, invoice, now);
      case Unhandled(_) =>
    }
    if raised {
      return MessageResponse(500, "Webhook handler failed.");
    }
    response := Response(200, ReceivedBody);
  }
}
