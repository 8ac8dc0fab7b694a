/**
 * `POST /api/stripe/checkout/session`: after Stripe redirects back from a
 * checkout, the client posts the session id and the route copies the
 * subscription's plan onto the caller's row. Every failure answers 400 with
 * the error's message.
 */
module CheckoutSessionRoute {
  import opened JsStrings
  import opened JsValues
  import opened Platform
  import opened Timestamps
  import opened Subscriptions
  import opened StripeObjects

  /** `session.subscription` after `expand: ['subscription']`. */
  datatype SubscriptionRef = NoSubscription | SubscriptionById(id: string) | ExpandedSubscription(id: string, metadataUserId: Option<string>)

  /** The parts of the retrieved checkout session that the route reads. */
  datatype RetrievedSession = RetrievedSession(metadataUserId: Option<string>, subscription: SubscriptionRef)

  /** Stripe's replies: the session and then its subscription, or an error message. */
  datatype StripeReplies = StripeReplies(session: Result<RetrievedSession, string>, subscription: Result<StripeSubscription, string>)

  /** The `TypeError` JavaScript raises for `subscription.customer.id` on a `null` customer. */
  const NullCustomerMessage := "Cannot read properties of null (reading 'id')"

  const SessionIdRequired := "A valid session identifier is required."

  /** The `TypeError` JavaScript raises for `payload.sessionId` on a `null` payload. */
  const NullPayloadMessage := "Cannot read properties of null (reading 'sessionId')"

  /** The `TypeError` JavaScript raises for `sessionId.trim()` on a truthy non-string. */
  const TrimNotAFunction := "sessionId.trim is not a function"

  /** `assertSessionId` on whatever `payload.sessionId` holds (`None` is
      `undefined`): a falsy value is refused, a string is trimmed, and any
      other value makes `.trim()` throw. */
  function AssertSessionId(sessionId: Option<Json>): (r: Result<string, string>)
    ensures sessionId.None? || !Truthy(sessionId.value) ==> r == Err(SessionIdRequired)
    ensures sessionId.Some? && Truthy(sessionId.value) && sessionId.value.JStr? ==> r == Ok(Trim(sessionId.value.s))
    ensures sessionId.Some? && Truthy(sessionId.value) && !sessionId.value.JStr? ==> r == Err(TrimNotAFunction)
    ensures r.Ok? ==> IsTrimmed(r.value) && |r.value| <= |sessionId.value.s|
  {
    match sessionId
    case None => Err(SessionIdRequired)
    case Some(v) =>
      if !Truthy(v) then Err(SessionIdRequired)
      else if !v.JStr? then Err(TrimNotAFunction)
      else Ok(Trim(v.s))
  }

  /** `assertSessionId(payload.sessionId)` on the parsed request body: a
      `null` body throws on the property read; an id is found only in an
      object whose `sessionId` is a non-empty string. */
  function ReadSessionId(body: Option<Json>): (r: Result<string, string>)
    ensures body == Some(JNull) ==> r == Err(NullPayloadMessage)
    ensures r.Ok? <==> (body.Some? && body.value.JObj? && "sessionId" in body.value.fields
      && body.value.fields["sessionId"].JStr? && body.value.fields["sessionId"].s != "")
    ensures r.Ok? ==> r.value == Trim(body.value.fields["sessionId"].s)
    ensures r == Err(TrimNotAFunction) <==> (body.Some? && body.value.JObj? && "sessionId" in body.value.fields
      && Truthy(body.value.fields["sessionId"]) && !body.value.fields["sessionId"].JStr?)
  {
    match RequestFields(body)
    case None => Err(NullPayloadMessage)
    case Some(fields) => AssertSessionId(Get(fields, "sessionId"))
  }

  /** A blank id passes the guard and becomes the empty string. */
  lemma BlankSessionIdAccepted()
    ensures AssertSessionId(Some(JStr("  "))) == Ok("")
  {
    assert Trim("  ") == [] by {
      assert IsSpace("  "[0]) && IsSpace("  "[1]);
    }
  }

  /** The owner the session names: its own metadata, else that of the expanded subscription. */
  function MetadataUserId(session: RetrievedSession): (r: Option<string>)
    ensures session.metadataUserId.Some? ==> r == session.metadataUserId
    ensures session.metadataUserId.None? && !session.subscription.ExpandedSubscription? ==> r.None?
  {
    if session.metadataUserId.Some? then session.metadataUserId
    else if session.subscription.ExpandedSubscription? then session.subscription.metadataUserId
    else None
  }

  function SubscriptionIdOf(ref: SubscriptionRef): Option<string> {
    match ref
    case NoSubscription => None
    case SubscriptionById(id) => Some(id)
    case ExpandedSubscription(id, _) => Some(id)
  }

  /** The update copied onto the caller's row. */
  function FinaliseUpdates(sub: StripeSubscription, customerId: string, priceId: string): (p: Patch)
    ensures p.quotaUsed == Set(Some(0)) && p.quotaLimit == Set(Some(ResolveQuotaLimit(Some(priceId))))
    ensures p.status == Set(Some(sub.status)) && p.priceId == Set(Some(priceId))
    ensures p.periodStart == Set(ToIso(sub.periodStart)) && p.periodEnd == Set(ToIso(sub.periodEnd))
    ensures p.customerId == Set(Some(customerId)) && p.subscriptionId == Set(Some(sub.id))
    ensures p.updatedAt.Absent?
  {
    Patch(Set(Some(customerId)), Set(Some(sub.id)), Set(Some(priceId)), Set(Some(sub.status)),
      Set(ToIso(sub.periodStart)), Set(ToIso(sub.periodEnd)),
      Set(Some(ResolveQuotaLimit(Some(priceId)))), Set(Some(0)), Absent)
  }

  function FinaliseCreateDefaults(priceId: string): (p: Patch)
    ensures p == EmptyPatch.(quotaLimit := Set(Some(ResolveQuotaLimit(Some(priceId)))), quotaUsed := Set(Some(0)))
  {
    EmptyPatch.(quotaLimit := Set(Some(ResolveQuotaLimit(Some(priceId)))), quotaUsed := Set(Some(0)))
  }

  function SuccessBody(status: string, priceId: string, quotaLimit: int): Json {
    JObj(map["status" := JStr(status), "priceId" := JStr(priceId), "quota_limit" := JNum(quotaLimit as real)])
  }

  function Fail(t: Table, message: string): (s: Served)
    ensures s.response == MessageResponse(400, message) && s.table == t
  {
    Served(MessageResponse(400, message), t)
  }

  /** The route, as one function of its inputs and the table. */
  function Finalise(t: Table, body: Option<Json>, auth: AuthLookup, stripe: StripeReplies, now: string): (s: Served)
    ensures s.response.status in {200, 400, 401}
    ensures s.response.status != 200 ==> s.table == t
    ensures ReadSessionId(body).Err? ==> s == Fail(t, ReadSessionId(body).error)
    ensures ReadSessionId(body).Ok? && auth.AuthFailed? ==> s == Fail(t, auth.message)
    ensures ReadSessionId(body).Ok? && auth.Anonymous? ==> s == Served(MessageResponse(401, "Authentication required."), t)
    ensures s.response.status == 200 ==> (auth.SignedIn? && stripe.session.Ok? && stripe.subscription.Ok?
      && stripe.subscription.value.customer.Some? && Present(FirstPrice(stripe.subscription.value.items))
      && s.table == Upserted(t, auth.user.id,
           FinaliseUpdates(stripe.subscription.value, stripe.subscription.value.customer.value, FirstPrice(stripe.subscription.value.items).value),
           FinaliseCreateDefaults(FirstPrice(stripe.subscription.value.items).value), now))
  {
    match ReadSessionId(body)
    case Err(m) => Fail(t, m)
    case Ok(_) =>
      match auth
      case AuthFailed(m, _, _) => Fail(t, m)
      case Anonymous => Served(MessageResponse(401, "Authentication required."), t)
      case SignedIn(user) =>
        match stripe.session
        case Err(m) => Fail(t, m)
        case Ok(session) =>
          var metadataUserId := MetadataUserId(session);
          if Present(metadataUserId) && metadataUserId.value != user.id then
            Fail(t, "This session does not belong to your account.")
          else if !Present(SubscriptionIdOf(session.subscription)) then
            Fail(t, "Unable to resolve subscription from checkout session.")
          else
            match stripe.subscription
            case Err(m) => Fail(t, m)
            case Ok(sub) => Record(t, user.id, sub, now)
  }

  /** The retrieved subscription's part: it needs a customer and a first
      price, and then the row is upserted. */
  function Record(t: Table, userId: UserId, sub: StripeSubscription, now: string): (s: Served)
    ensures s.response.status in {200, 400}
    ensures s.response.status != 200 ==> s.table == t
    ensures s.response.status == 200 <==> sub.customer.Some? && Present(FirstPrice(sub.items))
    ensures s.response.status == 200 ==> s.table == Upserted(t, userId,
      FinaliseUpdates(sub, sub.customer.value, FirstPrice(sub.items).value), FinaliseCreateDefaults(FirstPrice(sub.items).value), now)
  {
    if sub.customer.None? then Fail(t, NullCustomerMessage)
    else
      var priceId := FirstPrice(sub.items);
      if !Present(priceId) then Fail(t, "Subscription is missing price information.")
      else
        var quotaLimit := ResolveQuotaLimit(priceId);
        Served(Response(200, SuccessBody(sub.status, priceId.value, quotaLimit)),
          Upserted(t, userId, FinaliseUpdates(sub, sub.customer.value, priceId.value),
            FinaliseCreateDefaults(priceId.value), now))
  }

  /** A session that names another user is refused before any write. Absent
      metadata does not block. */
  lemma ForeignSessionRefused(t: Table, sessionId: string, user: AuthUser, stripe: StripeReplies, now: string)
    requires sessionId != ""
    requires stripe.session.Ok?
    requires Present(MetadataUserId(stripe.session.value)) && MetadataUserId(stripe.session.value).value != user.id
    ensures Finalise(t, Some(JObj(map["sessionId" := JStr(sessionId)])), SignedIn(user), stripe, now)
      == Fail(t, "This session does not belong to your account.")
  {
  }

  /** A `null` body and a truthy non-string id both throw a `TypeError`
      before the caller is looked up; the catch answers 400 with its message. */
  lemma MalformedPayloadRefused(t: Table, n: real, auth: AuthLookup, stripe: StripeReplies, now: string)
    requires n != 0.0
    ensures Finalise(t, Some(JNull), auth, stripe, now) == Fail(t, NullPayloadMessage)
    ensures Finalise(t, Some(JObj(map["sessionId" := JNum(n)])), auth, stripe, now) == Fail(t, TrimNotAFunction)
  {
  }

  /** A missing subscription or first-item price raises, and nothing is written. */
  lemma MissingSubscriptionOrPriceRefused(t: Table, sessionId: string, user: AuthUser, stripe: StripeReplies, now: string)
    requires sessionId != "" && stripe.session.Ok?
    requires !Present(MetadataUserId(stripe.session.value)) || MetadataUserId(stripe.session.value).value == user.id
    requires !Present(SubscriptionIdOf(stripe.session.value.subscription))
      || (stripe.subscription.Ok? && stripe.subscription.value.customer.Some? && !Present(FirstPrice(stripe.subscription.value.items)))
    ensures var s := Finalise(t, Some(JObj(map["sessionId" := JStr(sessionId)])), SignedIn(user), stripe, now);
      s.response.status == 400 && s.table == t
  {
  }

  /** On success the caller's row carries the subscription's plan, a fresh
      usage count and the period as stored text; nothing else changes. */
  lemma FinaliseSuccess(t: Table, body: Option<Json>, user: AuthUser, stripe: StripeReplies, now: string)
    requires Finalise(t, body, SignedIn(user), stripe, now).response.status == 200
    ensures var s := Finalise(t, body, SignedIn(user), stripe, now);
      var sub := stripe.subscription.value;
      var row := s.table[user.id];
      && user.id in s.table
      && row.quotaUsed == Some(0)
      && row.quotaLimit == Some(ResolveQuotaLimit(FirstPrice(sub.items)))
      && row.status == Some(sub.status)
      && row.priceId == FirstPrice(sub.items)
      && row.periodStart == ToIso(sub.periodStart)
      && row.periodEnd == ToIso(sub.periodEnd)
      && (forall v :: v in t && v != user.id ==> v in s.table && s.table[v] == t[v])
  {
    var sub := stripe.subscription.value;
    var priceId := FirstPrice(sub.items).value;
    var p := FinaliseUpdates(sub, sub.customer.value, priceId);
    var d := FinaliseCreateDefaults(priceId);
    var row := Upserted(t, user.id, p, d, now)[user.id];
    if user.id in t {
      assert row == Overlay(t[user.id], Stamped(p, now));
    } else {
      assert row == Overlay(Baseline(user.id), Then(d, p));
    }
  }

  /** The route step by step. */
  method Post(store: SubscriptionStore, body: Option<Json>, auth: AuthLookup, stripe: StripeReplies, now: string)
    returns (response: Response)
    modifies store
    ensures var s := Finalise(old(store.rows), body, auth, stripe, now);
      response == s.response && store.rows == s.table
  {
    var id := ReadSessionId(body);
    if id.Err? {
      return MessageResponse(400, id.error);
    }
    if auth.AuthFailed? {
      return MessageResponse(400, auth.message);
    }
    if auth.Anonymous? {
      return MessageResponse(401, "Authentication required.");
    }
    var user := auth.user;
    if stripe.session.Err? {
      return MessageResponse(400, stripe.session.error);
    }
    var session := stripe.session.value;
    var metadataUserId := MetadataUserId(session);
    if Present(metadataUserId) && metadataUserId.value != user.id {
      return MessageResponse(400, "This session does not belong to your account.");
    }
    var subscriptionId := SubscriptionIdOf(session.subscription);
    if !Present(subscriptionId) {
      return MessageResponse(400, "Unable to resolve subscription from checkout session.");
    }
    if stripe.subscription.Err? {
      return MessageResponse(400, stripe.subscription.error);
    }
    var sub := stripe.subscription.value;
    if sub.customer.None? {
      return MessageResponse(400, NullCustomerMessage);
    }
    var customerId := sub.customer.value;
    var priceId := FirstPrice(sub.items);
    if !Present(priceId) {
      return MessageResponse(400, "Subscription is missing price information.");
    }
    var quotaLimit := ResolveQuotaLimit(priceId);
    store.Upsert(user.id, FinaliseUpdates(sub, customerId, priceId.value), FinaliseCreateDefaults(priceId.value), now);
    response := Response(200, SuccessBody(sub.status, priceId.value, quotaLimit));
  }
}
