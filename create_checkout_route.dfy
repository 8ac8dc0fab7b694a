/**
 * `POST /api/create-subscription-checkout`: opens a Stripe checkout for the
 * Basic or Pro price. A caller without a Stripe customer gets one first, and
 * the customer id is recorded on the row before the redirect URLs are built.
 * Any raised error answers 400.
 */
module CreateCheckoutRoute {
  import opened JsStrings
  import opened JsValues
  import opened Platform
  import opened Plans
  import opened Subscriptions

  /** `VALID_PRICE_IDS`. */
  const ValidPriceIds: set<string> := {StripeBasicPriceId, StripeProPriceId}

  const PriceIdRequired := "A price identifier is required."
  const UnknownPriceId := "Unknown price identifier."

  /** `assertValidPriceId` on whatever `payload.priceId` holds (`None` is
      `undefined`): a falsy value is required, and a truthy value that is not
      one of the two price strings is unknown. */
  function AssertValidPriceId(priceId: Option<Json>): (r: Result<string, string>)
    ensures priceId.None? || !Truthy(priceId.value) ==> r == Err(PriceIdRequired)
    ensures priceId.Some? && Truthy(priceId.value) && !(priceId.value.JStr? && priceId.value.s in ValidPriceIds) ==> r == Err(UnknownPriceId)
    ensures r.Ok? <==> priceId.Some? && priceId.value.JStr? && priceId.value.s in ValidPriceIds
    ensures r.Ok? ==> r.value == priceId.value.s
  {
    match priceId
    case None => Err(PriceIdRequired)
    case Some(v) =>
      if !Truthy(v) then Err(PriceIdRequired)
      else if !(v.JStr? && v.s in ValidPriceIds) then Err(UnknownPriceId)
      else Ok(v.s)
  }

  /** The `TypeError` JavaScript raises for `payload.priceId` on a `null` payload. */
  const NullPayloadMessage := "Cannot read properties of null (reading 'priceId')"

  /** `assertValidPriceId(payload.priceId)` on the parsed request body: a
      `null` body throws a `TypeError` on the property read, the guard's
      refusals are `Error`s, and a price is found only as the `priceId` string
      of an object body. */
  function ReadPriceId(body: Option<Json>): (r: Result<string, Thrown>)
    ensures body == Some(JNull) ==> r == Err(NewTypeError(NullPayloadMessage))
    ensures r == Err(NewError(PriceIdRequired)) <==> (RequestFields(body).Some? && !TruthyKey(RequestFields(body).value, "priceId"))
    ensures r == Err(NewError(UnknownPriceId)) <==> (RequestFields(body).Some? && TruthyKey(RequestFields(body).value, "priceId")
      && !(RequestFields(body).value["priceId"].JStr? && RequestFields(body).value["priceId"].s in ValidPriceIds))
    ensures r.Ok? <==> (body.Some? && body.value.JObj? && "priceId" in body.value.fields
      && body.value.fields["priceId"].JStr? && body.value.fields["priceId"].s in ValidPriceIds)
    ensures r.Ok? ==> r.value == body.value.fields["priceId"].s
  {
    match RequestFields(body)
    case None => Err(NewTypeError(NullPayloadMessage))
    case Some(fields) =>
      match AssertValidPriceId(Get(fields, "priceId"))
      case Err(m) => Err(NewError(m))
      case Ok(price) => Ok(price)
  }

  /** `value.replace(/\/$/, '')`: one trailing slash is removed. */
  function StripTrailingSlash(s: string): (r: string)
    ensures |s| > 0 && s[|s| - 1] == '/' ==> r == s[..|s| - 1]
    ensures (|s| == 0 || s[|s| - 1] != '/') ==> r == s
  {
    if |s| > 0 && s[|s| - 1] == '/' then s[..|s| - 1] else s
  }

  /** `requirePublicUrl`: `NEXT_PUBLIC_URL` when defined (even if empty), else
      `NEXT_PUBLIC_APP_URL`; an empty or missing value raises. */
  function RequirePublicUrl(env: Env): (r: Result<string, string>)
    ensures "NEXT_PUBLIC_URL" in env && env["NEXT_PUBLIC_URL"] != "" ==> r == Ok(StripTrailingSlash(env["NEXT_PUBLIC_URL"]))
    ensures "NEXT_PUBLIC_URL" in env && env["NEXT_PUBLIC_URL"] == "" ==> r.Err?
    ensures "NEXT_PUBLIC_URL" !in env && "NEXT_PUBLIC_APP_URL" in env && env["NEXT_PUBLIC_APP_URL"] != "" ==>
      r == Ok(StripTrailingSlash(env["NEXT_PUBLIC_APP_URL"]))
    ensures "NEXT_PUBLIC_URL" !in env && ("NEXT_PUBLIC_APP_URL" !in env || env["NEXT_PUBLIC_APP_URL"] == "") ==>
      r == Err("NEXT_PUBLIC_URL is required to build redirect URLs.")
  {
    var value := if "NEXT_PUBLIC_URL" in env then Some(env["NEXT_PUBLIC_URL"])
      else if "NEXT_PUBLIC_APP_URL" in env then Some(env["NEXT_PUBLIC_APP_URL"]) else None;
    if value.None? || value.value == "" then Err("NEXT_PUBLIC_URL is required to build redirect URLs.")
    else Ok(StripTrailingSlash(value.value))
  }

  /** The checkout session the route asks Stripe to create. */
  datatype SessionRequest = SessionRequest(customer: string, priceId: string, successUrl: string, cancelUrl: string, ownerId: UserId)

  /** Stripe's replies: the new customer's id, then the created session's
      `url`; a failed call throws a `StripeError`. */
  datatype StripeReplies = StripeReplies(newCustomer: Result<string, Thrown>, session: Result<Option<string>, Thrown>)

  /** The text the `catch` block falls back on. */
  const CheckoutFailed := "Unable to create a subscription checkout session."
  const NoRedirectUrl := "Stripe did not return a redirect URL."

  /** The `catch` block: 400 with the message of an `Error` (a `StripeError`
      is one) or the generic text, and `debug`, the error's `name` followed by
      a spread of the error. Every value thrown here is an object, so `debug`
      is always present. */
  function Caught(e: Thrown): (r: Response)
    ensures r.status == 400 && r.body.JObj? && r.body.fields.Keys == {"message", "debug"}
    ensures r.body.fields["message"] == JStr(CaughtMessage(e, CheckoutFailed))
    ensures r.body.fields["debug"] == JObj(Spread(e))
  {
    Response(400, JObj(map["message" := JStr(CaughtMessage(e, CheckoutFailed)), "debug" := JObj(Spread(e))]))
  }

  /** An error the route raises itself answers with its text and a `debug`
      object holding only the inherited name `Error`. */
  lemma OwnErrorDebug(m: string)
    ensures Caught(NewError(m)).body
      == JObj(map["message" := JStr(m), "debug" := JObj(map["name" := JStr("Error")])])
  {
    assert Spread(NewError(m)) == map["name" := JStr("Error")];
  }

  /** A database error answers with the generic text; its own message and
      code travel only in `debug`, which has no `name`. */
  lemma DbErrorDebug(e: DbError)
    ensures Caught(DbThrown(e)).body.fields["message"] == JStr(CheckoutFailed)
    ensures Caught(DbThrown(e)).body.fields["debug"] == JObj(DbThrown(e).own)
    ensures "name" !in Caught(DbThrown(e)).body.fields["debug"].fields
  {
    assert Spread(DbThrown(e)) == DbThrown(e).own;
  }

  /** What the route answers, the table after it, and what it sent to Stripe. */
  datatype Opened = Opened(response: Response, table: Table, customerCreated: bool, request: Option<SessionRequest>)

  /** The customer step writes the new customer onto the row and keeps the
      row's status and usage, defaulting to 'free' and 0. */
  function CustomerDefaults(row: Option<Subscription>, customerId: string): (p: Patch)
    ensures p.customerId == Set(Some(customerId))
    ensures p.status == Set(Some(if row.Some? && row.value.status.Some? then row.value.status.value else "free"))
    ensures p.quotaUsed == Set(Some(if row.Some? && row.value.quotaUsed.Some? then row.value.quotaUsed.value else 0))
    ensures p.quotaLimit.Absent? && p.priceId.Absent? && p.subscriptionId.Absent?
  {
    EmptyPatch.(customerId := Set(Some(customerId)),
      status := Set(Some(if row.Some? && row.value.status.Some? then row.value.status.value else "free")),
      quotaUsed := Set(Some(if row.Some? && row.value.quotaUsed.Some? then row.value.quotaUsed.value else 0)))
  }

  /** The redirect part, once the customer is known. */
  function OpenSession(t: Table, env: Env, customerId: string, priceId: string, user: AuthUser,
                       session: Result<Option<string>, Thrown>, created: bool): (o: Opened)
    ensures o.table == t && o.customerCreated == created && o.response.status in {200, 400}
    ensures RequirePublicUrl(env).Err? ==> o.request.None? && o.response == Caught(NewError(RequirePublicUrl(env).error))
    ensures RequirePublicUrl(env).Ok? && session.Err? ==> o.response == Caught(session.error)
    ensures RequirePublicUrl(env).Ok? && session.Ok? && !Present(session.value) ==> o.response == Caught(NewError(NoRedirectUrl))
    ensures o.response.status == 200 <==> RequirePublicUrl(env).Ok? && session.Ok? && Present(session.value)
    ensures o.response.status == 200 ==> o.response.body == JObj(map["url" := JStr(session.value.value)])
    ensures RequirePublicUrl(env).Ok? ==> o.request == Some(SessionRequest(customerId, priceId,
      RequirePublicUrl(env).value + "/dashboard", RequirePublicUrl(env).value + "/pricing", user.id))
  {
    match RequirePublicUrl(env)
    case Err(m) => Opened(Caught(NewError(m)), t, created, None)
    case Ok(base) =>
      var request := SessionRequest(customerId, priceId, base + "/dashboard", base + "/pricing", user.id);
      match session
      case Err(e) => Opened(Caught(e), t, created, Some(request))
      case Ok(url) =>
        if !(url.Some? && url.value != "") then Opened(Caught(NewError(NoRedirectUrl)), t, created, Some(request))
        else Opened(Response(200, JObj(map["url" := JStr(url.value)])), t, created, Some(request))
  }

  /** The route, as one function of its inputs and the table. `readError` is
      the error of `fetchSubscriptionForUser`, `insertError` that of the
      insert inside `ensureSubscriptionRow`; every failure after the session
      lookup goes through the `catch` block. */
  function CreateCheckout(t: Table, env: Env, auth: AuthLookup, body: Option<Json>, readError: Option<DbError>,
                          stripe: StripeReplies, insertError: Option<DbError>): (o: Opened)
    ensures o.response.status in {200, 400, 401}
    ensures auth.Anonymous? ==> o == Opened(MessageResponse(401, "Authentication required."), t, false, None)
    ensures auth.AuthFailed? ==> o == Opened(Caught(AuthThrown(auth)), t, false, None)
    ensures auth.SignedIn? && ReadPriceId(body).Err? ==> o == Opened(Caught(ReadPriceId(body).error), t, false, None)
    ensures auth.SignedIn? && ReadPriceId(body).Ok? && readError.Some? ==> o == Opened(Caught(DbThrown(readError.value)), t, false, None)
    ensures o.response.status == 400 ==> o.response.body.JObj? && o.response.body.fields.Keys == {"message", "debug"}
    ensures o.customerCreated ==> auth.SignedIn? && stripe.newCustomer.Ok? && !(auth.user.id in t && Present(t[auth.user.id].customerId))
    ensures auth.SignedIn? && auth.user.id in t && Present(t[auth.user.id].customerId) ==> o.table == t && !o.customerCreated
    ensures o.request.Some? ==> auth.SignedIn? && o.request.value.priceId in ValidPriceIds && o.request.value.ownerId == auth.user.id
    ensures o.request.Some? ==> (RequirePublicUrl(env).Ok?
      && o.request.value.successUrl == RequirePublicUrl(env).value + "/dashboard"
      && o.request.value.cancelUrl == RequirePublicUrl(env).value + "/pricing")
    ensures o.table != t ==> (o.customerCreated && auth.SignedIn? && stripe.newCustomer.Ok?
      && o.table == EnsureRow(t, auth.user.id, CustomerDefaults(FindByUser(t, auth.user.id), stripe.newCustomer.value), insertError).table)
  {
    match auth
    case AuthFailed(_, _, _) => Opened(Caught(AuthThrown(auth)), t, false, None)
    case Anonymous => Opened(MessageResponse(401, "Authentication required."), t, false, None)
    case SignedIn(user) =>
      match ReadPriceId(body)
      case Err(e) => Opened(Caught(e), t, false, None)
      case Ok(price) =>
        if readError.Some? then Opened(Caught(DbThrown(readError.value)), t, false, None)
        else
          var row := FindByUser(t, user.id);
          if row.Some? && Present(row.value.customerId) then
            OpenSession(t, env, row.value.customerId.value, price, user, stripe.session, false)
          else
            match stripe.newCustomer
            case Err(err) => Opened(Caught(err), t, false, None)
            case Ok(customerId) =>
              var e := EnsureRow(t, user.id, CustomerDefaults(row, customerId), insertError);
              if e.result.Err? then Opened(Caught(DbThrown(e.result.error)), t, true, None)
              else OpenSession(e.table, env, customerId, price, user, stripe.session, true)
  }

  /** A caller without a customer keeps the recorded customer even when the
      redirect URL cannot be built: the write happens before the URL check. */
  lemma CustomerRecordedBeforeUrlCheck(t: Table, env: Env, user: AuthUser, priceId: string, stripe: StripeReplies)
    requires priceId in ValidPriceIds
    requires !(user.id in t && Present(t[user.id].customerId))
    requires stripe.newCustomer.Ok?
    requires RequirePublicUrl(env).Err?
    ensures var o := CreateCheckout(t, env, SignedIn(user), Some(JObj(map["priceId" := JStr(priceId)])), None, stripe, None);
      o.response.status == 400 && o.customerCreated && user.id in o.table
      && o.table[user.id].customerId == Some(stripe.newCustomer.value)
      && o.table[user.id].status == (if user.id in t && t[user.id].status.Some? then t[user.id].status else Some("free"))
      && o.table[user.id].quotaUsed == (if user.id in t && t[user.id].quotaUsed.Some? then t[user.id].quotaUsed else Some(0))
  {
    var body := Some(JObj(map["priceId" := JStr(priceId)]));
    assert ReadPriceId(body) == Ok(priceId);
    var row := FindByUser(t, user.id);
    var e := EnsureRow(t, user.id, CustomerDefaults(row, stripe.newCustomer.value), None);
    assert e.result.Ok? && user.id in e.table && e.table[user.id] == e.result.value;
    assert CreateCheckout(t, env, SignedIn(user), body, None, stripe, None)
      == OpenSession(e.table, env, stripe.newCustomer.value, priceId, user, stripe.session, true);
  }

  /** A `null` body reaches the property read only after the session check;
      the `catch` then answers 400 with the `TypeError`'s text and a `debug`
      object holding only its name, and nothing is written. */
  lemma NullPayloadRefused(t: Table, env: Env, user: AuthUser, readError: Option<DbError>,
                           stripe: StripeReplies, insertError: Option<DbError>)
    ensures var o := CreateCheckout(t, env, SignedIn(user), Some(JNull), readError, stripe, insertError);
      && o.response.status == 400 && o.table == t && !o.customerCreated && o.request.None?
      && o.response.body == JObj(map["message" := JStr(NullPayloadMessage), "debug" := JObj(map["name" := JStr("TypeError")])])
  {
    assert Spread(NewTypeError(NullPayloadMessage)) == map["name" := JStr("TypeError")];
  }

  /** The route step by step; it reassigns `customerId` when it has to create one. */
  method Post(store: SubscriptionStore, env: Env, auth: AuthLookup, body: Option<Json>, readError: Option<DbError>,
              stripe: StripeReplies, insertError: Option<DbError>)
    returns (response: Response, customerCreated: bool, request: Option<SessionRequest>)
    modifies store
    ensures var o := CreateCheckout(old(store.rows), env, auth, body, readError, stripe, insertError);
      response == o.response && store.rows == o.table && customerCreated == o.customerCreated && request == o.request
  {
    customerCreated, request := false, None;
    if auth.AuthFailed? {
      return Caught(AuthThrown(auth)), false, None;
    }
    if auth.Anonymous? {
      return MessageResponse(401, "Authentication required."), false, None;
    }
    var user := auth.user;
    var price := ReadPriceId(body);
    if price.Err? {
      return Caught(price.error), false, None;
    }
    if readError.Some? {
      return Caught(DbThrown(readError.value)), false, None;
    }
    var row := FindByUser(store.rows, user.id);
    var customerId: Option<string> := if row.Some? then row.value.customerId else None;
    if !Present(customerId) {
      if stripe.newCustomer.Err? {
        return Caught(stripe.newCustomer.error), false, None;
      }
      customerCreated := true;
      customerId := Some(stripe.newCustomer.value);
      var ensured := store.Ensure(user.id, CustomerDefaults(row, customerId.value), insertError);
      if ensured.Err? {
        return Caught(DbThrown(ensured.error)), true, None;
      }
    }
    var o := OpenSession(store.rows, env, customerId.value, price.value, user, stripe.session, customerCreated);
    response, request := o.response, o.request;
  }
}
