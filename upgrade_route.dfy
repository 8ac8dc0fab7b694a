/**
 * `POST /api/subscriptions/upgrade`: moves the caller's Stripe subscription
 * to the Pro price and records the new plan on the row. The guard chain
 * answers 401 for an anonymous caller, 400 without a linked subscription and
 * a plain message when the row is already on Pro; any raised error answers 500.
 */
module UpgradeRoute {
  import opened JsValues
  import opened Platform
  import opened Plans
  import opened Subscriptions
  import opened StripeObjects

  /** Stripe's replies: the subscription, the error of the item update if any,
      and the subscription read back after the update. */
  datatype StripeReplies = StripeReplies(
    retrieved: Result<StripeSubscription, string>,
    updateError: Option<string>,
    refreshed: Result<StripeSubscription, string>)

  /** The `stripe.subscriptions.update` request: the subscription, its item, the new price. */
  datatype ItemUpdate = ItemUpdate(subscriptionId: string, itemId: string, priceId: string)

  /** What the route answers, the table after it, and the Stripe update it sent. */
  datatype Upgraded = Upgraded(response: Response, table: Table, stripeUpdate: Option<ItemUpdate>)

  const NoSubscriptionMessage := "Aucun abonnement actif trouv\U{E9}. Souscrivez d\U{2019}abord \U{E0} une offre."
  const AlreadyProMessage := "Vous \U{EA}tes d\U{E9}j\U{E0} sur le plan Pro."
  const UpgradingMessage := "Votre abonnement est en cours de mise \U{E0} niveau vers le plan Pro."
  const NoItemMessage := "Impossible de trouver le produit associ\U{E9} \U{E0} votre abonnement Stripe."
  /** The `catch` block's text for a thrown value that is not an `Error`. */
  const UpgradeFailed := "Impossible de mettre \U{E0} niveau votre abonnement."

  /** `requireProPriceId`. */
  function RequireProPriceId(proPriceId: string): (r: Result<string, string>)
    ensures proPriceId == "" <==> r.Err?
    ensures r.Ok? ==> r.value == proPriceId
  {
    if proPriceId == "" then Err("STRIPE_PRO_PRICE_ID is not configured.") else Ok(proPriceId)
  }

  /** With the built-in Pro price the guard always passes. */
  lemma ConfiguredProPrice()
    ensures RequireProPriceId(StripeProPriceId) == Ok(StripeProPriceId)
  {
  }

  /** The update recorded after a successful upgrade; usage is not touched. */
  function UpgradeUpdates(proPriceId: string, status: string): (p: Patch)
    ensures p == EmptyPatch.(priceId := Set(Some(proPriceId)), status := Set(Some(status)),
      quotaLimit := Set(Some(ResolveQuotaLimit(Some(proPriceId)))))
  {
    EmptyPatch.(priceId := Set(Some(proPriceId)), status := Set(Some(status)),
      quotaLimit := Set(Some(ResolveQuotaLimit(Some(proPriceId)))))
  }

  /** The route, as one function of its inputs and the table. `readError` is
      the error of `fetchSubscriptionForUser`, if any: a plain object, so the
      `catch` answers it with the generic text. Auth and Stripe errors are
      `Error` instances and are answered with their own message. */
  function Upgrade(t: Table, proPriceId: string, auth: AuthLookup, readError: Option<DbError>, stripe: StripeReplies, now: string): (u: Upgraded)
    ensures u.response.status in {200, 400, 401, 500}
    ensures u.response.status != 200 || u.stripeUpdate.None? ==> u.table == t
    ensures u.table != t ==> u.stripeUpdate.Some?
    ensures auth.SignedIn? && readError.Some? && proPriceId != "" ==> u == Upgraded(MessageResponse(500, UpgradeFailed), t, None)
    ensures auth.SignedIn? && readError.None? && proPriceId != "" && !(auth.user.id in t && Present(t[auth.user.id].subscriptionId)) ==>
      u == Upgraded(MessageResponse(400, NoSubscriptionMessage), t, None)
    ensures (auth.SignedIn? && readError.None? && proPriceId != "" && auth.user.id in t && Present(t[auth.user.id].subscriptionId)
      && t[auth.user.id].priceId == Some(proPriceId)) ==>
      u == Upgraded(MessageResponse(200, AlreadyProMessage), t, None)
    ensures u.stripeUpdate.Some? ==> (auth.SignedIn? && auth.user.id in t && Present(t[auth.user.id].subscriptionId)
      && stripe.retrieved.Ok? && |stripe.retrieved.value.items| > 0
      && u.stripeUpdate.value == ItemUpdate(t[auth.user.id].subscriptionId.value, stripe.retrieved.value.items[0].id, proPriceId))
  {
    match RequireProPriceId(proPriceId)
    case Err(m) => Upgraded(MessageResponse(500, m), t, None)
    case Ok(pro) =>
      match auth
      case AuthFailed(m, _, _) => Upgraded(MessageResponse(500, m), t, None)
      case Anonymous => Upgraded(MessageResponse(401, "Authentification requise."), t, None)
      case SignedIn(user) =>
        if readError.Some? then Upgraded(MessageResponse(500, CaughtMessage(DbThrown(readError.value), UpgradeFailed)), t, None)
        else
          var row := FindByUser(t, user.id);
          if row.None? || !Present(row.value.subscriptionId) then Upgraded(MessageResponse(400, NoSubscriptionMessage), t, None)
          else if row.value.priceId == Some(pro) then Upgraded(MessageResponse(200, AlreadyProMessage), t, None)
          else
            match stripe.retrieved
            case Err(m) => Upgraded(MessageResponse(500, m), t, None)
            case Ok(current) =>
              if |current.items| == 0 then Upgraded(MessageResponse(500, NoItemMessage), t, None)
              else
                var request := Some(ItemUpdate(row.value.subscriptionId.value, current.items[0].id, pro));
                if stripe.updateError.Some? then Upgraded(MessageResponse(500, stripe.updateError.value), t, request)
                else
                  match stripe.refreshed
                  case Err(m) => Upgraded(MessageResponse(500, m), t, request)
                  case Ok(refreshed) =>
                    Upgraded(MessageResponse(200, UpgradingMessage),
                      Upserted(t, user.id, UpgradeUpdates(pro, refreshed.status), EmptyPatch, now), request)
  }

  /** A successful upgrade puts the row on the Pro plan and its 200 quota,
      takes the status from Stripe and leaves the usage count alone. */
  lemma UpgradeSuccess(t: Table, auth: AuthLookup, stripe: StripeReplies, now: string)
    requires Upgrade(t, StripeProPriceId, auth, None, stripe, now).response == MessageResponse(200, UpgradingMessage)
    ensures var u := Upgrade(t, StripeProPriceId, auth, None, stripe, now);
      auth.SignedIn? && auth.user.id in t && stripe.refreshed.Ok?
      && var row := u.table[auth.user.id];
         row.priceId == Some(StripeProPriceId) && row.quotaLimit == Some(200)
         && row.status == Some(stripe.refreshed.value.status)
         && row.quotaUsed == t[auth.user.id].quotaUsed
         && row.subscriptionId == t[auth.user.id].subscriptionId
  {
    QuotaOfEachPlan(None);
    assert UpgradingMessage != AlreadyProMessage by {
      assert |UpgradingMessage| != |AlreadyProMessage|;
    }
  }

  /** The route step by step; `stripeUpdate` is the update request it sent, if any. */
  method Post(store: SubscriptionStore, proPriceId: string, auth: AuthLookup, readError: Option<DbError>, stripe: StripeReplies, now: string)
    returns (response: Response, stripeUpdate: Option<ItemUpdate>)
    modifies store
    ensures var u := Upgrade(old(store.rows), proPriceId, auth, readError, stripe, now);
      response == u.response && store.rows == u.table && stripeUpdate == u.stripeUpdate
  {
    stripeUpdate := None;
    var pro := RequireProPriceId(proPriceId);
    if pro.Err? {
      return MessageResponse(500, pro.error), None;
    }
    if auth.AuthFailed? {
      return MessageResponse(500, auth.message), None;
    }
    if auth.Anonymous? {
      return MessageResponse(401, "Authentification requise."), None;
    }
    var user := auth.user;
    if readError.Some? {
      return MessageResponse(500, CaughtMessage(DbThrown(readError.value), UpgradeFailed)), None;
    }
    var row := FindByUser(store.rows, user.id);
    if row.None? || !Present(row.value.subscriptionId) {
      return MessageResponse(400, NoSubscriptionMessage), None;
    }
    if row.value.priceId == Some(pro.value) {
      return MessageResponse(200, AlreadyProMessage), None;
    }
    if stripe.retrieved.Err? {
      return MessageResponse(500, stripe.retrieved.error), None;
    }
    var current := stripe.retrieved.value;
    if |current.items| == 0 {
      return MessageResponse(500, NoItemMessage), None;
    }
    stripeUpdate := Some(ItemUpdate(row.value.subscriptionId.value, current.items[0].id, pro.value));
    if stripe.updateError.Some? {
      return MessageResponse(500, stripe.updateError.value), stripeUpdate;
    }
    if stripe.refreshed.Err? {
      return MessageResponse(500, stripe.refreshed.error), stripeUpdate;
    }
    store.Upsert(user.id, UpgradeUpdates(pro.value, stripe.refreshed.value.status), EmptyPatch, now);
    response := MessageResponse(200, UpgradingMessage);
  }
}
