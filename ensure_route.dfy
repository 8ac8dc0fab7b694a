/**
 * `POST /api/subscriptions/ensure`: makes sure the signed-in caller has a
 * row on the free plan.
 */
module EnsureRoute {
  import opened JsValues
  import opened Platform
  import opened Plans
  import opened Subscriptions

  /** The defaults the route passes to `ensureSubscriptionRow`. */
  const FreeDefaults: Patch := EmptyPatch.(status := Set(Some("free")), quotaLimit := Set(Some(FreeTierQuota)), quotaUsed := Set(Some(0)))

  const EnsuredBody: Json := JObj(map["ensured" := JBool(true)])

  function EnsureFree(t: Table, auth: AuthLookup, insertError: Option<DbError>): (s: Served)
    ensures auth.Anonymous? ==> s == Served(MessageResponse(401, "Authentification requise."), t)
    ensures auth.AuthFailed? ==> s == Served(MessageResponse(500, "Impossible de pr\U{E9}parer le plan gratuit."), t)
    ensures auth.SignedIn? ==> s.table == EnsureRow(t, auth.user.id, FreeDefaults, insertError).table
    ensures s.response.status == 200 <==> auth.SignedIn? && EnsureRow(t, auth.user.id, FreeDefaults, insertError).result.Ok?
    ensures s.response.status != 200 ==> s.table == t
  {
    match auth
    case AuthFailed(_, _, _) => Served(MessageResponse(500, "Impossible de pr\U{E9}parer le plan gratuit."), t)
    case Anonymous => Served(MessageResponse(401, "Authentification requise."), t)
    case SignedIn(user) =>
      var e := EnsureRow(t, user.id, FreeDefaults, insertError);
      if e.result.Err? then Served(MessageResponse(500, "Impossible de pr\U{E9}parer le plan gratuit."), t)
      else Served(Response(200, EnsuredBody), e.table)
  }

  /** After the route the caller is on the free plan with zero usage, even
      when the row was on a paid plan: the merge overwrites status, quota
      and usage, and keeps the Stripe references. */
  lemma EnsureResetsToFree(t: Table, user: AuthUser, insertError: Option<DbError>)
    requires user.id in t || insertError.None?
    ensures var s := EnsureFree(t, SignedIn(user), insertError);
      s.response.status == 200 && user.id in s.table
      && s.table[user.id].status == Some("free")
      && s.table[user.id].quotaLimit == Some(10)
      && s.table[user.id].quotaUsed == Some(0)
      && (user.id in t ==> (s.table[user.id].subscriptionId == t[user.id].subscriptionId
          && s.table[user.id].customerId == t[user.id].customerId))
  {
  }

  method Post(store: SubscriptionStore, auth: AuthLookup, insertError: Option<DbError>) returns (response: Response)
    modifies store
    ensures var s := EnsureFree(old(store.rows), auth, insertError); response == s.response && store.rows == s.table
  {
    if auth.AuthFailed? {
      return MessageResponse(500, "Impossible de pr\U{E9}parer le plan gratuit.");
    }
    if auth.Anonymous? {
      return MessageResponse(401, "Authentification requise.");
    }
    var r := store.Ensure(auth.user.id, FreeDefaults, insertError);
    if r.Err? {
      return MessageResponse(500, "Impossible de pr\U{E9}parer le plan gratuit.");
    }
    response := Response(200, EnsuredBody);
  }
}
