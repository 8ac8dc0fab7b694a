/**
 * The static plan table: the Basic and Pro price identifiers, the quota each
 * paid plan grants, the free-tier default, and the display details per plan.
 */
module Plans {
  import opened Platform

  /** `resolvePublicEnv`: the variable's value when it is a non-empty string, else the fallback. */
  function ResolvePublicEnv(env: Env, name: string, fallback: string): (r: string)
    ensures name in env && env[name] != "" ==> r == env[name]
    ensures name !in env || env[name] == "" ==> r == fallback
  {
    if name in env && |env[name]| > 0 then env[name] else fallback
  }

  const BasicPriceFallback := "price_1SIqRxLm8HeEccYQxPFjeTlh"
  const ProPriceFallback := "price_1SIqa1Lm8HeEccYQoSkKzdMk"

  /** The price identifiers of a deployment that does not override them. */
  const StripeBasicPriceId: string := BasicPriceFallback
  const StripeProPriceId: string := ProPriceFallback

  const FreeTierQuota: int := 10

  /** `STRIPE_PLAN_QUOTAS`. */
  const StripePlanQuotas: map<string, int> := map[StripeBasicPriceId := 50, StripeProPriceId := 200]

  /** An entry of `PLAN_DETAILS`. `title` holds the entry's `label`, a word
      Dafny reserves for statement labels. */
  datatype PlanDetail = PlanDetail(title: string, priceLabel: string, description: string, quota: int)

  const FreePlanKey := "free"

  /** `PLAN_DETAILS`, keyed by "free" and by the two price identifiers. */
  const PlanDetails: map<string, PlanDetail> := map[
    FreePlanKey := PlanDetail("Essentiel", "Gratuit",
      "10 générations par mois pour découvrir le studio.", FreeTierQuota),
    StripeBasicPriceId := PlanDetail("Basic", "9€ / mois",
      "50 générations par mois pour vos projets réguliers.", StripePlanQuotas[StripeBasicPriceId]),
    StripeProPriceId := PlanDetail("Pro", "19€ / mois",
      "200 générations par mois pour les créateurs intensifs.", StripePlanQuotas[StripeProPriceId])
  ]

  /** A deployment that leaves the price variables unset (or empty) gets the fallback identifiers. */
  lemma DefaultPriceIds(env: Env)
    requires "NEXT_PUBLIC_STRIPE_BASIC_PRICE_ID" !in env || env["NEXT_PUBLIC_STRIPE_BASIC_PRICE_ID"] == ""
    requires "NEXT_PUBLIC_STRIPE_PRO_PRICE_ID" !in env || env["NEXT_PUBLIC_STRIPE_PRO_PRICE_ID"] == ""
    ensures ResolvePublicEnv(env, "NEXT_PUBLIC_STRIPE_BASIC_PRICE_ID", BasicPriceFallback) == StripeBasicPriceId
    ensures ResolvePublicEnv(env, "NEXT_PUBLIC_STRIPE_PRO_PRICE_ID", ProPriceFallback) == StripeProPriceId
  {
  }

  /** The two price identifiers differ, so the quota table has exactly two entries. */
  lemma PlanQuotaTable()
    ensures StripeBasicPriceId != StripeProPriceId
    ensures StripePlanQuotas.Keys == {StripeBasicPriceId, StripeProPriceId}
    ensures StripePlanQuotas[StripeBasicPriceId] == 50 && StripePlanQuotas[StripeProPriceId] == 200
    ensures FreeTierQuota == 10
  {
    assert StripeBasicPriceId[10] != StripeProPriceId[10];
  }

  /** Every plan's displayed quota agrees with the quota the billing logic enforces. */
  lemma PlanDetailsAgree()
    ensures PlanDetails.Keys == {FreePlanKey, StripeBasicPriceId, StripeProPriceId}
    ensures PlanDetails[FreePlanKey].quota == FreeTierQuota
    ensures forall k :: k in StripePlanQuotas ==> k in PlanDetails && PlanDetails[k].quota == StripePlanQuotas[k]
  {
    PlanQuotaTable();
    assert FreePlanKey[0] != StripeBasicPriceId[0] && FreePlanKey[0] != StripeProPriceId[0];
  }
}
