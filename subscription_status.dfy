/**
 * `SubscriptionStatus`: the sidebar card that shows the plan, the badge, the
 * quota left this month with its progress bar, and the button that opens the
 * billing portal. Everything it shows is derived from its properties.
 */
module SubscriptionStatus {
  import opened JsValues
  import opened Plans
  import opened Subscriptions

  /** `ACTIVE_STATUSES.has(status ?? '')`. */
  predicate IsActive(status: Option<string>) {
    status.GetOr("") in PaidStatuses
  }

  /** The card's notion of an active status is the billing service's. */
  lemma IsActiveAgrees(status: Option<string>)
    ensures IsActive(status) <==> HasActiveSubscription(status)
  {
  }

  /** `planKey`: the price identifier of an active subscription that has
      one, and `free` otherwise. */
  function PlanKey(status: Option<string>, priceId: Option<string>): (key: string)
    ensures IsActive(status) && Present(priceId) ==> key == priceId.value
    ensures !(IsActive(status) && Present(priceId)) ==> key == FreePlanKey
  {
    if IsActive(status) && Present(priceId) then priceId.value else FreePlanKey
  }

  /** `PLAN_DETAILS[planKey] ?? PLAN_DETAILS.free`. */
  function PlanFor(key: string): (plan: PlanDetail)
    ensures key in PlanDetails ==> plan == PlanDetails[key]
    ensures key !in PlanDetails ==> plan == PlanDetails[FreePlanKey]
  {
    if key in PlanDetails then PlanDetails[key] else PlanDetails[FreePlanKey]
  }

  /** A price the plan table does not know is shown as the free plan, with
      the free quota. */
  lemma UnknownPriceShownAsFree(status: Option<string>, priceId: Option<string>)
    requires priceId.Some? && priceId.value !in PlanDetails
    ensures PlanFor(PlanKey(status, priceId)) == PlanDetails[FreePlanKey]
    ensures PlanFor(PlanKey(status, priceId)).quota == FreeTierQuota
  {
    PlanDetailsAgree();
  }

  /** `Math.max(0, quotaLimit - quotaUsed)`. */
  function Remaining(limit: int, used: int): (r: nat)
    ensures r >= limit - used
    ensures r == 0 || r == limit - used
    ensures used <= limit ==> r + used == limit
  {
    if limit - used > 0 then limit - used else 0
  }

  /** `Math.round`: the nearest integer, a tie rounding up. */
  function Round(x: real): (n: int)
    ensures x - 0.5 < n as real <= x + 0.5
  {
    (x + 0.5).Floor
  }

  lemma RoundMonotone(x: real, y: real)
    requires x <= y
    ensures Round(x) <= Round(y)
  {
  }

  /** `usagePercent`: the used share rounded to a whole percent and capped
      at 100; 0 for a limit that is not positive. */
  function UsagePercent(limit: int, used: int): (p: int)
    ensures limit <= 0 ==> p == 0
    ensures limit > 0 && used >= 0 ==> 0 <= p <= 100
    ensures limit > 0 && used >= limit ==> p == 100
    ensures limit > 0 && p < 100 ==> Round(used as real * 100.0 / limit as real) == p
  {
    if limit > 0 then
      var share := used as real * 100.0 / limit as real;
      assert used >= 0 ==> share >= 0.0;
      assert used >= limit ==> share >= 100.0;
      var rounded := Round(share);
      if rounded < 100 then rounded else 100
    else 0
  }

  /** More use never shrinks the bar. */
  lemma UsagePercentMonotone(limit: int, used1: int, used2: int)
    requires used1 <= used2
    ensures UsagePercent(limit, used1) <= UsagePercent(limit, used2)
  {
    if limit > 0 {
      var d := (used2 - used1) as real * 100.0 / limit as real;
      assert used2 as real * 100.0 / limit as real == used1 as real * 100.0 / limit as real + d;
      RoundMonotone(used1 as real * 100.0 / limit as real, used2 as real * 100.0 / limit as real);
    }
  }

  const LoadingLabel := "Loading\U{2026}"

  /** `badgeLabel`: loading first, then a trial, any other active status,
      and everything else. */
  function BadgeLabel(loading: bool, status: Option<string>): (badge: string)
    ensures loading ==> badge == LoadingLabel
    ensures !loading && IsActive(status) && status == Some("trialing") ==> badge == "Trial"
    ensures !loading && IsActive(status) && status != Some("trialing") ==> badge == "Active"
    ensures !loading && !IsActive(status) ==> badge == "Free"
  {
    if loading then LoadingLabel
    else if IsActive(status) then (if status == Some("trialing") then "Trial" else "Active")
    else "Free"
  }

  /** The billing-portal button: its caption and whether it is disabled. */
  datatype ManageButton = ManageButton(caption: string, disabled: bool)

  /** Shown only for an active subscription when a handler is given. */
  function Manage(status: Option<string>, hasOnManage: bool, manageDisabled: bool): (b: Option<ManageButton>)
    ensures b.Some? <==> IsActive(status) && hasOnManage
    ensures b.Some? ==> (b.value.disabled == manageDisabled
      && b.value.caption == (if manageDisabled then "Opening\U{2026}" else "Manage my subscription"))
  {
    if IsActive(status) && hasOnManage then
      Some(ManageButton(if manageDisabled then "Opening\U{2026}" else "Manage my subscription", manageDisabled))
    else None
  }

  /** The card's body: the error, the loading line, or the plan and quota. */
  datatype Content =
    | ErrorText(message: string)
    | LoadingText
    | PlanSummary(title: string, priceLabel: string, heading: string, remaining: nat, limit: int, percent: int)

  datatype Props = Props(status: Option<string>, priceId: Option<string>, quotaLimit: int, quotaUsed: int,
                         loading: bool, error: Option<string>, hasOnManage: bool, manageDisabled: bool)

  /** What the card shows; `highlighted` is the active badge colour. */
  datatype Card = Card(badge: string, highlighted: bool, content: Content, manage: Option<ManageButton>)

  function Render(p: Props): (c: Card)
    ensures c.badge == BadgeLabel(p.loading, p.status) && c.highlighted == IsActive(p.status)
    ensures c.manage == Manage(p.status, p.hasOnManage, p.manageDisabled)
    ensures Present(p.error) ==> c.content == ErrorText(p.error.value)
    ensures !Present(p.error) && p.loading ==> c.content == LoadingText
    ensures !Present(p.error) && !p.loading ==> c.content.PlanSummary?
    ensures c.content.PlanSummary? ==> (var plan := PlanFor(PlanKey(p.status, p.priceId));
      c.content.title == plan.title && c.content.priceLabel == plan.priceLabel
      && c.content.remaining == Remaining(p.quotaLimit, p.quotaUsed) && c.content.limit == p.quotaLimit
      && c.content.percent == UsagePercent(p.quotaLimit, p.quotaUsed)
      && c.content.heading == (if PlanKey(p.status, p.priceId) == FreePlanKey then "Free plan" else "Plan " + plan.title))
  {
    var key := PlanKey(p.status, p.priceId);
    var plan := PlanFor(key);
    var content :=
      if Present(p.error) then ErrorText(p.error.value)
      else if p.loading then LoadingText
      else PlanSummary(plan.title, plan.priceLabel, if key == FreePlanKey then "Free plan" else "Plan " + plan.title,
                       Remaining(p.quotaLimit, p.quotaUsed), p.quotaLimit, UsagePercent(p.quotaLimit, p.quotaUsed));
    Card(BadgeLabel(p.loading, p.status), IsActive(p.status), content, Manage(p.status, p.hasOnManage, p.manageDisabled))
  }

  /** The manage button and the active badge go together: once loaded, a
      card with the button says Trial or Active, and a Free card has none. */
  lemma ManageMatchesBadge(p: Props)
    requires !p.loading
    ensures Render(p).manage.Some? ==> Render(p).badge in {"Trial", "Active"}
    ensures Render(p).badge == "Free" ==> Render(p).manage.None?
  {
  }

  /** A paid plan is named only for an active subscription with a price;
      a cancelled or incomplete one reads as the free plan whatever its price. */
  lemma InactiveShownAsFree(p: Props)
    requires !IsActive(p.status) && !Present(p.error) && !p.loading
    ensures Render(p).content.heading == "Free plan"
    ensures Render(p).content.title == PlanDetails[FreePlanKey].title
  {
    PlanDetailsAgree();
  }
}
