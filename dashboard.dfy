/**
 * The dashboard page's derived state: the quota summary of the user's
 * subscription row, the upgrade and quota-reminder banners, and the
 * client-side guard in front of a generation request. The row is the one the
 * page reads (or `None` while there is none).
 */
module Dashboard {
  import opened JsStrings
  import opened JsValues
  import opened Plans
  import opened Subscriptions
  import opened SubscriptionStatus

  /** The columns the page selects from its subscriptions row. */
  datatype SubscriptionSummary = SubscriptionSummary(
    status: Option<string>,
    priceId: Option<string>,
    subscriptionId: Option<string>,
    quotaLimit: Option<int>,
    quotaUsed: Option<int>)

  datatype QuotaSummary = QuotaSummary(status: string, planKey: string, quotaLimit: int, quotaUsed: int, quotaReached: bool)

  /** `quotaSummary`: the status defaults to `free`; the limit is the row's
      own, else the plan's quota (every plan has one, so the free-tier constant
      behind it is never reached); the use defaults to 0. */
  function Summarise(sub: Option<SubscriptionSummary>): (q: QuotaSummary)
    ensures q.status == (if sub.Some? && sub.value.status.Some? then sub.value.status.value else "free")
    ensures q.planKey == (if sub.Some? then PlanKey(sub.value.status, sub.value.priceId) else FreePlanKey)
    ensures sub.Some? && sub.value.quotaLimit.Some? ==> q.quotaLimit == sub.value.quotaLimit.value
    ensures !(sub.Some? && sub.value.quotaLimit.Some?) ==> q.quotaLimit == PlanFor(q.planKey).quota
    ensures q.quotaUsed == (if sub.Some? && sub.value.quotaUsed.Some? then sub.value.quotaUsed.value else 0)
    ensures q.quotaReached <==> q.quotaUsed >= q.quotaLimit
  {
    var status := if sub.Some? && sub.value.status.Some? then sub.value.status.value else "free";
    var priceId := if sub.Some? then sub.value.priceId else None;
    var planKey := if status in PaidStatuses && Present(priceId) then priceId.value else FreePlanKey;
    var limit := if sub.Some? && sub.value.quotaLimit.Some? then sub.value.quotaLimit.value else PlanFor(planKey).quota;
    var used := if sub.Some? && sub.value.quotaUsed.Some? then sub.value.quotaUsed.value else 0;
    QuotaSummary(status, planKey, limit, used, used >= limit)
  }

  /** With no row yet, the page shows the free plan's ten generations. */
  lemma NoRowIsFreeTier()
    ensures Summarise(None) == QuotaSummary("free", FreePlanKey, FreeTierQuota, 0, false)
  {
    PlanDetailsAgree();
  }

  /** A row without its own limit falls back to its plan's quota. */
  lemma PlanQuotaFallback(sub: SubscriptionSummary)
    requires sub.quotaLimit.None? && sub.status == Some("active") && sub.priceId == Some(StripeProPriceId)
    ensures Summarise(Some(sub)).quotaLimit == 200
  {
    PlanDetailsAgree();
    PlanQuotaTable();
  }

  /** `showUpgradeToPro`: an active Stripe subscription on a plan other than Pro. */
  function ShowUpgradeToPro(sub: Option<SubscriptionSummary>): (show: bool)
    ensures show <==> (sub.Some? && Present(sub.value.subscriptionId) && sub.value.priceId != Some(StripeProPriceId)
      && IsActive(sub.value.status))
  {
    if sub.None? then false
    else if !Present(sub.value.subscriptionId) then false
    else if sub.value.priceId == Some(StripeProPriceId) then false
    else IsActive(sub.value.status)
  }

  /** `showQuotaReminder`: a row whose positive limit is at least four-fifths
      used but not yet reached. `used / limit >= 0.8` is exact here because
      both are integers. */
  function ShowQuotaReminder(sub: Option<SubscriptionSummary>, q: QuotaSummary): (show: bool)
    ensures show <==> sub.Some? && q.quotaLimit > 0 && !q.quotaReached && 5 * q.quotaUsed >= 4 * q.quotaLimit
  {
    if sub.None? then false
    else if q.quotaLimit == 0 || q.quotaLimit <= 0 then false
    else if q.quotaReached then false
    else
      var ratio := q.quotaUsed as real / q.quotaLimit as real;
      assert ratio >= 0.8 <==> 5 * q.quotaUsed >= 4 * q.quotaLimit by {
        assert ratio * q.quotaLimit as real == q.quotaUsed as real;
      }
      ratio >= 0.8
  }

  /** The reminder and the quota-reached notice never show together, and the
      reminder's count of generations left is positive and at most a fifth of
      the limit. */
  lemma ReminderBeforeLimit(sub: Option<SubscriptionSummary>)
    requires ShowQuotaReminder(sub, Summarise(sub))
    ensures !Summarise(sub).quotaReached
    ensures var q := Summarise(sub); var left := Remaining(q.quotaLimit, q.quotaUsed);
      0 < left && 5 * left <= q.quotaLimit
  {
  }

  /** `canSubmit`. */
  function CanSubmit(hasFile: bool, prompt: string, q: QuotaSummary): (ok: bool)
    ensures ok <==> hasFile && Trim(prompt) != "" && !q.quotaReached
  {
    hasFile && |Trim(prompt)| > 0 && !q.quotaReached
  }

  const QuotaReachedMessage := "Quota reached, switch to the Basic plan."
  const FileMissingMessage := "Select an image to transform."
  const PromptMissingMessage := "Describe the desired output in the text area."

  /** What `handleSubmit` does before any request: refuse with a message, or
      send the image with the trimmed prompt. */
  datatype Submission = Refused(message: string) | Sent(prompt: string)

  /** The guards in their order: the quota, then the file, then the prompt. */
  function Submit(q: QuotaSummary, hasFile: bool, prompt: string): (s: Submission)
    ensures q.quotaReached ==> s == Refused(QuotaReachedMessage)
    ensures !q.quotaReached && !hasFile ==> s == Refused(FileMissingMessage)
    ensures !q.quotaReached && hasFile && Trim(prompt) == "" ==> s == Refused(PromptMissingMessage)
    ensures s.Sent? ==> s.prompt == Trim(prompt) && s.prompt != ""
  {
    if q.quotaReached then Refused(QuotaReachedMessage)
    else if !hasFile then Refused(FileMissingMessage)
    else if Trim(prompt) == "" then Refused(PromptMissingMessage)
    else Sent(Trim(prompt))
  }

  /** The submit button is enabled exactly when a submission would be sent,
      so the client never sends a request once the quota is reached. */
  lemma SubmitMatchesButton(q: QuotaSummary, hasFile: bool, prompt: string)
    ensures Submit(q, hasFile, prompt).Sent? <==> CanSubmit(hasFile, prompt, q)
    ensures q.quotaReached ==> !Submit(q, hasFile, prompt).Sent?
  {
  }

  /** The status card receives the row's status and price and the summary's
      quota, so it names the same plan and counts the same generations left
      as the reminder banner. */
  function CardProps(sub: Option<SubscriptionSummary>, loading: bool, error: Option<string>, portalLoading: bool): Props {
    var q := Summarise(sub);
    Props(if sub.Some? then sub.value.status else None, if sub.Some? then sub.value.priceId else None,
          q.quotaLimit, q.quotaUsed, loading, error, true, portalLoading)
  }

  lemma CardAgreesWithSummary(sub: Option<SubscriptionSummary>, loading: bool, error: Option<string>, portalLoading: bool)
    ensures var p := CardProps(sub, loading, error, portalLoading); var q := Summarise(sub);
      PlanKey(p.status, p.priceId) == q.planKey
      && (Render(p).content.PlanSummary? ==> (Render(p).content.remaining == Remaining(q.quotaLimit, q.quotaUsed)
          && Render(p).content.title == PlanFor(q.planKey).title))
  {
  }
}
