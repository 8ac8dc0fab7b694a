# Image-generation SaaS billing core, in Dafny

This project models the billing and bookkeeping core of a Next.js web application. Users upload an image with a prompt and get a generated image back. Usage is limited by a monthly quota that follows a Stripe subscription. Supabase provides authentication, the `subscriptions` table and per-user metadata. Besides the quota, each user has a credit ledger fed by referral rewards and administrative grants.

The model covers these parts:

- **Subscriptions** (`subscriptions.dfy`, `plans.dfy`, `timestamps.dfy`): the `subscriptions` table is a map from user to row, held in a class. It is changed by `ensureSubscriptionRow` and `upsertSubscriptionForUser`, and uses the plan table, the quota lookup and the usage-reset rule.
- **Routes that write subscriptions**:
  - the Stripe webhook (`stripe_webhook.dfy`, over the Stripe objects of `stripe_objects.dfy`);
  - checkout finalisation (`checkout_session_route.dfy`);
  - the Pro upgrade (`upgrade_route.dfy`);
  - checkout creation (`create_checkout_route.dfy`);
  - the ensure route (`ensure_route.dfy`).

  Each is a decision function over the table, plus a method that performs it on the live store.
- **Credits** (`credits.dfy`, `grant_route.dfy`): a non-negative balance kept in user metadata, with a one-time migration from the legacy `referral_credits` key. The admin grant route is modelled with it.
- **Referrals** (`referrals.dfy`, `claim_route.dfy`): code derivation, and the five-attempt insert loop against the unique `referral_codes` table with its metadata fallback. Also the claim route's guard chain and writes. The route credits the legacy key directly.
- **Access and display rules**:
  - the admin predicate (`admin.dfy`) and the middleware (`middleware.dfy`);
  - storage-path extraction and the deletion loop of the delete route (`delete_route.dfy`, `uri.dfy`);
  - the paged revenue loop of the analytics route (`analytics.dfy`);
  - the subscription card (`subscription_status.dfy`) and the dashboard's derived state (`dashboard.dfy`);
  - the two login/sign-up forms (`auth_form.dfy`);
  - `cn` and `resolveSiteUrl` (`utils.dfy`).
- **Helpers**: JavaScript values and conversions (`js_values.dfy`), string builtins (`js_strings.dfy`), and the platform interfaces (`platform.dfy`). Platform covers the environment, JSON responses, request bodies and the user-metadata directory.

Several things become explicit inputs:

- every Supabase, Stripe and authentication call;
- the random UUIDs;
- the environment;
- the URL parser's result.

The outcome of a call whose error the code checks, that error included, is a parameter, and the tables it reads and writes are maps. A write or read whose error the code ignores always succeeds in the model (see "## Left out"). Where the code and the written description of the system disagree, the model follows the code:

- the free-tier quota is 10;
- the claim route adds the reward to `referral_credits` and does not call `addCredits`;
- no server-side quota gate or usage increment exists, since the only gate is the dashboard's client-side check;
- the webhook has no payment-failed or cancellation handler.

## Model

| member | source | states |
|---|---|---|
| Plans.ResolvePublicEnv | constants/subscriptions.ts:1-4 | the variable's value when it is set to a non-empty string, the fallback otherwise |
| Plans.DefaultPriceIds | constants/subscriptions.ts:6-13 | with the price variables unset or empty, the Basic and Pro identifiers are the hard-coded fallbacks |
| Plans.PlanQuotaTable | constants/subscriptions.ts:15-20 | the free quota is 10; the quota table maps Basic to 50 and Pro to 200 and holds nothing else, the two identifiers being distinct |
| Plans.PlanDetailsAgree | constants/subscriptions.ts:30-49 | the plan table has exactly the free, Basic and Pro entries; the free entry's quota is the free quota and each paid entry's quota is its quota-table value |
| Subscriptions.Overlay | services/subscriptions.ts:53 | the spread of a partial update over a row: each column the update holds is replaced, every other column and the owner are kept |
| Subscriptions.OverlayEmpty | services/subscriptions.ts:47-55 | an empty update leaves a row unchanged |
| Subscriptions.OverlayIdempotent | services/subscriptions.ts:48-53 | applying the same update twice equals applying it once |
| Subscriptions.OverlayThen | services/subscriptions.ts:141-142 | spreading two updates in turn is one spread of their merge, the later keys winning |
| Subscriptions.OverlayOnlyPatchedColumns | services/subscriptions.ts:48-53 | columns absent from the update keep their values; an update changes no row at all exactly when it has no keys |
| Subscriptions.ResolveQuotaLimit | services/subscriptions.ts:83-88 | the free quota for a null or empty price, the table's quota for a known price, the free quota for an unknown one |
| Subscriptions.QuotaOfEachPlan | services/subscriptions.ts:83-88 | Basic resolves to 50 and Pro to 200; no price resolves below the free quota, and only the two paid prices resolve to anything else |
| Subscriptions.ActiveStatuses | services/subscriptions.ts:90-95 | a status counts as active exactly when it is active, trialing or past_due; null and empty do not |
| Subscriptions.ShouldResetUsage | services/subscriptions.ts:97-109 | never for a zero next start; always for a null or empty previous start; otherwise exactly when the previous start does not parse or its whole seconds differ from the next start |
| Subscriptions.SamePeriodNoReset | services/subscriptions.ts:104-108 | a non-zero period start stored through `toIso` is recognised as the same period, so usage is not reset |
| Subscriptions.SeedRow | services/subscriptions.ts:58-68 | the inserted row takes each default that is given and not null, else status free, the free quota, zero use and null Stripe references |
| Subscriptions.SeedIsBaselineOverlay | services/subscriptions.ts:58-68 | for defaults without explicit nulls, the inserted row is the free baseline overlaid with the defaults |
| Subscriptions.EnsureRow | services/subscriptions.ts:36-81 | an existing row is overlaid with the defaults (unchanged for empty defaults) and returned; a missing row is inserted from the seed, or the insert error is returned with the table unchanged; other users' rows are untouched |
| Subscriptions.EnsureIdempotent | services/subscriptions.ts:47-56 | ensuring twice with the same defaults, none of them a null status, quota or use, returns the same row and leaves the same table as ensuring once |
| Subscriptions.EnsureNullStatusNotIdempotent | services/subscriptions.ts:63 | an explicit null status is seeded as free yet written as null on the next call, so ensuring is not idempotent for it |
| Subscriptions.Stamped | services/subscriptions.ts:126-129 | the update payload is the caller's keys plus the `updated_at` stamp |
| Subscriptions.InsertRow | services/subscriptions.ts:136-143 | the inserted row is the free baseline, overridden by the create defaults, overridden by the updates |
| Subscriptions.Upserted | services/subscriptions.ts:111-146 | an existing row gets the stamped updates and nothing else; a missing row is inserted; no other user's row changes |
| Subscriptions.UpsertIdempotentModuloStamp | services/subscriptions.ts:123-145 | repeating an upsert with the same arguments leaves the same table except for `updated_at` |
| Subscriptions.UpsertExistingIgnoresCreateDefaults | services/subscriptions.ts:123-132 | once the row exists the create defaults play no part |
| Subscriptions.FindByUser | services/subscriptions.ts:20-34 | the user's row when there is one, nothing otherwise |
| Subscriptions.SubscriptionStore.Ensure | services/subscriptions.ts:36-81 | returns and leaves behind what `EnsureRow` describes for the table before the call |
| Subscriptions.SubscriptionStore.Upsert | services/subscriptions.ts:111-146 | the table becomes what `Upserted` describes for the table before the call |
| Timestamps.ParseFormat | app/api/webhooks/stripe/route.ts:28 | a timestamp formatted as an ISO string parses back to the same milliseconds |
| Timestamps.FormatInjective | app/api/webhooks/stripe/route.ts:28 | distinct instants format to distinct strings |
| Timestamps.ToIso | app/api/webhooks/stripe/route.ts:24-29 | no string for a missing or zero epoch; otherwise a string that parses back to the epoch in milliseconds |
| StripeObjects.FirstPrice | app/api/webhooks/stripe/route.ts:72 | the first subscription item's price, nothing for an empty item list |
| StripeWebhook.ResolveOwner | app/api/webhooks/stripe/route.ts:51-65 | the subscription's metadata user first, then the user of the row linked to the customer, then the customer's metadata user only when the customer was found and is not deleted; a failed lookup resolves nobody |
| StripeWebhook.SubscriptionUpdates | app/api/webhooks/stripe/route.ts:72-93 | customer, subscription, status and both period ends mirror the payload; the quota is the first price's; usage resets to 0 only on a new period; a canceled or expired subscription gets the free quota, no price and zero use |
| StripeWebhook.SubscriptionCreateDefaults | app/api/webhooks/stripe/route.ts:95-106 | a row created by a subscription event starts with zero use, the payload's status and the first price's quota |
| StripeWebhook.SubscriptionEventWrite | app/api/webhooks/stripe/route.ts:31-107 | no write without a customer id or without a resolvable owner; otherwise one upsert for the owner with the updates and create defaults above |
| StripeWebhook.CheckoutSessionWrite | app/api/webhooks/stripe/route.ts:109-128 | no write without both a customer id and a metadata user id; otherwise an ensure of the owner's row with status pending and the customer and subscription ids |
| StripeWebhook.InvoiceUpdates | app/api/webhooks/stripe/route.ts:159-170 | zero use, status active, the ids, the first line's period and the quota of its price; without a price the stored price is left alone |
| StripeWebhook.InvoiceCreateDefaults | app/api/webhooks/stripe/route.ts:171-182 | a row created by an invoice starts active with zero use |
| StripeWebhook.InvoiceWrite | app/api/webhooks/stripe/route.ts:130-184 | no write without both ids or without a row linked to the subscription; otherwise one upsert for that row's owner |
| StripeWebhook.EventWrite | app/api/webhooks/stripe/route.ts:205-219 | the three subscription events share one handler; a completed checkout session goes to the checkout handler and a paid invoice to the invoice handler; only the checkout event ensures a row; every other event type writes nothing |
| StripeWebhook.ApplyWrite | app/api/webhooks/stripe/route.ts:95-127 | an upsert changes the table as the upsert does; an ensure as the ensure does, raising only on an insert error and then leaving the table unchanged |
| StripeWebhook.Deliver | app/api/webhooks/stripe/route.ts:186-226 | 400 for a missing signature or one that fails verification, 500 when a handler raises, else 200 `{ received: true }`; the table changes only on 200 |
| StripeWebhook.IgnoredEventsWriteNothing | app/api/webhooks/stripe/route.ts:217-218 | an unhandled event type is acknowledged and leaves the table unchanged |
| StripeWebhook.CustomerLookupFailureSwallowed | app/api/webhooks/stripe/route.ts:56-65 | a failed or deleted-customer lookup never fails the delivery |
| StripeWebhook.SubscriptionEventOnExistingRow | app/api/webhooks/stripe/route.ts:72-95 | on the owner's existing row: status, ids and period mirror the payload; the quota is the price's; use is reset exactly when the period changed; a terminated subscription falls back to the free quota with no price and zero use |
| StripeWebhook.RedeliveryKeepsUsage | app/api/webhooks/stripe/route.ts:83-85 | a redelivered event for the period already stored keeps the row's usage |
| StripeWebhook.SubscriptionEventInsertsRow | app/api/webhooks/stripe/route.ts:95-106 | the first delivery for a new owner inserts a row with zero use, the payload's status and the plan's quota |
| StripeWebhook.CheckoutMarksPending | app/api/webhooks/stripe/route.ts:114-127 | an existing row, even an active one, becomes pending with the session's customer and keeps its usage |
| StripeWebhook.InvoiceRenewsRow | app/api/webhooks/stripe/route.ts:140-183 | a paid invoice for a linked row resets use, activates the row and keeps the stored price when the line has none |
| StripeWebhook.RedeliveredWriteIsStable | app/api/webhooks/stripe/route.ts:95-106 | applying the same upsert write again changes nothing but `updated_at` |
| StripeWebhook.HandleSubscriptionEvent | app/api/webhooks/stripe/route.ts:31-107 | the table becomes what the subscription-event write gives |
| StripeWebhook.HandleCheckoutSession | app/api/webhooks/stripe/route.ts:109-128 | the table and the raised flag are those of the checkout write |
| StripeWebhook.HandleInvoicePaid | app/api/webhooks/stripe/route.ts:130-184 | the table becomes what the invoice write gives |
| StripeWebhook.Post | app/api/webhooks/stripe/route.ts:186-226 | the response and the new table are those of `Deliver` |
| CheckoutSessionRoute.AssertSessionId | app/api/stripe/checkout/session/route.ts:15-20 | a missing or falsy identifier is refused with its message, a string is returned trimmed, and any other truthy value makes `.trim()` throw its `TypeError` |
| CheckoutSessionRoute.ReadSessionId | app/api/stripe/checkout/session/route.ts:31-32 | a `null` body throws on the property read; an identifier is obtained exactly when the body is an object whose `sessionId` is a non-empty string, and it is that string trimmed; the `.trim()` error arises exactly for a truthy non-string `sessionId` |
| CheckoutSessionRoute.BlankSessionIdAccepted | app/api/stripe/checkout/session/route.ts:15-20 | a whitespace-only identifier passes the check and becomes the empty string |
| CheckoutSessionRoute.MetadataUserId | app/api/stripe/checkout/session/route.ts:53-57 | the session's metadata user, else the expanded subscription's, else none |
| CheckoutSessionRoute.FinaliseUpdates | app/api/stripe/checkout/session/route.ts:93-104 | the upsert sets zero use, the price's quota, the reported status and price, the period through `toIso`, and the ids |
| CheckoutSessionRoute.FinaliseCreateDefaults | app/api/stripe/checkout/session/route.ts:105-110 | a created row starts with the price's quota and zero use |
| CheckoutSessionRoute.Fail | app/api/stripe/checkout/session/route.ts:118-122 | a failure answers 400 with its message and writes nothing |
| CheckoutSessionRoute.Finalise | app/api/stripe/checkout/session/route.ts:29-123 | 400 with the thrown message for a missing identifier, a `null` body or a non-string identifier, 400 with the auth error's message, 401 for an anonymous caller, 200 only after every check passed and then exactly the caller's upsert; nothing is written on any other answer |
| CheckoutSessionRoute.MalformedPayloadRefused | app/api/stripe/checkout/session/route.ts:29-123 | a `null` body and a non-zero number as `sessionId` both answer 400 with the `TypeError`'s message, whoever the caller is, and write nothing |
| CheckoutSessionRoute.ForeignSessionRefused | app/api/stripe/checkout/session/route.ts:59-61 | a session whose metadata names another user is refused before any write |
| CheckoutSessionRoute.MissingSubscriptionOrPriceRefused | app/api/stripe/checkout/session/route.ts:63-87 | a missing subscription id or first-item price answers 400 and writes nothing |
| CheckoutSessionRoute.FinaliseSuccess | app/api/stripe/checkout/session/route.ts:89-117 | on success the caller's row has zero use, the plan's quota, the reported status and price and the stored period; every other row is unchanged |
| CheckoutSessionRoute.Post | app/api/stripe/checkout/session/route.ts:29-123 | the response and the table are those of `Finalise` |
| UpgradeRoute.RequireProPriceId | app/api/subscriptions/upgrade/route.ts:12-17 | refused exactly when the Pro price identifier is empty; otherwise that identifier |
| UpgradeRoute.ConfiguredProPrice | app/api/subscriptions/upgrade/route.ts:12-17 | the default Pro price identifier passes the check |
| UpgradeRoute.UpgradeUpdates | app/api/subscriptions/upgrade/route.ts:82-86 | the upsert writes the Pro price, the refreshed status and the Pro quota, and nothing else |
| UpgradeRoute.Upgrade | app/api/subscriptions/upgrade/route.ts:19-99 | a failed row read answers 500 with the generic text, since a database error is not an `Error`; no row or no subscription id gives 400 with no Stripe call and no write; a row already on Pro gets the message and no write; the Stripe update targets the first item; the table changes only after that update |
| UpgradeRoute.UpgradeSuccess | app/api/subscriptions/upgrade/route.ts:82-88 | after a successful upgrade the row is on the Pro price with quota 200 and the refreshed status, keeping its use and subscription id |
| UpgradeRoute.Post | app/api/subscriptions/upgrade/route.ts:19-99 | the response, the Stripe update and the table are those of `Upgrade` |
| CreateCheckoutRoute.AssertValidPriceId | app/api/create-subscription-checkout/route.ts:24-34 | a missing or falsy id is refused as required, any truthy value other than the Basic or Pro string as unknown, and a valid id is returned unchanged |
| CreateCheckoutRoute.ReadPriceId | app/api/create-subscription-checkout/route.ts:52-54 | a `null` body throws the property read's `TypeError`; otherwise the guard's refusals are `Error`s, "required" exactly when `priceId` is falsy and "unknown" exactly when it is truthy but not a valid price string; a price is found exactly as the `priceId` string of an object body |
| CreateCheckoutRoute.StripTrailingSlash | app/api/create-subscription-checkout/route.ts:21 | one trailing slash is removed, if there is one |
| CreateCheckoutRoute.RequirePublicUrl | app/api/create-subscription-checkout/route.ts:16-22 | `NEXT_PUBLIC_URL` when defined, else `NEXT_PUBLIC_APP_URL`; an empty or missing value is refused; one trailing slash is stripped |
| CreateCheckoutRoute.CustomerDefaults | app/api/create-subscription-checkout/route.ts:84-88 | the ensure records the new customer, keeps the row's status and use, defaulting to free and 0, and touches nothing else |
| CreateCheckoutRoute.OpenSession | app/api/create-subscription-checkout/route.ts:91-122 | without a public URL the `catch` answer of that error and no session request; otherwise the session request carries the customer, the price, the owner and both redirect URLs; a Stripe error or a missing `url` goes to the `catch`; 200 with `{ url }` exactly when a non-empty URL comes back |
| CreateCheckoutRoute.CreateCheckout | app/api/create-subscription-checkout/route.ts:36-143 | 401 for an anonymous caller; an auth error, a `null` body, a bad price and a failed row read each give the `catch` answer of that error, and every 400 body holds exactly `message` and `debug`; a customer is created only when the row has none and Stripe returned one; the table changes only by recording that customer; a session request names a valid price and the caller, with the public base plus `/dashboard` and `/pricing` as its redirect URLs |
| CreateCheckoutRoute.Caught | app/api/create-subscription-checkout/route.ts:123-141 | 400 with the message of an `Error` or the generic text, and a `debug` object that is the error's name followed by a spread of the error |
| CreateCheckoutRoute.OwnErrorDebug | app/api/create-subscription-checkout/route.ts:132-141 | an error the route raises itself answers with its text and a `debug` object holding only the name `Error` |
| CreateCheckoutRoute.DbErrorDebug | app/api/create-subscription-checkout/route.ts:125-141 | a database error answers with the generic text; its message and code appear only in `debug`, which has no name |
| CreateCheckoutRoute.NullPayloadRefused | app/api/create-subscription-checkout/route.ts:52-141 | a signed-in caller's `null` body answers 400 with the `TypeError`'s text and `debug: { name: "TypeError" }`, writes nothing and sends nothing to Stripe |
| CreateCheckoutRoute.CustomerRecordedBeforeUrlCheck | app/api/create-subscription-checkout/route.ts:74-91 | a newly created customer is recorded, with the prior status and use, even when the public URL is missing and the route answers 400 |
| CreateCheckoutRoute.Post | app/api/create-subscription-checkout/route.ts:36-143 | the response, the session request and the table are those of `CreateCheckout` |
| EnsureRoute.EnsureFree | app/api/subscriptions/ensure/route.ts:10-40 | 401 with no write for an anonymous caller, 500 on an auth or insert error, else the caller's row ensured with the free defaults |
| EnsureRoute.EnsureResetsToFree | app/api/subscriptions/ensure/route.ts:26-30 | the caller's row, even a paid one, ends as status free with quota 10 and zero use, keeping its Stripe ids |
| EnsureRoute.Post | app/api/subscriptions/ensure/route.ts:10-40 | the response and the table are those of `EnsureFree` |
| Platform.NormaliseMetadata | services/credits.ts:11-16 | an object is read as itself; null and every non-object are read as an empty map (arrays: see "Left out") |
| Platform.RequestFields | app/api/credits/grant/route.ts:17 | a body that does not parse reads as `{}`; a JSON null has no properties; any other non-object has none of the properties read |
| Platform.UserDirectory.Load | services/credits.ts:18-28 | the user's normalised metadata, nothing for an unknown user |
| Platform.UserDirectory.Store | services/credits.ts:54-56 | replaces the user's metadata, failing and changing nothing for an unknown user |
| Credits.ResolveBalance | services/credits.ts:30-36 | 0 for a missing, null, NaN or negative `credit_balance`; otherwise the stored number |
| Credits.PersistedMetadata | services/credits.ts:38-57 | the balance key holds `max(0, floor(next))`; the legacy key becomes 0 only if present; every other key is kept |
| Credits.PersistedReadsBack | services/credits.ts:38-57 | a persisted balance reads back as `max(0, floor(next))` |
| Credits.Migrate | services/credits.ts:59-72 | a positive finite legacy amount is added to the balance and persisted with the legacy key zeroed; otherwise the balance is returned and nothing is written |
| Credits.ReadBalance | services/credits.ts:74-81 | migration runs only when `credit_balance` is absent and the legacy key is truthy; otherwise the plain balance is read and nothing is written |
| Credits.BalanceOutcome | services/credits.ts:74-81 | an unknown user is an error with no change; otherwise a non-negative balance, and only that user's metadata may change |
| Credits.AddOutcome | services/credits.ts:83-96 | an invalid amount throws before any read or write; an unknown user is an error; otherwise the result is the current balance plus the amount's whole part, persisted for that user only |
| Credits.ConsumeOutcome | services/credits.ts:98-115 | an invalid amount is refused with no change; an unknown user is an error; a debit is accepted exactly when the balance covers the amount; only that user may change |
| Credits.LegacyIgnoredOnceStored | services/credits.ts:77-80 | once `credit_balance` exists the legacy key is ignored by every read, whatever it holds |
| Credits.MigrationIdempotent | services/credits.ts:59-81 | the read after a migration writes nothing and returns the migrated balance rounded down (the same value for a whole legacy amount) |
| Credits.FractionalLegacyReadTwice | services/credits.ts:69-71 | a legacy 2.5 reads 2.5 while migrating and 2 afterwards |
| Credits.AddThenRead | services/credits.ts:83-96 | after an add the balance reads back as the returned sum, rounded down, with no further write |
| Credits.RefusedConsumeKeepsBalance | services/credits.ts:108-110 | a refused debit leaves the balance as read |
| Credits.AcceptedConsumeDebits | services/credits.ts:112-114 | an accepted debit covered the amount and stores the balance less the amount's whole part, never negative |
| Credits.InvalidAmountsChangeNothing | services/credits.ts:84-86 | a non-finite or non-positive amount makes `addCredits` throw and `consumeCredits` refuse, with nothing written |
| Credits.EmptyUserReadsZero | tests/credits.test.ts:35-38 | a user with no metadata reads 0 |
| Credits.AddFivePersists | tests/credits.test.ts:40-46 | adding 5 returns 5 and a later read gives 5 |
| Credits.LegacyEightMigrated | tests/credits.test.ts:48-62 | a legacy 8 reads 8 twice and is stored as `credit_balance` 8 with `referral_credits` 0 |
| Credits.ConsumeWithinBalance | tests/credits.test.ts:64-69 | after adding 3, consuming 2 succeeds and leaves 1 |
| Credits.ConsumeBeyondBalance | tests/credits.test.ts:71-76 | after adding 1, consuming 5 is refused and leaves 1 |
| Credits.ZeroAmountsIgnored | tests/credits.test.ts:78-81 | adding 0 throws the invalid-amount error and consuming 0 answers false |
| Credits.GetCreditBalance | services/credits.ts:74-81 | the balance and the directory are those of `BalanceOutcome` |
| Credits.MigrateReferralCredits | services/credits.ts:59-72 | returns and writes what `Migrate` describes |
| Credits.PersistBalance | services/credits.ts:38-57 | the user's metadata becomes `PersistedMetadata` |
| Credits.AddCredits | services/credits.ts:83-96 | the result and the directory are those of `AddOutcome` |
| Credits.ConsumeCredits | services/credits.ts:98-115 | the result and the directory are those of `ConsumeOutcome` |
| GrantRoute.ReadTarget | app/api/credits/grant/route.ts:32-37 | the trimmed `userId` string; missing, null, non-string or blank is no target |
| GrantRoute.BalanceBody | app/api/credits/grant/route.ts:45 | the body is `{ balance }` |
| GrantRoute.Grant | app/api/credits/grant/route.ts:15-50 | 500 on an auth error; 403 for an anonymous or non-admin caller before the payload is read; the ledger changes only for an admin with a target and a positive finite amount |
| GrantRoute.MissingTargetRefused | app/api/credits/grant/route.ts:35-37 | a missing, null or blank user id answers 400 with nothing written |
| GrantRoute.BadAmountRefused | app/api/credits/grant/route.ts:39-41 | a missing, null or false amount reads as 0 and answers 400 with nothing written |
| GrantRoute.GrantCreditsTarget | app/api/credits/grant/route.ts:43-45 | a 200 answer returns `addCredits`' result as `balance`, that balance reads back, and no other user changes |
| GrantRoute.Post | app/api/credits/grant/route.ts:15-50 | the response and the directory are those of `Grant` |
| GrantRoute.GrantFields | app/api/credits/grant/route.ts:32-46 | the directory changes only for a target and a valid amount; a trim error answers 500 and a missing target 400, with nothing written |
| GrantRoute.PostFields | app/api/credits/grant/route.ts:32-46 | the response and the directory are those of `GrantFields` |
| Admin.Field | lib/admin.ts:21 | a metadata property of an object, nothing for a missing key or non-object metadata |
| Admin.NonEmpty | lib/admin.ts:13 | the pieces that are not empty, no more |
| Admin.TrimLowerAll | lib/admin.ts:12 | each piece trimmed and lower-cased, in place |
| Admin.ParseAdminEmails | lib/admin.ts:5-14 | every allowlist entry is non-empty, trimmed and lower case |
| Admin.CleanedPieces | lib/admin.ts:10-13 | an entry is in the cleaned list exactly when it is the non-empty trimmed lower case of some piece |
| Admin.AdminEmailsAreCleanedPieces | lib/admin.ts:5-14 | the allowlist holds exactly the non-empty trimmed lower-cased comma pieces of `NEXT_PUBLIC_ADMIN_EMAILS`, else `ADMIN_EMAILS` |
| Admin.IsAdminUser | lib/admin.ts:16-46 | no user is never admin; a user is admin exactly when the role, the literal `true` flag, the app roles or the email allowlist grants it |
| Admin.AnyAdminRole | lib/admin.ts:33 | some string element lower-cases to admin, owner or superuser |
| Admin.OnlyLiteralTrueFlag | lib/admin.ts:26-29 | for a user with only an `is_admin` flag and no email, admin exactly when the flag is the boolean true, whatever the allowlist |
| Admin.NoAllowlist | lib/admin.ts:6-9 | a blank or unset variable gives an empty allowlist |
| Admin.RoleCaseInsensitive | lib/admin.ts:21-38 | a role `Owner`, or an app role array holding `ADMIN` past a non-string, grants admin |
| Admin.AllowlistMatchesAnyCase | lib/admin.ts:40-43 | an email matching an allowlist piece up to case and surrounding space grants admin |
| Referrals.CodeBase | services/referrals.ts:6 | at most six characters, upper case, with no dash |
| Referrals.ToCodeCandidate | services/referrals.ts:5-12 | attempt 0 is the base; a retry appends up to four upper-cased characters of the dash-free UUID, exactly four when it has them; every candidate starts with the base and is at most ten characters |
| Referrals.IsTableMissingError | services/referrals.ts:14-20 | true exactly for the codes `42P01` and `PGRST302` |
| Referrals.CodesOf | services/referrals.ts:49-54 | exactly the codes the user owns in `referral_codes` |
| Referrals.LookupCode | services/referrals.ts:49-62 | a fault is returned; otherwise the single code the user owns, nothing when they own none, and the multiple-rows error of `maybeSingle` when they own several |
| Referrals.InsertCode | services/referrals.ts:70-74 | a fault is returned; otherwise the insert fails with the duplicate-key error exactly when the code is taken, and succeeds by adding the code for the user |
| Referrals.StoredCode | services/referrals.ts:28-31 | the metadata's `referral_code` when it is a non-empty string, nothing otherwise |
| Referrals.MetadataFallback | services/referrals.ts:22-45 | a stored code is returned with nothing written; otherwise the attempt-0 candidate, written beside the user's other keys; no other user changes |
| Referrals.MetadataFallbackIdempotent | services/referrals.ts:22-45 | a second fallback returns the same code and writes nothing |
| Referrals.FallbackAllocation | services/referrals.ts:89-90 | the fallback's code, with the code table unchanged |
| Referrals.Candidates | services/referrals.ts:68-69 | the five candidates the loop tries, in order |
| Referrals.AttemptsGrow | services/referrals.ts:68-87 | the loop only adds codes, each owned by the user and among the candidates from this attempt on, and changes no other user's metadata |
| Referrals.AttemptStep | services/referrals.ts:69-86 | a pass that returns adds at most its own candidate, owned by the user; its error is neither a duplicate key nor a missing table and is the insert's; its code is the inserted one or the metadata fallback's; a pass that retries leaves the table as it was, save for an inserted empty code |
| Referrals.AttemptsRetry | services/referrals.ts:68-87 | after a duplicate key or an empty inserted code the loop goes on with the next attempt |
| Referrals.StepOfInsert | services/referrals.ts:70-86 | the insert's outcome decides the pass: a non-empty code is returned, an empty one or a duplicate key retries, a missing table falls back to metadata, any other error is returned |
| Referrals.GrowsBound | services/referrals.ts:68-87 | a table grown by inserts of some candidates holds at most one new code per candidate |
| Referrals.AttemptsOutcome | services/referrals.ts:68-95 | an error is one that is neither a duplicate key nor a missing table, and comes from one of the inserts; a success is a code the user owns in the table or the fallback's code |
| Referrals.Allocate | services/referrals.ts:47-96 | codes are only added, each owned by the user and one of the five candidates; an error is not a missing table and writes no metadata; a success is a code the user owns or the metadata fallback's |
| Referrals.AllocateAddsAtMostFive | services/referrals.ts:68 | one call adds at most five codes to the table |
| Referrals.ExistingCodeReturned | services/referrals.ts:64-66 | a user who owns one non-empty code gets it back with nothing written |
| Referrals.CollisionsFallBack | services/referrals.ts:80-90 | when every candidate is taken the five inserts collide and the code comes from the metadata fallback |
| Referrals.MissingTableUsesMetadata | services/referrals.ts:56-60 | a missing table at the lookup goes straight to the metadata fallback |
| Referrals.FindReferrerByCode | services/referrals.ts:98-115 | the code's owner, nothing for an unknown code or a missing table, and any other error thrown |
| Referrals.ReferralCodeTable.Insert | services/referrals.ts:70-74 | the table and the error are those of `InsertCode` |
| Referrals.EnsureReferralCodeViaMetadata | services/referrals.ts:22-45 | the code and the directory are those of `MetadataFallback` |
| Referrals.EnsureReferralCodeForUser | services/referrals.ts:47-96 | the result and both tables are those of `Allocate` |
| Referrals.TryCandidate | services/referrals.ts:69-86 | whether the loop returns, and the result and both tables, are those of `AttemptStep` |
| Referrals.InsertAttempts | services/referrals.ts:68-90 | the result and both tables are those of `Attempts` from the first attempt |
| ClaimRoute.CouponId | app/api/referrals/claim/route.ts:92 | `STRIPE_REFERRAL_COUPON_ID` when it is a non-empty string, else null |
| ClaimRoute.NormaliseCode | app/api/referrals/claim/route.ts:16-22 | nothing for a missing value or one blank after trimming; otherwise the trimmed upper-cased code, never empty |
| ClaimRoute.NormaliseIdempotent | app/api/referrals/claim/route.ts:16-22 | normalising a normalised code changes nothing |
| ClaimRoute.ReadCode | app/api/referrals/claim/route.ts:26-27 | a `TypeError` for a null body or a truthy non-string code; a code exactly when `code` is a string that normalises; no code otherwise |
| ClaimRoute.LegacyCredits | app/api/referrals/claim/route.ts:78 | 0 for a missing or null `referral_credits`, the number itself when it is one |
| ClaimRoute.Rewarded | app/api/referrals/claim/route.ts:80-85 | `referral_credits` becomes the counter read plus the bonus; every other key is kept |
| ClaimRoute.Claimed | app/api/referrals/claim/route.ts:87-95 | sets `referred_by` to the code, marks the reward claimed and the coupon unredeemed, keeps an existing coupon id or else takes the configured one, and keeps every other key |
| ClaimRoute.RewardBody | app/api/referrals/claim/route.ts:107-110 | the body holds the success message and the bonus |
| ClaimRoute.RewardWrites | app/api/referrals/claim/route.ts:76-95 | only the referrer and the claimer change: the referrer gets `Rewarded`, the claimer `Claimed` over the metadata read at the start |
| ClaimRoute.Allocated | app/api/referrals/claim/route.ts:74-110 | a 200 or a 500; the same users and subscriptions; no third user changes; at most one claim row added |
| ClaimRoute.EnsureBoth | app/api/referrals/claim/route.ts:70-73 | on success both users have a row and the claimer's status is `free`; a failed claimer insert stops before the referrer; no other row changes |
| ClaimRoute.Rewards | app/api/referrals/claim/route.ts:70-110 | a 200 or a 500; no third user changes; at most one claim row added |
| ClaimRoute.ClaimReward | app/api/referrals/claim/route.ts:24-118 | no code answers 400 before authentication; a bad payload or an auth error answers 500; no session answers 401; none of these writes |
| ClaimRoute.ClaimAs | app/api/referrals/claim/route.ts:49-110 | an earlier claim answers "already applied" with nothing written; any write needs a known code owned by someone else |
| ClaimRoute.MissingCodeBeforeAuth | app/api/referrals/claim/route.ts:27-31 | a missing, null, false, zero or empty code answers 400 whatever the session |
| ClaimRoute.AlreadyClaimedChangesNothing | app/api/referrals/claim/route.ts:52-58 | a user already claimed or referred gets the "already applied" answer and nothing changes |
| ClaimRoute.UnknownCodeRefused | app/api/referrals/claim/route.ts:60-64 | an unknown code answers 404 with nothing written |
| ClaimRoute.OwnCodeRefused | app/api/referrals/claim/route.ts:66-68 | the user's own code answers 400 with nothing written |
| ClaimRoute.WritesNeedValidClaim | app/api/referrals/claim/route.ts:24-68 | a claim that changes anything had a code, a session, an unclaimed user and a known code owned by someone else |
| ClaimRoute.RewardedClaimPassedChecks | app/api/referrals/claim/route.ts:24-110 | a rewarded claim passed every check and its outcome is that of `Rewards` |
| ClaimRoute.RewardsAllocated | app/api/referrals/claim/route.ts:70-110 | a successful claim writes what `Allocated` writes over the table with both rows ensured |
| ClaimRoute.AllocatedClaimer | app/api/referrals/claim/route.ts:87-95 | after a successful claim the claimer's metadata is `Claimed` over the metadata read at the start |
| ClaimRoute.AllocatedReferrer | app/api/referrals/claim/route.ts:76-85 | after a successful claim the referrer's counter is the value read before the claim plus the bonus |
| ClaimRoute.RewardsLogged | app/api/referrals/claim/route.ts:97-110 | the claim is logged exactly when the log accepts it, and the answer is the same either way |
| ClaimRoute.RewardReadsBack | app/api/referrals/claim/route.ts:74-85 | allocating the referrer's code leaves the legacy counter alone, so the write adds the bonus to the counter read before |
| ClaimRoute.RewardNotCountedOnceLedgerExists | app/api/referrals/claim/route.ts:83 | once the referrer has `credit_balance`, the reward does not change the balance the ledger reads |
| ClaimRoute.RewardCountedBeforeLedger | app/api/referrals/claim/route.ts:83 | without `credit_balance`, the next ledger read sees the counter plus the bonus |
| ClaimRoute.ClaimLog.Insert | app/api/referrals/claim/route.ts:97-105 | a refused insert leaves the log unchanged; otherwise the row is appended |
| ClaimRoute.ApplyRewards | app/api/referrals/claim/route.ts:70-110 | the response and every table are those of `Rewards` |
| ClaimRoute.AllocateAndWrite | app/api/referrals/claim/route.ts:74-110 | the response and every table are those of `Allocated` |
| ClaimRoute.WriteRewards | app/api/referrals/claim/route.ts:76-95 | the directory becomes `RewardWrites` |
| ClaimRoute.Post | app/api/referrals/claim/route.ts:24-118 | the response and every table are those of `ClaimReward` |
| Middleware.GetParam | middleware.ts:29 | nothing exactly when no parameter has the name; otherwise the value of a parameter with that name |
| Middleware.Without | middleware.ts:29 | exactly the parameters with other names, none with the name |
| Middleware.SetParam | middleware.ts:29 | the parameters with other names are kept, and the name is given the value |
| Middleware.SetThenGet | middleware.ts:29 | after `searchParams.set` the parameter reads back as the value set |
| Middleware.FirstNamed | middleware.ts:29 | a lookup returns the first parameter with the name |
| Middleware.SetKeepsOthers | middleware.ts:29 | setting one parameter leaves every other name's lookup unchanged |
| Middleware.WithoutKeepsOthers | middleware.ts:29 | dropping one name leaves every other name's lookup unchanged |
| Middleware.Decide | middleware.ts:17-40 | 401 exactly for an API path without a session; a redirect to `/login` remembering `redirectedFrom` exactly for the dashboard without a session; a redirect to `/dashboard` with an empty query exactly for an auth page with a session; otherwise the request passes |
| Middleware.Route | middleware.ts:43-45 | a path the matcher does not list passes; a listed one is decided as above |
| Middleware.MatcherCoversDecisions | middleware.ts:18-45 | every path the middleware acts on is one the matcher lists, so matching loses no decision |
| Middleware.ApiNeedsSession | middleware.ts:22-25 | every `/api/` path without a session answers 401 |
| Middleware.StripeWebhookRefused | middleware.ts:20-25 | the Stripe webhook, which carries no session, is answered 401 by the middleware |
| Middleware.DashboardRedirectRemembersOrigin | middleware.ts:27-30 | the dashboard without a session goes to `/login` with `redirectedFrom=/dashboard` and the other parameters kept |
| Uri.Decode | app/api/delete/route.ts:108 | text without `%` is returned as it is; a result is never longer than its input, and is empty only for an empty input |
| Uri.LoneEscapeFails | app/api/delete/route.ts:108 | a malformed escape at the start makes the decoding fail |
| Uri.EncodeAscii | app/api/delete/route.ts:108 | the encoding of ASCII text holds only unreserved characters, `%` and hex digits |
| Uri.DecodeEncodeAscii | app/api/delete/route.ts:108 | decoding the encoding of ASCII text gives it back |
| DeleteRoute.MatchAt | app/api/delete/route.ts:100 | a match at a position names a non-empty bucket without a slash and a non-empty path, and the text there is the prefix, the bucket, a slash and the path |
| DeleteRoute.FindMatch | app/api/delete/route.ts:100 | the leftmost match; nothing exactly when there is no match at any position |
| DeleteRoute.ExtractStoragePath | app/api/delete/route.ts:97-112 | nothing for a URL that does not parse, a path that does not match or another bucket; otherwise the decoded path, never empty |
| DeleteRoute.ExtractedShape | app/api/delete/route.ts:100-108 | an extracted key comes from a path holding the public prefix, the expected bucket, a slash and a non-empty rest |
| DeleteRoute.PublicUrlRoundTrip | app/api/delete/route.ts:97-112 | the public path of a bucket and an encoded ASCII key gives back the key for that bucket and nothing for another |
| DeleteRoute.KeyOf | app/api/delete/route.ts:56-68 | a key is extracted only from a set, non-empty URL and is never empty |
| DeleteRoute.Deletions | app/api/delete/route.ts:54-68 | the input image first, then the output image, each present exactly when its key is extracted |
| DeleteRoute.RemoveFrom | app/api/delete/route.ts:70-75 | objects are only removed; the loop fails exactly when a removal reports an error other than "Object not found" |
| DeleteRoute.CleanRemovalDeletesAll | app/api/delete/route.ts:70-75 | without errors exactly the listed objects are removed |
| DeleteRoute.SuccessBody | app/api/delete/route.ts:82 | the body is `{ success: true }` |
| DeleteRoute.Delete | app/api/delete/route.ts:17-95 | an auth error answers 500 and no session 401, both with nothing changed; rows and objects are only removed; a row is removed only on a 200 |
| DeleteRoute.MissingIdBeforeLookup | app/api/delete/route.ts:33-36 | a missing, null, false, zero or empty id answers 400 with nothing changed |
| DeleteRoute.SuccessRemovesFilesThenRow | app/api/delete/route.ts:52-82 | without errors the files listed are removed, then the row, and the answer is `{ success: true }` |
| DeleteRoute.RemovalErrorKeepsRow | app/api/delete/route.ts:72-93 | a failed answer leaves the project row in place |
| DeleteRoute.ProjectStore.DeleteRow | app/api/delete/route.ts:77-80 | the row is removed unless the delete reports an error |
| DeleteRoute.Storage.Remove | app/api/delete/route.ts:71 | the object is removed unless the removal reports an error, which is passed on |
| DeleteRoute.RemoveAll | app/api/delete/route.ts:70-75 | the failure and the objects left are those of `RemoveFrom` |
| DeleteRoute.Post | app/api/delete/route.ts:17-95 | the response and both tables are those of `Delete` |
| Analytics.FirstCurrency | app/api/admin/analytics/route.ts:43-45 | a currency it picks is never empty |
| Analytics.NetOfCounted | app/api/admin/analytics/route.ts:37-41 | only charges and payments add to the net; non-negative nets give a non-negative total |
| Analytics.CountOfCounted | app/api/admin/analytics/route.ts:37-42 | the count is at most the number of transactions, 0 exactly when none is a charge or payment, and all of them exactly when every one is |
| Analytics.FirstCurrencyIsFirst | app/api/admin/analytics/route.ts:43-45 | no currency exactly when no counted transaction names one; otherwise the currency of the first that does |
| Analytics.Summary | app/api/admin/analytics/route.ts:55 | the totals of the counted transactions, with `usd` when none names a currency; the currency is never empty |
| Analytics.TallyAppend | app/api/admin/analytics/route.ts:37-46 | the totals of two runs add up and the currency is the first run's when it has one |
| Analytics.TallyStep | app/api/admin/analytics/route.ts:37-46 | one more transaction adds its net and one payment only when it is counted, and sets the currency only when none was found yet |
| Analytics.OtherTypesIgnored | app/api/admin/analytics/route.ts:38-40 | a transaction of another type changes none of the figures, wherever it sits |
| Analytics.PageEnd | app/api/admin/analytics/route.ts:32 | a page holds at most 100 transactions and at least one when any remain |
| Analytics.PageFrom | app/api/admin/analytics/route.ts:31-35 | the next at most 100 transactions, with `has_more` exactly when more remain |
| Analytics.IndexOf | app/api/admin/analytics/route.ts:34 | the first position holding the id, nothing exactly when no transaction has it |
| Analytics.List | app/api/admin/analytics/route.ts:31-35 | no cursor lists from the start; a cursor lists from just after the transaction it names; an unknown cursor is an error |
| Analytics.ListAfter | app/api/admin/analytics/route.ts:31-35 | with distinct ids, listing after the previous page's last id gives the page from the next position |
| Analytics.DistinctIdsPairwise | app/api/admin/analytics/route.ts:34 | distinct ids means no two positions share an id |
| Analytics.IndexOfDistinct | app/api/admin/analytics/route.ts:49 | with distinct ids a transaction's id finds its own position again |
| Analytics.StopFrom | app/api/admin/analytics/route.ts:48-52 | the loop stops within the month's transactions, after a page without more, an empty page, or one whose last id is empty |
| Analytics.VisitsEveryPage | app/api/admin/analytics/route.ts:30-53 | without empty ids the loop reads every transaction |
| Analytics.RevenueOfWholeMonth | app/api/admin/analytics/route.ts:21-56 | without empty ids the figures are those of the whole month |
| Analytics.Prefix | app/api/admin/analytics/route.ts:37-46 | a currency set by the loop is never empty |
| Analytics.PrefixFigures | app/api/admin/analytics/route.ts:37-46 | the running figures are the totals of the transactions read so far |
| Analytics.RevenueOfVisit | app/api/admin/analytics/route.ts:55 | the figures where the loop stops are the summary of the transactions it read |
| Analytics.FetchRevenue | app/api/admin/analytics/route.ts:21-56 | returns the summary of the transactions the paging loop reads |
| Analytics.StopStep | app/api/admin/analytics/route.ts:48-52 | after one page the loop stops or goes on from the next position |
| Analytics.TallyPage | app/api/admin/analytics/route.ts:37-46 | one page extends the running figures by its transactions |
| Analytics.Round4 | app/api/admin/analytics/route.ts:77 | within half of 1/10000 of the value, and at most 1 for a value at most 1 |
| Analytics.VisitorsMetrics | app/api/admin/analytics/route.ts:58-87 | a failed read gives null for both figures; otherwise the count (0 for null) and, exactly when it is positive, the payers per visitor to four decimals |
| Analytics.ActiveCount | app/api/admin/analytics/route.ts:109-118 | the rows with an active, trialing or past-due status, never more than the table |
| Analytics.NullOr | app/api/admin/analytics/route.ts:131-132 | null for a missing figure, the number otherwise |
| Analytics.ReportBody | app/api/admin/analytics/route.ts:124-133 | the body holds exactly the revenue amount and currency, the payment count, the active subscriptions and the two visitor figures |
| Analytics.Report | app/api/admin/analytics/route.ts:89-141 | an auth error answers 500; an anonymous or non-admin caller 403; a Stripe or count failure 500; an admin gets 200 exactly otherwise, with the month's figures |
| Analytics.VisitsFailureDegrades | app/api/admin/analytics/route.ts:80-86 | a failed visits read keeps the report at 200, with both visitor figures null |
| Analytics.ConversionRateOfReport | app/api/admin/analytics/route.ts:75-77 | the rate is null for no visitors, else the active subscriptions per visitor to four decimals |
| Analytics.Get | app/api/admin/analytics/route.ts:89-141 | the response is that of `Report` |
| SubscriptionStatus.IsActiveAgrees | components/SubscriptionStatus.tsx:15-31 | the card's active statuses are those of the billing service |
| SubscriptionStatus.PlanKey | components/SubscriptionStatus.tsx:27 | the price of an active subscription that has one, `free` otherwise |
| SubscriptionStatus.PlanFor | components/SubscriptionStatus.tsx:28 | the plan of a known key, the free plan for any other |
| SubscriptionStatus.UnknownPriceShownAsFree | components/SubscriptionStatus.tsx:27-28 | an unknown price shows the free plan and its quota |
| SubscriptionStatus.Remaining | components/SubscriptionStatus.tsx:29 | never negative, never below the limit less the use, and exactly that when the use is within the limit |
| SubscriptionStatus.Round | components/SubscriptionStatus.tsx:30 | the nearest integer, a tie rounding up |
| SubscriptionStatus.RoundMonotone | components/SubscriptionStatus.tsx:30 | rounding keeps the order |
| SubscriptionStatus.UsagePercent | components/SubscriptionStatus.tsx:30 | 0 without a positive limit; otherwise between 0 and 100 for a non-negative use, 100 once the limit is reached, and the rounded percentage below that |
| SubscriptionStatus.UsagePercentMonotone | components/SubscriptionStatus.tsx:30 | more use never shrinks the bar |
| SubscriptionStatus.BadgeLabel | components/SubscriptionStatus.tsx:32-38 | loading first, then Trial for an active trial, Active for another active status, Free otherwise |
| SubscriptionStatus.Manage | components/SubscriptionStatus.tsx:79-88 | the button shows exactly for an active status with a handler, disabled as asked and captioned to match |
| SubscriptionStatus.Render | components/SubscriptionStatus.tsx:26-91 | the badge and its colour follow the status; the body is the error, else the loading line, else the plan, remaining quota and bar; the button as `Manage` decides |
| SubscriptionStatus.ManageMatchesBadge | components/SubscriptionStatus.tsx:31-79 | once loaded a card with the button says Trial or Active, and a Free card has none |
| SubscriptionStatus.InactiveShownAsFree | components/SubscriptionStatus.tsx:27-65 | an inactive subscription is shown as the free plan whatever its price |
| Dashboard.Summarise | app/dashboard/page.tsx:296-311 | the status defaults to free; the plan is the active row's price; the limit is the row's, else its plan's quota; the use defaults to 0; the quota is reached exactly when the use meets the limit |
| Dashboard.NoRowIsFreeTier | app/dashboard/page.tsx:296-311 | without a row the page shows the free plan's ten generations, none used |
| Dashboard.PlanQuotaFallback | app/dashboard/page.tsx:302 | an active Pro row without its own limit gets 200 |
| Dashboard.ShowUpgradeToPro | app/dashboard/page.tsx:313-324 | shown exactly for an active Stripe subscription on a plan other than Pro |
| Dashboard.ShowQuotaReminder | app/dashboard/page.tsx:326-338 | shown exactly for a row with a positive limit not yet reached and at least four-fifths used |
| Dashboard.ReminderBeforeLimit | app/dashboard/page.tsx:326-338 | the reminder never shows with the quota reached, and the count it shows is positive and at most a fifth of the limit |
| Dashboard.CanSubmit | app/dashboard/page.tsx:340-343 | true exactly with a file, a non-blank prompt and quota left |
| Dashboard.Submit | app/dashboard/page.tsx:345-366 | the quota is checked first, then the file, then the prompt; a sent request carries the trimmed, non-empty prompt |
| Dashboard.SubmitMatchesButton | app/dashboard/page.tsx:340-359 | a request is sent exactly when the button is enabled, so never once the quota is reached |
| Dashboard.CardAgreesWithSummary | app/dashboard/page.tsx:548-557 | the status card names the plan the page computed and counts the same generations left |
| AuthForm.RunEnd | features/auth/components/AuthForm.tsx:71 | the end of the run of non-space characters from a position |
| AuthForm.DotIn | features/auth/components/AuthForm.tsx:71 | true exactly when a dot lies in the range |
| AuthForm.MatchesAt | features/auth/components/AuthForm.tsx:71 | true exactly when `\S+@\S+\.\S+` matches with its `@` at that position |
| AuthForm.RunCovers | features/auth/components/AuthForm.tsx:71 | a run of non-space characters reaches at least as far as any non-space stretch it starts |
| AuthForm.MatchFrom | features/auth/components/AuthForm.tsx:71 | true exactly when the pattern matches with its `@` at or after that position |
| AuthForm.ValidEmail | features/auth/components/AuthForm.tsx:71-72 | true exactly when the email pattern occurs somewhere in the text |
| AuthForm.EmailExamples | features/auth/components/AuthForm.tsx:71 | `a@b.c`, `see a@b.c here` and `a@@b.c` match; `a@b` and `@b.c` do not |
| AuthForm.ValidatedEmailSurvivesTrim | features/auth/components/AuthForm.tsx:72-94 | an email that passed the check still matches once trimmed for the call |
| AuthForm.PatternSurvivesTrimStart | features/auth/components/AuthForm.tsx:94 | dropping leading white space keeps a match |
| AuthForm.ShiftWitness | features/auth/components/AuthForm.tsx:71 | a match is still found at the shifted position after dropping characters before it |
| AuthForm.PatternSurvivesTrimEnd | features/auth/components/AuthForm.tsx:94 | dropping trailing white space keeps a match |
| AuthForm.Utf16Length | features/auth/components/AuthForm.tsx:75 | the `length` in UTF-16 code units: at least the character count and at most twice it |
| AuthForm.Validate | features/auth/components/AuthForm.tsx:70-79 | the email is checked first, then the password's eight code units; no error exactly when both pass |
| AuthForm.FourAstralCharactersAccepted | features/auth/components/AuthForm.tsx:75 | four emoji pass the eight-unit rule while seven digits do not |
| AuthForm.RedirectTo | features/auth/components/AuthForm.tsx:28 | `redirectedFrom` when present, else `/dashboard` |
| AuthForm.Submit | features/auth/components/AuthForm.tsx:81-123 | an invalid form makes no call and shows the error; a valid one calls with the trimmed email; a refusal shows its message and stops; sign-up without a session shows the confirmation; a redirect happens exactly for a login, or a sign-up with a session, that succeeds |
| AuthForm.CopiesAgree | components/AuthForm.tsx:51-106 | the French form makes the same calls and redirects as the English one; only the texts differ |
| AuthForm.LoginReturnsToDashboard | features/auth/components/AuthForm.tsx:28-103 | a signed-out dashboard visit that logs in returns to `/dashboard` |
| Utils.KeptNames | lib/utils.ts:5 | no more names than arguments, none empty, and none exactly when no argument is truthy |
| Utils.KeptNamesAppend | lib/utils.ts:5 | the filter keeps the order of the arguments |
| Utils.Cn | lib/utils.ts:4-6 | empty exactly when no argument is truthy |
| Utils.CnOfNothing | lib/utils.ts:4-6 | no arguments, or only falsy ones, give the empty string |
| Utils.CnDropsFalsy | lib/utils.ts:5 | a falsy argument anywhere changes nothing |
| Utils.CnSplits | lib/utils.ts:5 | splitting the result on spaces gives back the truthy names in order, when none holds a space |
| Utils.EnvUrl | lib/utils.ts:17-20 | `NEXT_PUBLIC_APP_URL` when set, even empty; else `NEXT_PUBLIC_SITE_URL`; else `https://` and a non-empty `VERCEL_URL` |
| Utils.ResolveSiteUrl | lib/utils.ts:15-22 | the origin, else the environment's URL, else the fallback, else `http://localhost:3000` |
| Utils.EmptyOnlyWhenGivenEmpty | lib/utils.ts:21 | an empty result comes only from a value that was itself set to the empty string |
| Utils.EmptyOriginWins | lib/utils.ts:21 | an empty origin wins over every configured URL |
| Utils.EmptyVercelSkipped | lib/utils.ts:20 | an empty `VERCEL_URL` is skipped while an empty site URL is kept |
| JsStrings.Trim | lib/admin.ts:6-12 | no edge white space; a trimmed string is unchanged; empty exactly when all white space |
| JsStrings.TrimIdempotent | lib/admin.ts:12 | trimming twice is trimming once |
| JsStrings.ToUpper | app/api/referrals/claim/route.ts:20 | each character upper-cased, in place |
| JsStrings.ToLower | lib/admin.ts:12 | each character lower-cased, in place |
| JsStrings.TrimUpper | app/api/referrals/claim/route.ts:20 | trimming and upper-casing commute |
| JsStrings.TrimLower | lib/admin.ts:12 | trimming and lower-casing commute |
| JsStrings.RemoveChar | services/referrals.ts:6 | the character is gone, and nothing else is added |
| JsStrings.Take | services/referrals.ts:6 | a prefix of the requested length, or the whole string when it is shorter |
| JsStrings.Split | lib/admin.ts:11 | at least one piece, none holding the separator, joining back to the text |
| JsStrings.SplitJoin | lib/admin.ts:11 | splitting joined pieces without the separator gives them back |
| JsValues.Coalesce | app/api/referrals/claim/route.ts:92 | `??`: the value unless it is missing or null |
| JsValues.ToNumber | app/api/credits/grant/route.ts:33 | `Number(x)`: a number is itself, null is 0, and the result is finite or NaN |
| JsValues.NumberOrZero | app/api/referrals/claim/route.ts:78 | `|| 0`: NaN reads as 0, a finite number as itself |
| Platform.MessageResponse | app/api/credits/grant/route.ts:29 | the status, with a body holding exactly the message |
| Credits.Max0 | services/credits.ts:40 | `Math.max(0, n)`: never negative, never below `n`, and `n` itself when it is not negative |
| Credits.CurrentBalance | services/credits.ts:77-80 | the balance a read yields is never negative |
| Credits.CurrentBalanceOf | services/credits.ts:77-106 | returns `CurrentBalance` and writes what the read writes |
| Subscriptions.Baseline | services/subscriptions.ts:136-143 | the insert baseline: the user, status `free`, the free quota, no use and no Stripe ids |
| Subscriptions.FindByCustomer | app/api/webhooks/stripe/route.ts:45-49 | a found row is in the table and linked to the customer; nothing when not exactly one row is |
| Subscriptions.FindBySubscription | app/api/webhooks/stripe/route.ts:145-149 | a found row is in the table and linked to the subscription; nothing when not exactly one row is |
| JsValues.StringToNumber | services/credits.ts:31 | `Number(text)`: finite or NaN, and a run of digits is its decimal value |
| Platform.NewTypeError | app/api/create-subscription-checkout/route.ts:54 | a runtime `TypeError`: an `Error` instance with the message, the inherited name `TypeError` and no enumerable property |
| Platform.NewError | app/api/create-subscription-checkout/route.ts:28 | a thrown `new Error`: an `Error` instance with the message, the inherited name `Error` and no enumerable property |
| Platform.DbThrown | app/api/create-subscription-checkout/route.ts:71 | a thrown database error: a plain object with its code and message as properties and no name |
| Platform.CaughtMessage | app/api/delete/route.ts:86-90 | the message of an `Error` instance, the generic text for anything else |
| Platform.DbErrorsAnsweredGenerically | app/api/subscriptions/upgrade/route.ts:91-96 | a thrown database error is always answered with the generic text, never with its own message |
| Platform.Spread | app/api/create-subscription-checkout/route.ts:137 | `{ name, ...error }` as JSON: the error's own properties, plus `name` unless it is undefined, an own `name` winning |
| Platform.MessageBody | app/api/credits/grant/route.ts:29 | an object holding exactly the message |

## Left out

- Network and SDK I/O: Supabase queries and auth, Stripe calls, storage removal and the inference call are not performed. Their results are inputs, and the tables are maps. Where the code checks a call's error, that error is an input too. Where it ignores the error, the call always succeeds in the model, as listed below.
- Subscriptions.EnsureRow, Subscriptions.Upserted, Subscriptions.SubscriptionStore.Ensure, Subscriptions.SubscriptionStore.Upsert: the row read, the update and the upsert insert whose errors `services/subscriptions.ts` ignores (lines 41-45, 49-52, 117-121, 124-130, 134-145) never fail. In the code a failed read is taken as "no row", so an insert is tried anyway. A failed write still answers success and leaves the table as it was. Only the insert error of `ensureSubscriptionRow`, which the code checks, is modelled.
- Credits.PersistBalance, Credits.PersistedMetadata: the `updateUserById` at `services/credits.ts:54-56` is unchecked and always succeeds in the model. The model's failure case is limited to an unknown user. So Credits.AddThenRead, Credits.AcceptedConsumeDebits and GrantRoute.GrantCreditsTarget state the read-back only for a write that succeeded.
- Referrals.MetadataFallback, Referrals.EnsureReferralCodeViaMetadata: the read (`services/referrals.ts:26-27`) and the write (lines 39-41) never fail in the model. In the code a failed read is taken as `{}`, so a fresh code is written over the user's metadata, and a failed write still returns the code.
- ClaimRoute.RewardWrites, ClaimRoute.WriteRewards: the referrer read and both metadata writes of the claim route (`app/api/referrals/claim/route.ts:76-95`) never fail in the model. In the code a failed referrer read spreads `{}` and writes the bonus alone (`referral_credits: 10`), dropping the referrer's earlier balance, and a failed write still answers success. So ClaimRoute.AllocatedReferrer and ClaimRoute.AllocatedClaimer hold only when those calls succeed, as does EnsureRoute.EnsureResetsToFree for the update inside `ensureSubscriptionRow`.
- Platform.NormaliseMetadata: an array passes `typeof value === 'object'` in `services/credits.ts:11-16` and is returned as itself, where the model reads it as `{}`. Named keys read the same, but the later `{ ...metadata, credit_balance }` of a persist would also copy the array's index keys, which the model drops.
- Thrown errors: a PostgREST database error is taken to be a plain object, not an `Error` instance, so every `catch` that tests `instanceof Error` answers it with its generic text. Auth and Stripe errors are `Error` instances and keep their own message. A database error's `details` and `hint` properties are not modelled; in the `debug` object of `app/api/create-subscription-checkout/route.ts:132-141` it carries only its `code` and `message`. Auth and Stripe errors' names and own properties are inputs.
- Stripe webhook signature verification (`constructEvent`): an event either arrives verified or is refused with 400. The cryptography is not modelled.
- `app/api/generate/route.ts` is not part of this model. It is an I/O pipeline over the inference API and storage, and it does not touch the quota.
- Dates: `new Date` parsing and `toISOString` are an abstract injective pair, milliseconds to text and back. Calendar arithmetic is not modelled, nor is `startOfCurrentMonth`. The analytics route receives the month's transactions as its input.
- Floating point: amounts, ratios and percentages are exact reals or integers. `Math.round`, `Math.floor` and `toFixed(4)` are stated on reals, and IEEE rounding error is not modelled. `Number()` of a string covers an optionally signed run of decimal digits: decimals, exponents, hexadecimal and `Infinity` read as NaN.
- Concurrency: each request is one sequential step. Lost updates between concurrent metadata read-modify-writes, and races between webhook deliveries, are not modelled.
- Randomness: the `randomUUID` suffixes of retried referral codes are an input sequence.
- The price identifiers are fixed at the fallback literals of `constants/subscriptions.ts`. `ResolvePublicEnv` models the override rule on its own, but does not feed it into the plan table.
- The subscription row's `id` column is not modelled: the table has one row per user, keyed by user id.
- Upper and lower case are ASCII only, and white space is the JavaScript `trim` set. `decodeURIComponent` is modelled in full, but `encodeURIComponent` only for ASCII text. That is enough for the round trip of storage keys.
- DeleteRoute.Delete, DeleteRoute.Post: the two bucket names are given as set. In the code `requireEnv` reads `SUPABASE_INPUT_BUCKET` and `SUPABASE_OUTPUT_BUCKET` when the module loads (`app/api/delete/route.ts:14-15`) and throws if either is missing or empty, so then every request fails before `POST` runs; that failure is not modelled.
- The delete route's row-level security and the project query's owner filter are not modelled. The project is looked up by id in the table given.
- The middleware decides on the exact paths `/dashboard`, `/login`, `/signup` and the `/api/` prefix. Next.js path normalisation such as trailing slashes is not modelled.
- UI: rendering, styling, the React state setters' sequencing, `handleGoogleSignIn` (an OAuth redirect) and `sleep` (a timer) are not modelled. Each form submission is a function from the form, the query and the auth reply to the final form state. The dashboard's effects and its generation request are not modelled; the model stops at the client-side guard.
- The billing page, the billing-history route, the referral-code route, the email service, the marketing components and the client factories are not part of this model.
- Dashboard.Summarise: the `FREE_TIER_QUOTA` at the end of the limit's `??` chain is never reached, because every plan key resolves to a plan with a quota.
