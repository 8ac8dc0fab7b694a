/**
 * The Stripe objects the application reads, as plain values. A reference
 * that Stripe may send either as an id or as an expanded object is reduced
 * to its id, unless the expanded object's own fields are read.
 */
module StripeObjects {
  import opened JsValues

  /** One subscription item: its id and the id of its price. */
  datatype StripeItem = StripeItem(id: string, priceId: Option<string>)

  /** A Stripe subscription; `metadataUserId` is `metadata.supabase_user_id`. */
  datatype StripeSubscription = StripeSubscription(
    id: string,
    customer: Option<string>,
    metadataUserId: Option<string>,
    status: string,
    items: seq<StripeItem>,
    periodStart: Option<int>,
    periodEnd: Option<int>)

  /** The reply of `stripe.customers.retrieve`: a failure, a deleted customer,
      or a customer with its `metadata.supabase_user_id`. */
  datatype CustomerLookup = LookupFailed | DeletedCustomer | ActiveCustomer(metadataUserId: Option<string>)

  datatype CheckoutSession = CheckoutSession(customer: Option<string>, metadataUserId: Option<string>, subscription: Option<string>)

  datatype InvoiceLine = InvoiceLine(periodStart: int, periodEnd: int, priceId: Option<string>)

  datatype Invoice = Invoice(subscription: Option<string>, customer: Option<string>, lines: seq<InvoiceLine>)

  /** `subscription.items.data[0]?.price?.id ?? null`. */
  function FirstPrice(items: seq<StripeItem>): (r: Option<string>)
    ensures |items| == 0 ==> r.None?
    ensures |items| > 0 ==> r == items[0].priceId
  {
    if |items| == 0 then None else items[0].priceId
  }

}
