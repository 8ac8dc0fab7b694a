/**
 * `GET /api/admin/analytics`: the administrator's monthly figures. The
 * revenue is aggregated over the month's Stripe balance transactions, read
 * page by page with a cursor; the active subscriptions are counted in the
 * subscriptions table; the visitor count and the conversion rate come from a
 * visits table and degrade to `null` when that read fails.
 */
module Analytics {
  import opened JsValues
  import opened Platform
  import opened Admin
  import opened Subscriptions

  /** A balance transaction as the list endpoint returns it; `net` is in the
      currency's minor unit. */
  datatype Transaction = Transaction(id: string, kind: string, net: int, currency: string)

  /** `CHARGE_TYPES`: the transaction types that count as revenue. */
  const ChargeTypes: set<string> := {"charge", "payment"}

  predicate Counted(t: Transaction) {
    t.kind in ChargeTypes
  }

  /** A counted transaction whose currency is a non-empty string. */
  predicate NamesCurrency(t: Transaction) {
    Counted(t) && t.currency != ""
  }

  // ----- the aggregate, as a specification ---------------------------------

  /** The sum of `net` over the counted transactions. */
  function NetOf(ts: seq<Transaction>): int {
    if ts == [] then 0
    else NetOf(ts[..|ts| - 1]) + (if Counted(ts[|ts| - 1]) then ts[|ts| - 1].net else 0)
  }

  /** The number of counted transactions. */
  function CountOf(ts: seq<Transaction>): nat {
    if ts == [] then 0
    else CountOf(ts[..|ts| - 1]) + (if Counted(ts[|ts| - 1]) then 1 else 0)
  }

  /** The currency of the first counted transaction that names one. */
  function FirstCurrency(ts: seq<Transaction>): (r: Option<string>)
    ensures r.Some? ==> r.value != ""
  {
    if ts == [] then None
    else
      var f := FirstCurrency(ts[..|ts| - 1]);
      if f.Some? then f
      else if NamesCurrency(ts[|ts| - 1]) then Some(ts[|ts| - 1].currency)
      else None
  }

  /** Only counted transactions contribute to the sum, and non-negative nets
      give a non-negative sum. */
  lemma {:induction false} NetOfCounted(ts: seq<Transaction>)
    ensures (forall i :: 0 <= i < |ts| ==> !Counted(ts[i])) ==> NetOf(ts) == 0
    ensures (forall i :: 0 <= i < |ts| ==> ts[i].net >= 0) ==> NetOf(ts) >= 0
  {
    if ts != [] {
      var front := ts[..|ts| - 1];
      assert forall i :: 0 <= i < |front| ==> front[i] == ts[i];
      NetOfCounted(front);
    }
  }

  /** The count is the number of counted transactions: none when no
      transaction is counted, all when all are. */
  lemma {:induction false} CountOfCounted(ts: seq<Transaction>)
    ensures CountOf(ts) <= |ts|
    ensures CountOf(ts) == 0 <==> forall i :: 0 <= i < |ts| ==> !Counted(ts[i])
    ensures CountOf(ts) == |ts| <==> forall i :: 0 <= i < |ts| ==> Counted(ts[i])
  {
    if ts != [] {
      var front := ts[..|ts| - 1];
      assert forall i :: 0 <= i < |front| ==> front[i] == ts[i];
      CountOfCounted(front);
    }
  }

  /** The currency is that of the first counted transaction naming one, and
      there is none exactly when no counted transaction names one. */
  lemma {:induction false} FirstCurrencyIsFirst(ts: seq<Transaction>)
    ensures FirstCurrency(ts).None? <==> forall i :: 0 <= i < |ts| ==> !NamesCurrency(ts[i])
    ensures FirstCurrency(ts).Some? ==> exists i :: (0 <= i < |ts| && NamesCurrency(ts[i])
      && ts[i].currency == FirstCurrency(ts).value && forall j :: 0 <= j < i ==> !NamesCurrency(ts[j]))
  {
    if ts != [] {
      var front := ts[..|ts| - 1];
      assert forall i :: 0 <= i < |front| ==> front[i] == ts[i];
      FirstCurrencyIsFirst(front);
      if FirstCurrency(front).Some? {
        var i :| 0 <= i < |front| && NamesCurrency(front[i]) && front[i].currency == FirstCurrency(front).value
          && forall j :: 0 <= j < i ==> !NamesCurrency(front[j]);
        assert ts[i] == front[i];
      } else if NamesCurrency(ts[|ts| - 1]) {
        assert forall j :: 0 <= j < |ts| - 1 ==> !NamesCurrency(ts[j]);
      }
    }
  }

  /** What `fetchRevenueMetrics` returns. */
  datatype Revenue = Revenue(totalNet: int, paymentsCount: nat, currency: string)

  /** The revenue figures of a run of transactions; `usd` when no counted
      transaction names a currency. */
  function Summary(ts: seq<Transaction>): (r: Revenue)
    ensures r.totalNet == NetOf(ts) && r.paymentsCount == CountOf(ts)
    ensures r.currency == (if FirstCurrency(ts).Some? then FirstCurrency(ts).value else "usd")
    ensures r.currency != ""
  {
    Revenue(NetOf(ts), CountOf(ts), FirstCurrency(ts).GetOr("usd"))
  }

  /** The figures of two runs combine: sums and counts add up, and the
      currency is the first run's when it names one. */
  lemma {:induction false} TallyAppend(a: seq<Transaction>, b: seq<Transaction>)
    ensures NetOf(a + b) == NetOf(a) + NetOf(b)
    ensures CountOf(a + b) == CountOf(a) + CountOf(b)
    ensures FirstCurrency(a + b) == (if FirstCurrency(a).Some? then FirstCurrency(a) else FirstCurrency(b))
    decreases |b|
  {
    if b == [] {
      assert a + b == a;
    } else {
      var b' := b[..|b| - 1];
      assert (a + b)[..|a + b| - 1] == a + b';
      assert (a + b)[|a + b| - 1] == b[|b| - 1];
      TallyAppend(a, b');
    }
  }

  /** The figures after one more transaction. */
  lemma TallyStep(ts: seq<Transaction>, t: Transaction)
    ensures NetOf(ts + [t]) == NetOf(ts) + (if Counted(t) then t.net else 0)
    ensures CountOf(ts + [t]) == CountOf(ts) + (if Counted(t) then 1 else 0)
    ensures FirstCurrency(ts + [t]) ==
      (if FirstCurrency(ts).Some? then FirstCurrency(ts) else if NamesCurrency(t) then Some(t.currency) else None)
  {
    assert (ts + [t])[..|ts|] == ts;
  }

  /** A transaction of any other type changes none of the figures, wherever
      it sits. */
  lemma OtherTypesIgnored(a: seq<Transaction>, t: Transaction, b: seq<Transaction>)
    requires !Counted(t)
    ensures Summary(a + [t] + b) == Summary(a + b)
  {
    TallyStep([], t);
    assert [] + [t] == [t];
    TallyAppend(a, [t]);
    TallyAppend(a + [t], b);
    TallyAppend(a, b);
  }

  // ----- the list endpoint -----------------------------------------------

  /** The `limit` of each list request. */
  const PageLimit := 100

  datatype Page = Page(data: seq<Transaction>, hasMore: bool)

  /** Where the page that starts at position `start` ends. */
  function PageEnd(all: seq<Transaction>, start: nat): (end: nat)
    requires start <= |all|
    ensures start <= end <= |all| && end - start <= PageLimit
    ensures start < |all| ==> start < end
  {
    if |all| - start <= PageLimit then |all| else start + PageLimit
  }

  /** The page that starts at position `start` of the month's transactions,
      in the order the endpoint lists them. */
  function PageFrom(all: seq<Transaction>, start: nat): (p: Page)
    requires start <= |all|
    ensures p.data == all[start..PageEnd(all, start)]
    ensures p.hasMore <==> PageEnd(all, start) < |all|
  {
    var end := PageEnd(all, start);
    Page(all[start..end], end < |all|)
  }

  /** The first position of a transaction with that id. */
  function IndexOf(all: seq<Transaction>, id: string): (r: Option<nat>)
    ensures r.Some? ==> (r.value < |all| && all[r.value].id == id
      && forall j :: 0 <= j < r.value ==> all[j].id != id)
    ensures r.None? ==> forall j :: 0 <= j < |all| ==> all[j].id != id
  {
    if all == [] then None
    else if all[0].id == id then Some(0)
    else
      match IndexOf(all[1..], id)
      case None => None
      case Some(k) => Some(k + 1)
  }

  /** `balanceTransactions.list` with an optional `starting_after` cursor:
      the page after the transaction the cursor names; a cursor naming no
      transaction is an error. */
  function List(all: seq<Transaction>, startingAfter: Option<string>): (p: Option<Page>)
    ensures startingAfter.None? ==> p == Some(PageFrom(all, 0))
    ensures startingAfter.Some? && IndexOf(all, startingAfter.value).Some? ==>
      p == Some(PageFrom(all, IndexOf(all, startingAfter.value).value + 1))
    ensures startingAfter.Some? && IndexOf(all, startingAfter.value).None? ==> p.None?
  {
    match startingAfter
    case None => Some(PageFrom(all, 0))
    case Some(id) =>
      match IndexOf(all, id)
      case None => None
      case Some(k) => Some(PageFrom(all, k + 1))
  }

  /** Stripe's ids are unique: no later transaction repeats the first one's
      id, and so on down the list. */
  predicate DistinctIds(all: seq<Transaction>) {
    |all| == 0 || ((forall j :: 1 <= j < |all| ==> all[j].id != all[0].id) && DistinctIds(all[1..]))
  }

  /** That is, no two transactions share an id. */
  lemma {:induction false} DistinctIdsPairwise(all: seq<Transaction>)
    ensures DistinctIds(all) <==> forall i, j :: 0 <= i < j < |all| ==> all[i].id != all[j].id
  {
    if |all| > 0 {
      DistinctIdsPairwise(all[1..]);
      assert forall i :: 1 <= i < |all| ==> all[i] == all[1..][i - 1];
    }
  }

  /** The cursor a transaction's id makes leads back to that transaction. */
  lemma {:induction false} IndexOfDistinct(all: seq<Transaction>, k: nat)
    requires DistinctIds(all) && k < |all|
    ensures IndexOf(all, all[k].id) == Some(k)
  {
    if k > 0 {
      assert all[k] == all[1..][k - 1];
      IndexOfDistinct(all[1..], k - 1);
    }
  }

  /** Where the loop stops reading when it reads from position `start` on: a
      page at a time, stopping after a page without `has_more`, an empty
      page, or a page whose last id is empty (a falsy cursor). */
  function StopFrom(all: seq<Transaction>, start: nat): (e: nat)
    requires start <= |all|
    ensures start <= e <= |all|
    decreases |all| - start
  {
    var end := PageEnd(all, start);
    if end == |all| || end == start || all[end - 1].id == "" then end
    else StopFrom(all, end)
  }

  /** The transactions the loop reads: a prefix of the month's. */
  function Visited(all: seq<Transaction>): seq<Transaction> {
    all[..StopFrom(all, 0)]
  }

  /** With no empty id every page is read, so the figures cover the whole
      month. */
  lemma {:induction false} VisitsEveryPage(all: seq<Transaction>, start: nat)
    requires start <= |all|
    requires forall i :: 0 <= i < |all| ==> all[i].id != ""
    ensures StopFrom(all, start) == |all|
    decreases |all| - start
  {
    var end := PageEnd(all, start);
    if end < |all| {
      VisitsEveryPage(all, end);
    }
  }

  lemma RevenueOfWholeMonth(all: seq<Transaction>)
    requires forall i :: 0 <= i < |all| ==> all[i].id != ""
    ensures Summary(Visited(all)) == Summary(all)
  {
    VisitsEveryPage(all, 0);
    assert all[..|all|] == all;
  }

  /** The running figures of the loop: sum, count and currency so far. */
  datatype Tally = Tally(net: int, count: nat, currency: Option<string>)

  /** The figures after the first `n` transactions, one `for` step at a time. */
  function Prefix(all: seq<Transaction>, n: nat): (t: Tally)
    requires n <= |all|
    ensures t.currency.Some? ==> t.currency.value != ""
  {
    if n == 0 then Tally(0, 0, None)
    else
      var t := Prefix(all, n - 1);
      var x := all[n - 1];
      if !Counted(x) then t
      else Tally(t.net + x.net, t.count + 1, if t.currency.None? && x.currency != "" then Some(x.currency) else t.currency)
  }

  /** The running figures are those of the transactions read so far. */
  lemma {:induction false} PrefixFigures(all: seq<Transaction>, n: nat)
    requires n <= |all|
    ensures Prefix(all, n) == Tally(NetOf(all[..n]), CountOf(all[..n]), FirstCurrency(all[..n]))
  {
    if n > 0 {
      PrefixFigures(all, n - 1);
      assert all[..n][..n - 1] == all[..n - 1];
      assert all[..n][n - 1] == all[n - 1];
    }
  }

  /** The figures where the loop stops are those of the visited transactions. */
  lemma RevenueOfVisit(all: seq<Transaction>, t: Tally, r: Revenue)
    requires t == Prefix(all, StopFrom(all, 0)) && r == Revenue(t.net, t.count, t.currency.GetOr("usd"))
    ensures r == Summary(Visited(all))
  {
    PrefixFigures(all, StopFrom(all, 0));
  }

  /** A list call with the loop's cursor: the page that follows the last
      transaction read, since ids are distinct. */
  method ListAfter(all: seq<Transaction>, ghost pos: nat, startingAfter: Option<string>) returns (page: Page)
    requires DistinctIds(all) && pos <= |all|
    requires startingAfter == (if pos == 0 then None else Some(all[pos - 1].id))
    ensures page == PageFrom(all, pos)
  {
    if pos > 0 {
      IndexOfDistinct(all, pos - 1);
    }
    page := List(all, startingAfter).value;
  }

  /** `fetchRevenueMetrics`. */
  method FetchRevenue(all: seq<Transaction>) returns (r: Revenue)
    requires DistinctIds(all)
    ensures r == Summary(Visited(all))
  {
    var startingAfter: Option<string> := None;
    var hasMore := true;
    var totalNet := 0;
    var paymentsCount := 0;
    var currency: Option<string> := None;
    ghost var pos := 0;
    while hasMore
      invariant pos <= |all|
      invariant startingAfter == (if pos == 0 then None else Some(all[pos - 1].id))
      invariant StopFrom(all, 0) == (if hasMore then StopFrom(all, pos) else pos)
      invariant Tally(totalNet, paymentsCount, currency) == Prefix(all, pos)
      decreases |all| - pos
    {
      var page := ListAfter(all, pos, startingAfter);
      totalNet, paymentsCount, currency := TallyPage(all, pos, page.data, totalNet, paymentsCount, currency);
      var data := page.data;
      hasMore := page.hasMore;
      startingAfter := if |data| > 0 then Some(data[|data| - 1].id) else None;
      StopStep(all, pos);
      pos := pos + |data|;
      if !hasMore || startingAfter.None? || startingAfter.value == "" {
        break;
      }
    }
    r := Revenue(totalNet, paymentsCount, currency.GetOr("usd"));
    RevenueOfVisit(all, Tally(totalNet, paymentsCount, currency), r);
  }

  /** One page of the visit: the loop stops right after it, or goes on from
      the next position. */
  lemma StopStep(all: seq<Transaction>, pos: nat)
    requires pos <= |all|
    ensures var page := PageFrom(all, pos); var n := |page.data|;
      pos + n == PageEnd(all, pos)
      && StopFrom(all, pos) == (if !page.hasMore || n == 0 || page.data[n - 1].id == "" then pos + n
                                else StopFrom(all, pos + n))
  {
    var page := PageFrom(all, pos);
    var n := |page.data|;
    if n > 0 {
      assert page.data[n - 1] == all[PageEnd(all, pos) - 1];
    }
  }

  /** The `for ... of page.data` loop: the running figures, extended by the
      page's transactions. */
  method TallyPage(ghost all: seq<Transaction>, ghost pos: nat, data: seq<Transaction>,
                   net0: int, count0: nat, currency0: Option<string>)
    returns (totalNet: int, paymentsCount: nat, currency: Option<string>)
    requires pos + |data| <= |all| && data == all[pos..pos + |data|]
    requires Tally(net0, count0, currency0) == Prefix(all, pos)
    ensures Tally(totalNet, paymentsCount, currency) == Prefix(all, pos + |data|)
  {
    totalNet, paymentsCount, currency := net0, count0, currency0;
    for k := 0 to |data|
      invariant Tally(totalNet, paymentsCount, currency) == Prefix(all, pos + k)
    {
      var t := data[k];
      assert t == all[pos + k];
      if !(t.kind in ChargeTypes) {
        continue;
      }
      totalNet := totalNet + t.net;
      paymentsCount := paymentsCount + 1;
      if (currency.None? || currency.value == "") && t.currency != "" {
        currency := Some(t.currency);
      }
    }
  }

  // ----- visitors --------------------------------------------------------

  /** The visits-table count query: an error, or the exact count (which the
      client may report as `null`). */
  datatype VisitsQuery = VisitsFailed | VisitsCounted(count: Option<nat>)

  datatype Visitors = Visitors(visitorsCount: Option<nat>, conversionRate: Option<real>)

  /** `Number(x.toFixed(4))` for a non-negative `x`: the nearest multiple of
      1/10000, a tie rounding up. */
  function Round4(x: real): (r: real)
    requires x >= 0.0
    ensures r >= 0.0 && x - 1.0 / 20000.0 < r <= x + 1.0 / 20000.0
    ensures x <= 1.0 ==> r <= 1.0
  {
    var n := (x * 10000.0 + 0.5).Floor;
    assert n <= 10000 ==> n as real / 10000.0 <= 1.0;
    n as real / 10000.0
  }

  /** `fetchVisitorsMetrics(payersCount)`: a failed read is `null` for both
      figures rather than an error; a count of 0 gives no rate. */
  function VisitorsMetrics(payers: nat, q: VisitsQuery): (v: Visitors)
    ensures q.VisitsFailed? ==> v == Visitors(None, None)
    ensures q.VisitsCounted? ==> v.visitorsCount == Some(q.count.GetOr(0))
    ensures v.conversionRate.Some? <==> q.VisitsCounted? && q.count.GetOr(0) > 0
    ensures v.conversionRate.Some? ==> (var ratio := payers as real / v.visitorsCount.value as real;
      v.conversionRate.value >= 0.0 && ratio - 1.0 / 20000.0 < v.conversionRate.value <= ratio + 1.0 / 20000.0
      && (payers <= v.visitorsCount.value ==> v.conversionRate.value <= 1.0))
  {
    match q
    case VisitsFailed => Visitors(None, None)
    case VisitsCounted(count) =>
      var visitors := count.GetOr(0);
      if visitors > 0 then
        assert payers <= visitors ==> payers as real / visitors as real <= 1.0;
        Visitors(Some(visitors), Some(Round4(payers as real / visitors as real)))
      else Visitors(Some(visitors), None)
  }

  // ----- the route -------------------------------------------------------

  const Unauthorized := "Unauthorized."
  const AnalyticsFailed := "Unable to retrieve analytics."

  /** `ACTIVE_STATUSES`, the same set as the paid statuses. */
  function ActiveCount(t: Table): (n: nat)
    ensures n <= |t|
  {
    var active := set u | u in t && t[u].status.Some? && t[u].status.value in PaidStatuses;
    assert active <= t.Keys;
    SubsetCard(active, t.Keys);
    |active|
  }

  function NullOr(n: Option<real>): (j: Json)
    ensures n.None? ==> j == JNull
    ensures n.Some? ==> j == JNum(n.value)
  {
    if n.Some? then JNum(n.value) else JNull
  }

  function ReportBody(revenue: Revenue, active: nat, visitors: Visitors): (b: Json)
    ensures b.JObj? && b.fields.Keys == {"revenue", "paymentsCount", "activeSubscriptions", "visitorsCount", "conversionRate"}
    ensures b.fields["revenue"] == JObj(map["amount" := JNum(revenue.totalNet as real), "currency" := JStr(revenue.currency)])
    ensures b.fields["paymentsCount"] == JNum(revenue.paymentsCount as real)
    ensures b.fields["activeSubscriptions"] == JNum(active as real)
    ensures b.fields["visitorsCount"] == NullOr(if visitors.visitorsCount.Some? then Some(visitors.visitorsCount.value as real) else None)
    ensures b.fields["conversionRate"] == NullOr(visitors.conversionRate)
  {
    JObj(map[
      "revenue" := JObj(map["amount" := JNum(revenue.totalNet as real), "currency" := JStr(revenue.currency)]),
      "paymentsCount" := JNum(revenue.paymentsCount as real),
      "activeSubscriptions" := JNum(active as real),
      "visitorsCount" := NullOr(if visitors.visitorsCount.Some? then Some(visitors.visitorsCount.value as real) else None),
      "conversionRate" := NullOr(visitors.conversionRate)])
  }

  /** What the handler depends on besides the caller: whether Stripe fails
      (creating the client or listing a page), the month's transactions, the
      subscriptions table and its count query's error, and the visits query. */
  datatype Sources = Sources(stripeFails: bool, transactions: seq<Transaction>, subscriptions: Table,
                             activeError: Option<DbError>, visits: VisitsQuery)

  /** `GET`: an auth error or any failure of Stripe or of the active count is
      a 500; a caller who is not an admin gets 403 before anything is read; a
      failed visits read only blanks the visitor figures. */
  function Report(auth: AuthLookup, env: Env, src: Sources): (r: Response)
    ensures auth.AuthFailed? ==> r == MessageResponse(500, AnalyticsFailed)
    ensures auth.Anonymous? || (auth.SignedIn? && !IsAdminUser(Some(auth.user), env)) ==>
      r == MessageResponse(403, Unauthorized)
    ensures auth.SignedIn? && IsAdminUser(Some(auth.user), env) && (src.stripeFails || src.activeError.Some?) ==>
      r == MessageResponse(500, AnalyticsFailed)
    ensures r.status == 200 <==> auth.SignedIn? && IsAdminUser(Some(auth.user), env) && !src.stripeFails && src.activeError.None?
    ensures r.status == 200 ==> r.body == ReportBody(Summary(Visited(src.transactions)), ActiveCount(src.subscriptions),
      VisitorsMetrics(ActiveCount(src.subscriptions), src.visits))
  {
    match auth
    case AuthFailed(_, _, _) => MessageResponse(500, AnalyticsFailed)
    case Anonymous => MessageResponse(403, Unauthorized)
    case SignedIn(user) =>
      if !IsAdminUser(Some(user), env) then MessageResponse(403, Unauthorized)
      else if src.stripeFails || src.activeError.Some? then MessageResponse(500, AnalyticsFailed)
      else
        var active := ActiveCount(src.subscriptions);
        Response(200, ReportBody(Summary(Visited(src.transactions)), active, VisitorsMetrics(active, src.visits)))
  }

  /** The visits table never makes the report fail: whatever its query does,
      an admin's report succeeds exactly as it would otherwise, with both
      visitor figures `null` on a failed read. */
  lemma VisitsFailureDegrades(auth: AuthLookup, env: Env, src: Sources)
    requires Report(auth, env, src).status == 200
    ensures Report(auth, env, src.(visits := VisitsFailed)).status == 200
    ensures var b := Report(auth, env, src.(visits := VisitsFailed)).body;
      b.fields["visitorsCount"] == JNull && b.fields["conversionRate"] == JNull
  {
  }

  /** The conversion rate is the number of active subscriptions per visitor,
      to four decimals, and `null` when nobody visited. */
  lemma ConversionRateOfReport(auth: AuthLookup, env: Env, src: Sources, visitors: nat)
    requires Report(auth, env, src).status == 200 && src.visits == VisitsCounted(Some(visitors))
    ensures var rate := Report(auth, env, src).body.fields["conversionRate"];
      (visitors == 0 ==> rate == JNull)
      && (visitors > 0 ==> (rate.JNum?
        && var ratio := ActiveCount(src.subscriptions) as real / visitors as real;
           ratio - 1.0 / 20000.0 < rate.n <= ratio + 1.0 / 20000.0))
  {
  }

  method Get(auth: AuthLookup, env: Env, src: Sources) returns (response: Response)
    requires DistinctIds(src.transactions)
    ensures response == Report(auth, env, src)
  {
    if auth.AuthFailed? {
      return MessageResponse(500, AnalyticsFailed);
    }
    if auth.Anonymous? || !IsAdminUser(Some(auth.user), env) {
      return MessageResponse(403, Unauthorized);
    }
    if src.stripeFails {
      return MessageResponse(500, AnalyticsFailed);
    }
    if src.activeError.Some? {
      return MessageResponse(500, AnalyticsFailed);
    }
    var active := ActiveCount(src.subscriptions);
    var revenue := FetchRevenue(src.transactions);
    var visitors := VisitorsMetrics(active, src.visits);
    response := Response(200, ReportBody(revenue, active, visitors));
  }
}
