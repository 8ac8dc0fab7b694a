/**
 * `middleware.ts`: the request gate in front of the dashboard, the auth pages
 * and every API route. It decides on whether a session exists and on the
 * request's pathname; redirects keep the request URL and change its path and
 * query.
 */
module Middleware {
  import opened JsStrings
  import opened JsValues
  import opened Platform

  /** One `name=value` pair of a URL's query, in order. */
  datatype Param = Param(name: string, value: string)

  datatype Url = Url(pathname: string, query: seq<Param>)

  /** `searchParams.get(name)`: the first pair with that name. */
  function GetParam(query: seq<Param>, name: string): (r: Option<string>)
    ensures r.None? <==> forall i :: 0 <= i < |query| ==> query[i].name != name
    ensures r.Some? ==> exists i :: 0 <= i < |query| && query[i] == Param(name, r.value)
  {
    if |query| == 0 then None
    else if query[0].name == name then Some(query[0].value)
    else
      var r := GetParam(query[1..], name);
      assert forall i :: 1 <= i < |query| ==> query[i] == query[1..][i - 1];
      if r.Some? then
        assert exists i :: 0 <= i < |query| - 1 && query[1..][i] == Param(name, r.value);
        r
      else r
  }

  /** The pairs not named `name`, in order. */
  function Without(query: seq<Param>, name: string): (r: seq<Param>)
    ensures forall i :: 0 <= i < |r| ==> r[i].name != name
    ensures forall p :: p in r <==> p in query && p.name != name
  {
    if |query| == 0 then []
    else if query[0].name == name then Without(query[1..], name)
    else [query[0]] + Without(query[1..], name)
  }

  /** `searchParams.set(name, value)`: the first pair with that name takes
      the value and later ones are dropped; with none, the pair is appended. */
  function SetParam(query: seq<Param>, name: string, value: string): (r: seq<Param>)
    ensures forall p :: p in r && p.name != name <==> p in query && p.name != name
    ensures exists i :: (0 <= i < |r| && r[i] == Param(name, value)
      && forall j :: 0 <= j < |r| && j != i ==> r[j].name != name)
  {
    if |query| == 0 then
      var r := [Param(name, value)];
      assert r[0] == Param(name, value);
      r
    else if query[0].name == name then
      var rest := Without(query[1..], name);
      var r := [Param(name, value)] + rest;
      assert r[0] == Param(name, value);
      assert forall j :: 1 <= j < |r| ==> r[j] == rest[j - 1];
      r
    else
      var rest := SetParam(query[1..], name, value);
      var i :| 0 <= i < |rest| && rest[i] == Param(name, value) && forall j :: 0 <= j < |rest| && j != i ==> rest[j].name != name;
      var r := [query[0]] + rest;
      assert r[i + 1] == Param(name, value);
      assert forall j :: 0 <= j < |r| && j != i + 1 ==> r[j].name != name by {
        forall j | 0 <= j < |r| && j != i + 1 ensures r[j].name != name {
          if j > 0 {
            assert r[j] == rest[j - 1];
          }
        }
      }
      r
  }

  /** A value set on the query is the value read back. */
  lemma SetThenGet(query: seq<Param>, name: string, value: string)
    ensures GetParam(SetParam(query, name, value), name) == Some(value)
  {
    var r := SetParam(query, name, value);
    var i :| 0 <= i < |r| && r[i] == Param(name, value) && forall j :: 0 <= j < |r| && j != i ==> r[j].name != name;
    FirstNamed(r, name, i);
  }

  lemma {:induction false} FirstNamed(query: seq<Param>, name: string, i: nat)
    requires i < |query| && query[i].name == name
    requires forall j :: 0 <= j < i ==> query[j].name != name
    ensures GetParam(query, name) == Some(query[i].value)
  {
    if i > 0 {
      assert forall j :: 0 <= j < i - 1 ==> query[1..][j] == query[j + 1];
      FirstNamed(query[1..], name, i - 1);
    }
  }

  /** Setting one name leaves every other name's value as it was. */
  lemma {:induction false} SetKeepsOthers(query: seq<Param>, name: string, value: string, other: string)
    requires other != name
    ensures GetParam(SetParam(query, name, value), other) == GetParam(query, other)
  {
    if |query| > 0 {
      if query[0].name == name {
        WithoutKeepsOthers(query[1..], name, other);
      } else {
        SetKeepsOthers(query[1..], name, value, other);
      }
    }
  }

  lemma {:induction false} WithoutKeepsOthers(query: seq<Param>, name: string, other: string)
    requires other != name
    ensures GetParam(Without(query, name), other) == GetParam(query, other)
  {
    if |query| > 0 {
      WithoutKeepsOthers(query[1..], name, other);
    }
  }

  const AuthenticationRequired := "Authentication required."

  /** What the middleware does with a request. */
  datatype Decision = Next | Unauthorized(response: Response) | Redirect(location: Url)

  predicate IsAuthPage(pathname: string) {
    pathname == "/login" || pathname == "/signup"
  }

  predicate IsProtectedPage(pathname: string) {
    pathname == "/dashboard"
  }

  predicate IsProtectedApi(pathname: string) {
    StartsWith(pathname, "/api/")
  }

  /** `middleware`: no session on an API route is a 401; no session on the
      dashboard redirects to the login page, remembering where it came from;
      a session on an auth page redirects to the dashboard with the query
      cleared; everything else goes through. */
  function Decide(hasSession: bool, url: Url): (d: Decision)
    ensures d.Unauthorized? <==> !hasSession && IsProtectedApi(url.pathname)
    ensures d.Unauthorized? ==> d.response == MessageResponse(401, AuthenticationRequired)
    ensures d.Redirect? && d.location.pathname == "/login" <==> !hasSession && IsProtectedPage(url.pathname)
    ensures d.Redirect? && d.location.pathname == "/login" ==>
      d.location.query == SetParam(url.query, "redirectedFrom", url.pathname)
    ensures d == Redirect(Url("/dashboard", [])) <==> hasSession && IsAuthPage(url.pathname)
    ensures d.Next? <==> (if hasSession then !IsAuthPage(url.pathname)
                           else !IsProtectedPage(url.pathname) && !IsProtectedApi(url.pathname))
  {
    var pathname := url.pathname;
    assert IsProtectedPage(pathname) ==> !IsProtectedApi(pathname) by {
      if IsProtectedPage(pathname) {
        assert pathname[1] != "/api/"[1];
      }
    }
    if !hasSession && (IsProtectedPage(pathname) || IsProtectedApi(pathname)) then
      if IsProtectedApi(pathname) then Unauthorized(MessageResponse(401, AuthenticationRequired))
      else Redirect(url.(pathname := "/login", query := SetParam(url.query, "redirectedFrom", pathname)))
    else if hasSession && IsAuthPage(pathname) then Redirect(url.(pathname := "/dashboard", query := []))
    else Next
  }

  /** `config.matcher`: `/dashboard`, `/login`, `/signup`, and `/api` with
      any number of further segments. */
  predicate Matched(pathname: string) {
    pathname in {"/dashboard", "/login", "/signup", "/api"} || StartsWith(pathname, "/api/")
  }

  /** A request as the framework routes it: the middleware only runs on
      matched paths. */
  function Route(hasSession: bool, url: Url): (d: Decision)
    ensures !Matched(url.pathname) ==> d.Next?
    ensures Matched(url.pathname) ==> d == Decide(hasSession, url)
  {
    if Matched(url.pathname) then Decide(hasSession, url) else Next
  }

  /** Every path the middleware would refuse or redirect is matched, so the
      matcher loses none of its decisions. */
  lemma MatcherCoversDecisions(hasSession: bool, url: Url)
    ensures Route(hasSession, url) == Decide(hasSession, url)
  {
    if !Matched(url.pathname) {
      assert !IsProtectedApi(url.pathname);
      assert !IsAuthPage(url.pathname) && !IsProtectedPage(url.pathname);
    }
  }

  /** An API path is under `/api/` and is refused without a session. */
  lemma ApiNeedsSession(path: string, query: seq<Param>)
    ensures Route(false, Url("/api/" + path, query)) == Unauthorized(MessageResponse(401, AuthenticationRequired))
  {
    assert ("/api/" + path)[..5] == "/api/";
  }

  /** The Stripe webhook is under `/api/` too, so an unauthenticated webhook
      delivery is refused with 401 before it reaches the handler. */
  lemma StripeWebhookRefused(query: seq<Param>)
    ensures Route(false, Url("/api/webhooks/stripe", query)).Unauthorized?
  {
    assert "/api/webhooks/stripe"[..5] == "/api/";
  }

  /** The dashboard without a session redirects to `/login`, and the login
      page reads `/dashboard` back from `redirectedFrom`; other query
      parameters are kept. */
  lemma DashboardRedirectRemembersOrigin(query: seq<Param>, other: string)
    requires other != "redirectedFrom"
    ensures var d := Route(false, Url("/dashboard", query));
      d.Redirect? && d.location.pathname == "/login"
      && GetParam(d.location.query, "redirectedFrom") == Some("/dashboard")
      && GetParam(d.location.query, other) == GetParam(query, other)
  {
    SetThenGet(query, "redirectedFrom", "/dashboard");
    SetKeepsOthers(query, "redirectedFrom", "/dashboard", other);
  }
}
