/**
 * The two pure helpers of `lib/utils.ts`: `cn`, which merges class names, and
 * `resolveSiteUrl`, which picks the site's base URL.
 */
module Utils {
  import opened JsStrings
  import opened JsValues
  import opened Platform

  // ----- cn --------------------------------------------------------------

  /** One argument of `cn`: a string, `undefined`, `null` or `false`. */
  datatype ClassValue = Name(name: string) | Undefined | Null | False

  /** `Boolean(v)`: only a non-empty string is truthy. */
  predicate Kept(v: ClassValue) {
    v.Name? && v.name != ""
  }

  /** `inputs.filter(Boolean)`, as the strings that remain. */
  function KeptNames(inputs: seq<ClassValue>): (names: seq<string>)
    ensures |names| <= |inputs|
    ensures forall n :: n in names ==> n != ""
    ensures names == [] <==> forall i :: 0 <= i < |inputs| ==> !Kept(inputs[i])
  {
    if inputs == [] then []
    else
      var rest := KeptNames(inputs[1..]);
      assert forall i :: 1 <= i < |inputs| ==> inputs[i] == inputs[1..][i - 1];
      if Kept(inputs[0]) then [inputs[0].name] + rest else rest
  }

  /** The filter keeps the order of the arguments: it works piecewise. */
  lemma {:induction false} KeptNamesAppend(a: seq<ClassValue>, b: seq<ClassValue>)
    ensures KeptNames(a + b) == KeptNames(a) + KeptNames(b)
    decreases |a|
  {
    if a != [] {
      assert (a + b)[0] == a[0] && (a + b)[1..] == a[1..] + b;
      KeptNamesAppend(a[1..], b);
      if Kept(a[0]) {
        assert [a[0].name] + (KeptNames(a[1..]) + KeptNames(b)) == ([a[0].name] + KeptNames(a[1..])) + KeptNames(b);
      }
    } else {
      assert a + b == b;
    }
  }

  /** `cn(...inputs)`: the truthy names, joined by single spaces. */
  function Cn(inputs: seq<ClassValue>): (classes: string)
    ensures classes == "" <==> forall i :: 0 <= i < |inputs| ==> !Kept(inputs[i])
  {
    var names := KeptNames(inputs);
    assert names != [] ==> Join(names, ' ') != "" by {
      if names != [] {
        assert names[0] in names;
        JoinStartsWithFirst(names);
      }
    }
    Join(names, ' ')
  }

  lemma JoinStartsWithFirst(parts: seq<string>)
    requires parts != []
    ensures |Join(parts, ' ')| >= |parts[0]|
  {
  }

  /** No arguments, or only falsy ones, give the empty string. */
  lemma CnOfNothing()
    ensures Cn([]) == ""
    ensures Cn([Undefined, Null, False, Name("")]) == ""
  {
  }

  /** A falsy argument anywhere leaves the result as if it were absent. */
  lemma CnDropsFalsy(a: seq<ClassValue>, v: ClassValue, b: seq<ClassValue>)
    requires !Kept(v)
    ensures Cn(a + [v] + b) == Cn(a + b)
  {
    KeptNamesAppend(a + [v], b);
    KeptNamesAppend(a, [v]);
    KeptNamesAppend(a, b);
    assert [v][1..] == [];
    assert KeptNames([v]) == [];
    assert KeptNames(a) + [] == KeptNames(a);
  }

  /** When no name holds a space, splitting the result on spaces gives back
      the truthy names, in the order they were passed. */
  lemma CnSplits(inputs: seq<ClassValue>)
    requires exists i :: 0 <= i < |inputs| && Kept(inputs[i])
    requires forall i :: 0 <= i < |inputs| && inputs[i].Name? ==> ' ' !in inputs[i].name
    ensures Split(Cn(inputs), ' ') == KeptNames(inputs)
  {
    NamesHaveNoSpace(inputs);
    SplitJoin(KeptNames(inputs), ' ');
  }

  lemma {:induction false} NamesHaveNoSpace(inputs: seq<ClassValue>)
    requires forall i :: 0 <= i < |inputs| && inputs[i].Name? ==> ' ' !in inputs[i].name
    ensures forall n :: n in KeptNames(inputs) ==> ' ' !in n
  {
    if inputs != [] {
      assert forall i :: 1 <= i < |inputs| ==> inputs[i] == inputs[1..][i - 1];
      NamesHaveNoSpace(inputs[1..]);
    }
  }

  // ----- resolveSiteUrl --------------------------------------------------

  const LocalSiteUrl := "http://localhost:3000"

  /** `envUrl`: `NEXT_PUBLIC_APP_URL` if it is set (even to the empty
      string), else `NEXT_PUBLIC_SITE_URL`, else the Vercel deployment host
      over HTTPS when `VERCEL_URL` is set to something non-empty. */
  function EnvUrl(env: Env): (url: Option<string>)
    ensures "NEXT_PUBLIC_APP_URL" in env ==> url == Some(env["NEXT_PUBLIC_APP_URL"])
    ensures "NEXT_PUBLIC_APP_URL" !in env && "NEXT_PUBLIC_SITE_URL" in env ==> url == Some(env["NEXT_PUBLIC_SITE_URL"])
    ensures "NEXT_PUBLIC_APP_URL" !in env && "NEXT_PUBLIC_SITE_URL" !in env ==>
      (url.Some? <==> "VERCEL_URL" in env && env["VERCEL_URL"] != "")
    ensures "NEXT_PUBLIC_APP_URL" !in env && "NEXT_PUBLIC_SITE_URL" !in env && url.Some? ==>
      url.value == "https://" + env["VERCEL_URL"]
  {
    var app := EnvGet(env, "NEXT_PUBLIC_APP_URL");
    var site := EnvGet(env, "NEXT_PUBLIC_SITE_URL");
    var vercel := EnvGet(env, "VERCEL_URL");
    if app.Some? then app
    else if site.Some? then site
    else if vercel.Some? && vercel.value != "" then Some("https://" + vercel.value)
    else None
  }

  /** `resolveSiteUrl({ origin, fallback })`. `None` stands for an absent
      option and, for `origin`, also for `null`: each `??` skips exactly
      those, never an empty string. */
  function ResolveSiteUrl(env: Env, origin: Option<string>, fallback: Option<string>): (url: string)
    ensures origin.Some? ==> url == origin.value
    ensures origin.None? && EnvUrl(env).Some? ==> url == EnvUrl(env).value
    ensures origin.None? && EnvUrl(env).None? && fallback.Some? ==> url == fallback.value
    ensures origin.None? && EnvUrl(env).None? && fallback.None? ==> url == LocalSiteUrl
  {
    match origin
    case Some(o) => o
    case None =>
      match EnvUrl(env)
      case Some(e) => e
      case None => fallback.GetOr(LocalSiteUrl)
  }

  /** The result is empty only when one of the values consulted was itself
      set to the empty string; the local default is never skipped for a
      value that is not there. */
  lemma EmptyOnlyWhenGivenEmpty(env: Env, origin: Option<string>, fallback: Option<string>)
    ensures ResolveSiteUrl(env, origin, fallback) == "" ==>
      origin == Some("") || EnvGet(env, "NEXT_PUBLIC_APP_URL") == Some("")
      || EnvGet(env, "NEXT_PUBLIC_SITE_URL") == Some("") || fallback == Some("")
  {
  }

  /** An empty origin wins over every configured URL. */
  lemma EmptyOriginWins(env: Env, fallback: Option<string>)
    ensures ResolveSiteUrl(env, Some(""), fallback) == ""
  {
  }

  /** An empty `VERCEL_URL` is skipped, unlike the other two variables. */
  lemma EmptyVercelSkipped(fallback: Option<string>)
    ensures ResolveSiteUrl(map["VERCEL_URL" := ""], None, fallback) == fallback.GetOr(LocalSiteUrl)
    ensures ResolveSiteUrl(map["NEXT_PUBLIC_SITE_URL" := ""], None, fallback) == ""
  {
  }
}
