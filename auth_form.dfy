/**
 * The login/signup form, of which the application ships two copies that
 * differ only in their wording (English and French): the client-side
 * validation of the credentials, what is sent to the auth service, and what
 * the form does with the reply.
 */
module AuthForm {
  import opened JsStrings
  import opened JsValues
  import opened Middleware

  // ----- the email pattern /\S+@\S+\.\S+/ --------------------------------

  /** The pattern matches with its `@` at `a` and its `.` at `d`: a
      non-space before the `@`, a run of non-spaces between them, and a
      non-space after the dot. Every longer match contains such a one. */
  predicate EmailWitness(s: string, a: int, d: int) {
    0 < a && a + 1 < d && d + 1 < |s| && !IsSpace(s[a - 1]) && s[a] == '@'
    && (forall k :: a < k < d ==> !IsSpace(s[k])) && s[d] == '.' && !IsSpace(s[d + 1])
  }

  /** `emailPattern.test(s)`: the pattern is not anchored, so it may match
      anywhere in the text. */
  ghost predicate EmailPattern(s: string) {
    exists a, d :: EmailWitness(s, a, d)
  }

  /** Where the run of non-space characters from `i` ends. */
  function RunEnd(s: string, i: nat): (e: nat)
    requires i <= |s|
    ensures i <= e <= |s| && (e < |s| ==> IsSpace(s[e]))
    ensures forall k :: i <= k < e ==> !IsSpace(s[k])
    decreases |s| - i
  {
    if i == |s| || IsSpace(s[i]) then i else RunEnd(s, i + 1)
  }

  /** Whether a dot occurs in `s[lo..hi]`. */
  function DotIn(s: string, lo: nat, hi: nat): (r: bool)
    requires hi <= |s|
    ensures r <==> exists d :: lo <= d < hi && s[d] == '.'
    decreases hi - lo
  {
    if lo >= hi then false else s[lo] == '.' || DotIn(s, lo + 1, hi)
  }

  /** The pattern matches with its `@` at `a`: the non-space run after the
      `@` must hold a dot that is neither its first nor its last character. */
  function MatchesAt(s: string, a: nat): (r: bool)
    requires a < |s|
    ensures r <==> exists d :: EmailWitness(s, a, d)
  {
    if a > 0 && s[a] == '@' && !IsSpace(s[a - 1]) then
      var e := RunEnd(s, a + 1);
      var r := DotIn(s, a + 2, e - 1);
      assert r ==> exists d :: EmailWitness(s, a, d) by {
        if r {
          var d :| a + 2 <= d < e - 1 && s[d] == '.';
          assert EmailWitness(s, a, d);
        }
      }
      assert (exists d :: EmailWitness(s, a, d)) ==> r by {
        if exists d :: EmailWitness(s, a, d) {
          var d :| EmailWitness(s, a, d);
          RunCovers(s, a + 1, d + 2);
        }
      }
      r
    else false
  }

  lemma {:induction false} RunCovers(s: string, i: nat, j: nat)
    requires i <= j <= |s|
    requires forall k :: i <= k < j ==> !IsSpace(s[k])
    ensures RunEnd(s, i) >= j
    decreases |s| - i
  {
    if i < j {
      RunCovers(s, i + 1, j);
    }
  }

  /** The search for a match, trying each position of the `@` in turn. */
  function MatchFrom(s: string, a: nat): (r: bool)
    requires a <= |s|
    ensures r <==> exists a', d :: a <= a' && EmailWitness(s, a', d)
    decreases |s| - a
  {
    if a == |s| then false
    else
      var here := MatchesAt(s, a);
      var later := MatchFrom(s, a + 1);
      assert (exists a', d :: a <= a' && EmailWitness(s, a', d)) ==> here || later by {
        if exists a', d :: a <= a' && EmailWitness(s, a', d) {
          var a', d :| a <= a' && EmailWitness(s, a', d);
          if a' == a {
            assert EmailWitness(s, a, d);
          } else {
            assert a + 1 <= a';
          }
        }
      }
      here || later
  }

  /** The pattern test, computed. */
  function ValidEmail(s: string): (r: bool)
    ensures r <==> EmailPattern(s)
  {
    MatchFrom(s, 0)
  }

  /** The pattern looks for an address anywhere in the text, not for an
      address that is the whole text; it requires a dot after the `@`. */
  lemma EmailExamples()
    ensures EmailPattern("a@b.c")
    ensures EmailPattern("see a@b.c here")
    ensures EmailPattern("a@@b.c")
    ensures !EmailPattern("a@b")
    ensures !EmailPattern("@b.c")
  {
    assert EmailWitness("a@b.c", 1, 3);
    assert EmailWitness("see a@b.c here", 5, 7);
    assert EmailWitness("a@@b.c", 1, 4);
  }

  /** A text that passes the check still matches once trimmed, so the
      address that is sent is one that was checked. */
  lemma ValidatedEmailSurvivesTrim(s: string)
    requires EmailPattern(s)
    ensures EmailPattern(Trim(s))
  {
    PatternSurvivesTrimStart(s);
    PatternSurvivesTrimEnd(TrimStart(s));
  }

  /** Leading white space lies before the match, which moves left by the
      amount removed. */
  lemma PatternSurvivesTrimStart(s: string)
    requires EmailPattern(s)
    ensures EmailPattern(TrimStart(s))
  {
    var a, d :| EmailWitness(s, a, d);
    var t := TrimStart(s);
    var k := |s| - |t|;
    assert a - 1 >= k by {
      assert !IsSpace(s[a - 1]);
    }
    ShiftWitness(s, k, a, d);
  }

  /** Dropping a prefix that ends before the match moves the match left. */
  lemma ShiftWitness(s: string, k: nat, a: int, d: int)
    requires EmailWitness(s, a, d) && k < a
    ensures EmailWitness(s[k..], a - k, d - k)
  {
    var t := s[k..];
    forall m | a - k < m < d - k ensures !IsSpace(t[m]) {
      assert t[m] == s[m + k];
    }
    assert t[a - k - 1] == s[a - 1] && t[a - k] == s[a];
    assert t[d - k] == s[d] && t[d - k + 1] == s[d + 1];
  }

  /** Trailing white space lies after the match, which stays in place. */
  lemma PatternSurvivesTrimEnd(t: string)
    requires EmailPattern(t)
    ensures EmailPattern(TrimEnd(t))
  {
    var a, d :| EmailWitness(t, a, d);
    var r := TrimEnd(t);
    assert !IsSpace(t[d + 1]);
    assert d + 1 < |r|;
    forall m | a < m < d ensures !IsSpace(r[m]) {
      assert r[m] == t[m];
    }
    assert r[a - 1] == t[a - 1] && r[a] == t[a] && r[d] == t[d] && r[d + 1] == t[d + 1];
    assert EmailWitness(r, a, d);
  }

  // ----- validation ------------------------------------------------------

  /** `password.length`: JavaScript counts UTF-16 code units, two for a
      character outside the Basic Multilingual Plane. */
  function Utf16Length(s: string): (n: nat)
    ensures |s| <= n <= 2 * |s|
  {
    if s == [] then 0 else (if s[0] >= '\U{10000}' then 2 else 1) + Utf16Length(s[1..])
  }

  const MinPasswordLength := 8

  /** The wording of one copy of the form. */
  datatype Messages = Messages(invalidEmail: string, shortPassword: string, signedUp: string)

  /** `features/auth/components/AuthForm.tsx`. */
  const English := Messages("Please enter a valid email address.",
    "Password must contain at least 8 characters.",
    "Sign-up successful! Check your inbox to confirm your account.")

  /** `components/AuthForm.tsx`. */
  const French := Messages("Veuillez saisir une adresse email valide.",
    "Le mot de passe doit contenir au moins 8 caract\U{E8}res.",
    "Inscription r\U{E9}ussie ! V\U{E9}rifiez vos emails pour confirmer votre compte.")

  /** `validate`: the email is checked first, as typed; then the password's
      length. `None` when both pass. */
  function Validate(m: Messages, email: string, password: string): (r: Option<string>)
    ensures !EmailPattern(email) ==> r == Some(m.invalidEmail)
    ensures EmailPattern(email) && Utf16Length(password) < MinPasswordLength ==> r == Some(m.shortPassword)
    ensures r.None? <==> EmailPattern(email) && Utf16Length(password) >= MinPasswordLength
  {
    if !ValidEmail(email) then Some(m.invalidEmail)
    else if Utf16Length(password) < MinPasswordLength then Some(m.shortPassword)
    else None
  }

  /** Eight code units are enough: four characters outside the Basic
      Multilingual Plane make an accepted password. */
  lemma FourAstralCharactersAccepted(email: string, m: Messages)
    requires EmailPattern(email)
    ensures Validate(m, email, "\U{1F600}\U{1F600}\U{1F600}\U{1F600}").None?
    ensures Validate(m, email, "1234567") == Some(m.shortPassword)
  {
  }

  // ----- submission ------------------------------------------------------

  datatype Mode = Login | Signup

  datatype Credentials = Credentials(email: string, password: string)

  /** What the auth service answers: an error, or success with or without a
      session (sign-up without one awaits the confirmation email). */
  datatype AuthReply = Refused(message: string) | Accepted(hasSession: bool)

  /** The form after `handleSubmit`: the auth call made, if any; the error
      and success texts; where the router goes; whether the form is still
      marked as submitting. */
  datatype Submitted = Submitted(call: Option<(Mode, Credentials)>, error: Option<string>, success: Option<string>,
                                 redirect: Option<string>, submitting: bool)

  /** `redirectTo`: the page the middleware sent the user away from, else
      the dashboard. */
  function RedirectTo(query: seq<Param>): (target: string)
    ensures GetParam(query, "redirectedFrom").Some? ==> target == GetParam(query, "redirectedFrom").value
    ensures GetParam(query, "redirectedFrom").None? ==> target == "/dashboard"
  {
    GetParam(query, "redirectedFrom").GetOr("/dashboard")
  }

  /** `handleSubmit`. `reply` is what the service answers to the call. */
  function Submit(m: Messages, mode: Mode, form: Credentials, query: seq<Param>, reply: AuthReply): (s: Submitted)
    ensures Validate(m, form.email, form.password).Some? ==>
      s == Submitted(None, Validate(m, form.email, form.password), None, None, false)
    ensures Validate(m, form.email, form.password).None? ==>
      s.call == Some((mode, Credentials(Trim(form.email), form.password)))
    ensures s.call.Some? && reply.Refused? ==> s.error == Some(reply.message) && s.redirect.None? && !s.submitting
    ensures s.call.Some? && mode == Signup && reply == Accepted(false) ==>
      s.success == Some(m.signedUp) && s.redirect.None? && s.error.None? && !s.submitting
    ensures s.redirect.Some? <==> s.call.Some? && reply.Accepted? && (mode == Login || reply.hasSession)
    ensures s.redirect.Some? ==> s.redirect.value == RedirectTo(query) && s.submitting
  {
    var invalid := Validate(m, form.email, form.password);
    if invalid.Some? then Submitted(None, invalid, None, None, false)
    else
      var call := Some((mode, Credentials(Trim(form.email), form.password)));
      match reply
      case Refused(message) => Submitted(call, Some(message), None, None, false)
      case Accepted(hasSession) =>
        if mode == Login || hasSession then Submitted(call, None, None, Some(RedirectTo(query)), true)
        else Submitted(call, None, Some(m.signedUp), None, false)
  }

  /** The two copies of the form behave alike: they make the same call and
      redirect alike, and differ only in the texts they show. */
  lemma CopiesAgree(mode: Mode, form: Credentials, query: seq<Param>, reply: AuthReply)
    ensures Submit(English, mode, form, query, reply).call == Submit(French, mode, form, query, reply).call
    ensures Submit(English, mode, form, query, reply).redirect == Submit(French, mode, form, query, reply).redirect
    ensures Submit(English, mode, form, query, reply).submitting == Submit(French, mode, form, query, reply).submitting
  {
  }

  /** Signing in after the middleware bounced an anonymous visit to the
      dashboard brings the user back to the dashboard. */
  lemma LoginReturnsToDashboard(query: seq<Param>, form: Credentials, m: Messages)
    requires Validate(m, form.email, form.password).None?
    ensures var d := Route(false, Url("/dashboard", query));
      d.Redirect? && Submit(m, Login, form, d.location.query, Accepted(true)).redirect == Some("/dashboard")
  {
    DashboardRedirectRemembersOrigin(query, "redirectedFrom_");
  }
}
