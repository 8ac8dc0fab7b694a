/**
 * `lib/admin.ts`: who counts as an administrator. A user is an admin when
 * their user metadata names an admin role or carries `is_admin: true`, when
 * their app metadata lists an admin role, or when their email is on the
 * configured allowlist. Case mapping is ASCII only.
 */
module Admin {
  import opened JsStrings
  import opened JsValues
  import opened Platform

  /** `ADMIN_ROLE_KEYS`. */
  const AdminRoleKeys: set<string> := {"admin", "owner", "superuser"}

  /** A value that is a string naming an admin role, in any letter case. */
  predicate IsAdminRole(v: Json) {
    v.JStr? && ToLower(v.s) in AdminRoleKeys
  }

  /** `(blob as Record<string, unknown> | undefined)?.[key]`; a non-object blob has no keys. */
  function Field(blob: Json, key: string): (r: Option<Json>)
    ensures blob.JObj? && key in blob.fields ==> r == Some(blob.fields[key])
    ensures !(blob.JObj? && key in blob.fields) ==> r.None?
  {
    if blob.JObj? && key in blob.fields then Some(blob.fields[key]) else None
  }

  /** The pieces that remain non-empty, in order. */
  function NonEmpty(parts: seq<string>): (r: seq<string>)
    ensures forall x :: x in r <==> x in parts && x != ""
    ensures |r| <= |parts|
  {
    if |parts| == 0 then []
    else if parts[0] == "" then NonEmpty(parts[1..])
    else [parts[0]] + NonEmpty(parts[1..])
  }

  function TrimLowerAll(parts: seq<string>): (r: seq<string>)
    ensures |r| == |parts| && forall i :: 0 <= i < |parts| ==> r[i] == ToLower(Trim(parts[i]))
  {
    seq(|parts|, i requires 0 <= i < |parts| => ToLower(Trim(parts[i])))
  }

  /** The raw allowlist: `NEXT_PUBLIC_ADMIN_EMAILS`, else `ADMIN_EMAILS`, else empty. */
  function RawAdminEmails(env: Env): string {
    if "NEXT_PUBLIC_ADMIN_EMAILS" in env then env["NEXT_PUBLIC_ADMIN_EMAILS"]
    else if "ADMIN_EMAILS" in env then env["ADMIN_EMAILS"] else ""
  }

  /** `parseAdminEmails`: split on ',', trim, lower-case, drop empties. */
  function ParseAdminEmails(env: Env): (emails: seq<string>)
    ensures forall e :: e in emails ==> e != "" && IsTrimmed(e) && ToLower(e) == e
  {
    var raw := Trim(RawAdminEmails(env));
    if raw == "" then []
    else
      var cleaned := TrimLowerAll(Split(raw, ','));
      CleanedAreNormal(Split(raw, ','));
      NonEmpty(cleaned)
  }

  lemma CleanedAreNormal(pieces: seq<string>)
    ensures forall e :: e in TrimLowerAll(pieces) ==> IsTrimmed(e) && ToLower(e) == e
  {
    var cleaned := TrimLowerAll(pieces);
    forall e | e in cleaned ensures IsTrimmed(e) && ToLower(e) == e {
      var i :| 0 <= i < |cleaned| && cleaned[i] == e;
      TrimLower(pieces[i]);
      TrimIdempotent(ToLower(pieces[i]));
      LowerIdempotent(Trim(pieces[i]));
    }
  }

  lemma CleanedPieces(pieces: seq<string>, e: string)
    ensures e in NonEmpty(TrimLowerAll(pieces)) <==> e != "" && exists p :: p in pieces && e == ToLower(Trim(p))
  {
    var cleaned := TrimLowerAll(pieces);
    if e in cleaned {
      var i :| 0 <= i < |cleaned| && cleaned[i] == e;
      assert pieces[i] in pieces;
    }
    if exists p :: p in pieces && e == ToLower(Trim(p)) {
      var p :| p in pieces && e == ToLower(Trim(p));
      var i :| 0 <= i < |pieces| && pieces[i] == p;
      assert cleaned[i] == e;
    }
  }

  /** The allowlist holds exactly the non-empty trimmed, lower-cased pieces of
      the comma-separated variable. */
  lemma AdminEmailsAreCleanedPieces(env: Env, e: string)
    requires Trim(RawAdminEmails(env)) != ""
    ensures e in ParseAdminEmails(env) <==>
      e != "" && exists p :: p in Split(Trim(RawAdminEmails(env)), ',') && e == ToLower(Trim(p))
  {
    CleanedPieces(Split(Trim(RawAdminEmails(env)), ','), e);
  }

  /** `user_metadata.role` names an admin role. */
  predicate RoleGrants(user: AuthUser) {
    var role := Field(user.userMetadata, "role");
    role.Some? && IsAdminRole(role.value)
  }

  /** `user_metadata.is_admin === true`. */
  predicate FlagGrants(user: AuthUser) {
    Field(user.userMetadata, "is_admin") == Some(JBool(true))
  }

  /** `app_metadata.roles` is an admin role, or an array holding one. */
  predicate AppRolesGrant(user: AuthUser) {
    var roles := Field(user.appMetadata, "roles");
    roles.Some? &&
    (if roles.value.JArr? then exists i :: 0 <= i < |roles.value.items| && IsAdminRole(roles.value.items[i])
     else IsAdminRole(roles.value))
  }

  /** The user's email, lower-cased, is on a non-empty allowlist. */
  predicate EmailGrants(user: AuthUser, env: Env) {
    var allowed := ParseAdminEmails(env);
    |allowed| > 0 && Present(user.email) && ToLower(user.email.value) in allowed
  }

  /** `isAdminUser`: the rules in the source's order. */
  function IsAdminUser(user: Option<AuthUser>, env: Env): (admin: bool)
    ensures user.None? ==> !admin
    ensures user.Some? ==> (admin <==>
      RoleGrants(user.value) || FlagGrants(user.value) || AppRolesGrant(user.value) || EmailGrants(user.value, env))
  {
    if user.None? then false
    else
      var u := user.value;
      var role := Field(u.userMetadata, "role");
      if role.Some? && role.value.JStr? && ToLower(role.value.s) in AdminRoleKeys then true
      else if Field(u.userMetadata, "is_admin") == Some(JBool(true)) then true
      else
        var roles := Field(u.appMetadata, "roles");
        if roles.Some? && roles.value.JArr? && AnyAdminRole(roles.value.items) then true
        else if roles.Some? && !roles.value.JArr? && roles.value.JStr? && ToLower(roles.value.s) in AdminRoleKeys then true
        else
          var allowed := ParseAdminEmails(env);
          if |allowed| > 0 && Present(u.email) then ToLower(u.email.value) in allowed
          else false
  }

  /** `roles.some(role => typeof role === 'string' && ADMIN_ROLE_KEYS.has(role.toLowerCase()))`. */
  function AnyAdminRole(roles: seq<Json>): (r: bool)
    ensures r <==> exists i :: 0 <= i < |roles| && IsAdminRole(roles[i])
  {
    if |roles| == 0 then false
    else if IsAdminRole(roles[0]) then true
    else
      assert forall i :: 1 <= i < |roles| ==> roles[i] == roles[1..][i - 1];
      AnyAdminRole(roles[1..])
  }

  /** Truthy values of `is_admin` other than `true` itself grant nothing. */
  lemma OnlyLiteralTrueFlag(u: AuthUser, env: Env, flag: Json)
    requires u.userMetadata == JObj(map["is_admin" := flag]) && u.appMetadata == JNull && u.email.None?
    ensures IsAdminUser(Some(u), env) <==> flag == JBool(true)
  {
    FlagOnlyUser(u, flag);
  }

  lemma FlagOnlyUser(u: AuthUser, flag: Json)
    requires u.userMetadata == JObj(map["is_admin" := flag]) && u.appMetadata == JNull
    ensures !RoleGrants(u) && !AppRolesGrant(u)
    ensures FlagGrants(u) <==> flag == JBool(true)
  {
    assert "role" !in map["is_admin" := flag] by {
      assert "is_admin"[0] != "role"[0];
    }
  }

  lemma NoAllowlist(env: Env)
    requires Trim(RawAdminEmails(env)) == ""
    ensures ParseAdminEmails(env) == []
  {
  }

  /** Role names match in any letter case, as a metadata role or as an app role. */
  lemma RoleCaseInsensitive(id: UserId, env: Env)
    ensures IsAdminUser(Some(AuthUser(id, None, JObj(map["role" := JStr("Owner")]), JNull)), env)
    ensures IsAdminUser(Some(AuthUser(id, None, JNull, JObj(map["roles" := JArr([JNum(1.0), JStr("ADMIN")])]))), env)
  {
    assert Field(JObj(map["role" := JStr("Owner")]), "role") == Some(JStr("Owner"));
    assert ToLower("Owner") == "owner";
    var roles := [JNum(1.0), JStr("ADMIN")];
    assert Field(JNull, "role").None? && Field(JNull, "is_admin").None?;
    assert Field(JObj(map["roles" := JArr(roles)]), "roles") == Some(JArr(roles));
    assert ToLower("ADMIN") == "admin";
    assert IsAdminRole(roles[1]);
  }

  /** An email is matched case-insensitively against every trimmed piece of
      the configured allowlist. */
  lemma AllowlistMatchesAnyCase(user: AuthUser, env: Env, piece: string)
    requires Trim(RawAdminEmails(env)) != ""
    requires piece in Split(Trim(RawAdminEmails(env)), ',')
    requires Present(user.email) && ToLower(user.email.value) == ToLower(Trim(piece))
    ensures IsAdminUser(Some(user), env)
  {
    var e := ToLower(user.email.value);
    assert |e| == |user.email.value| > 0;
    AdminEmailsAreCleanedPieces(env, e);
    assert e in ParseAdminEmails(env);
    assert EmailGrants(user, env);
  }
}
