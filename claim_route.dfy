/**
 * `POST /api/referrals/claim`: a signed-in user redeems someone else's
 * referral code once. The referrer is credited `REFERRAL_REWARD_BONUS` on the
 * legacy `referral_credits` key, the claimer is marked as referred, both get
 * a subscription row, and the claim is logged when the log accepts it.
 */
module ClaimRoute {
  import opened JsStrings
  import opened JsValues
  import opened Platform
  import opened Subscriptions
  import opened Credits
  import opened Referrals

  /** `REFERRAL_REWARD_BONUS`. */
  const RewardBonus: real := 10.0

  const CodeMissing := "Code de parrainage manquant."
  const AuthRequired := "Authentification requise."
  const AlreadyApplied := "R\U{E9}compense d\U{E9}j\U{E0} appliqu\U{E9}e."
  const CodeInvalid := "Code de parrainage invalide."
  const OwnCode := "Vous ne pouvez pas utiliser votre propre code."
  const Applied := "R\U{E9}compense appliqu\U{E9}e !"
  const ClaimFailed := "Impossible de traiter la r\U{E9}compense de parrainage."

  /** `STRIPE_REFERRAL_COUPON_ID`: the variable when it is a non-empty string, else `null`. */
  function CouponId(env: Env): (r: Json)
    ensures r.JNull? <==> EnvGet(env, "STRIPE_REFERRAL_COUPON_ID") in {None, Some("")}
    ensures r.JStr? ==> Some(r.s) == EnvGet(env, "STRIPE_REFERRAL_COUPON_ID") && r.s != ""
  {
    match EnvGet(env, "STRIPE_REFERRAL_COUPON_ID")
    case Some(v) => if v != "" then JStr(v) else JNull
    case None => JNull
  }

  /** `normaliseCode`: a missing or empty value, or one that trims to
      nothing, is no code; otherwise the trimmed, upper-cased value. */
  function NormaliseCode(value: Option<string>): (r: Option<string>)
    ensures r.None? <==> value.None? || Trim(value.value) == ""
    ensures r.Some? ==> r.value == ToUpper(Trim(value.value)) && r.value != ""
  {
    if value.None? || value.value == "" then None
    else
      var t := ToUpper(Trim(value.value));
      if |t| > 0 then Some(t) else None
  }

  /** A normalised code normalises to itself, so a code read back from
      `referred_by` names the same referrer. */
  lemma NormaliseIdempotent(value: Option<string>)
    requires NormaliseCode(value).Some?
    ensures NormaliseCode(NormaliseCode(value)).Some?
    ensures NormaliseCode(NormaliseCode(value)) == NormaliseCode(value)
  {
    var s := value.value;
    TrimUpper(s);
    TrimIdempotent(ToUpper(s));
    UpperIdempotent(Trim(s));
    assert Trim(ToUpper(Trim(s))) == ToUpper(Trim(s));
  }

  /** What `normaliseCode(payload.code)` yields: no code, a code, or the
      `TypeError` of calling `.trim()` on a truthy non-string (or of reading
      a property of a `null` payload). */
  datatype CodeRead = NoCode | CodeThrows | Code(code: string)

  function ReadCode(body: Option<Json>): (c: CodeRead)
    ensures c.CodeThrows? <==> (RequestFields(body).None?
      || (var f := RequestFields(body).value; "code" in f && Truthy(f["code"]) && !f["code"].JStr?))
    ensures c.Code? <==> (RequestFields(body).Some? && "code" in RequestFields(body).value
      && RequestFields(body).value["code"].JStr? && NormaliseCode(Some(RequestFields(body).value["code"].s)).Some?)
    ensures c.Code? ==> Some(c.code) == NormaliseCode(Some(RequestFields(body).value["code"].s))
  {
    match RequestFields(body)
    case None => CodeThrows
    case Some(fields) =>
      match Get(fields, "code")
      case None => NoCode
      case Some(v) =>
        if !Truthy(v) then NoCode
        else if !v.JStr? then CodeThrows
        else
          match NormaliseCode(Some(v.s))
          case None => NoCode
          case Some(code) => Code(code)
  }

  /** The claimer has already claimed: `referral_reward_claimed` is `true`,
      or `referred_by` is a non-empty string. */
  predicate AlreadyClaimed(m: Metadata) {
    ("referral_reward_claimed" in m && m["referral_reward_claimed"] == JBool(true))
    || ("referred_by" in m && m["referred_by"].JStr? && m["referred_by"].s != "")
  }

  /** `Number(referrerMetadata.referral_credits ?? 0) || 0`. */
  function LegacyCredits(m: Metadata): (r: real)
    ensures LegacyKey !in m || m[LegacyKey].JNull? ==> r == 0.0
    ensures LegacyKey in m && m[LegacyKey].JNum? ==> r == m[LegacyKey].n
  {
    NumberOrZero(ToNumber(Coalesce(Get(m, LegacyKey), JNum(0.0))))
  }

  /** The referrer's metadata after the reward: every key kept, the legacy
      counter raised by the bonus. */
  function Rewarded(m: Metadata): (r: Metadata)
    ensures r.Keys == m.Keys + {LegacyKey}
    ensures r[LegacyKey] == JNum(LegacyCredits(m) + RewardBonus)
    ensures forall k :: k in m && k != LegacyKey ==> r[k] == m[k]
  {
    m[LegacyKey := JNum(LegacyCredits(m) + RewardBonus)]
  }

  /** The claimer's metadata after the claim, built from the metadata read at
      the start of the request: an existing coupon id is kept, else the
      configured one (or `null`). */
  function Claimed(m: Metadata, code: string, env: Env): (r: Metadata)
    ensures r.Keys == m.Keys + {"referred_by", "referral_reward_claimed", "referral_coupon_id", "referral_coupon_redeemed"}
    ensures r["referred_by"] == JStr(code) && r["referral_reward_claimed"] == JBool(true)
    ensures r["referral_coupon_redeemed"] == JBool(false)
    ensures r["referral_coupon_id"] == Coalesce(Get(m, "referral_coupon_id"), CouponId(env))
    ensures forall k :: k in m && k !in {"referred_by", "referral_reward_claimed", "referral_coupon_id", "referral_coupon_redeemed"} ==> r[k] == m[k]
  {
    m["referred_by" := JStr(code)]["referral_reward_claimed" := JBool(true)]
      ["referral_coupon_id" := Coalesce(Get(m, "referral_coupon_id"), CouponId(env))]
      ["referral_coupon_redeemed" := JBool(false)]
  }

  /** A row of `referral_claims`. */
  datatype ClaimRecord = ClaimRecord(referrerId: UserId, referredId: UserId, code: string)

  /** Everything the route reads and writes. */
  datatype World = World(users: map<UserId, Json>, subscriptions: Table, codes: CodeTable, claims: seq<ClaimRecord>)

  /** How the services behind the route answer: the error of the code lookup,
      of each row insert, the code allocator's random ids and errors, and
      whether the claims log refuses the insert. */
  datatype Services = Services(
    lookupFault: Option<DbError>,
    claimerInsertError: Option<DbError>,
    referrerInsertError: Option<DbError>,
    uuids: seq<string>,
    codeFaults: map<nat, DbError>,
    trackingFails: bool)

  predicate WellFormed(s: Services) {
    |s.uuids| >= MaxAttempts - 1
  }

  /** The default the claimer's subscription row is ensured with. */
  const ClaimerDefaults := EmptyPatch.(status := Set(Some("free")))

  datatype Claim = Claim(response: Response, world: World)

  function RewardBody(): (b: Json)
    ensures b.JObj? && b.fields.Keys == {"message", "reward"}
    ensures b.fields["message"] == JStr(Applied) && b.fields["reward"] == JNum(RewardBonus)
  {
    JObj(map["message" := JStr(Applied), "reward" := JNum(RewardBonus)])
  }

  /** The two metadata writes: the referrer's reward on the metadata read
      after the code allocation, then the claimer's marks on the metadata
      read at the start of the request. A user the directory does not know
      is not written. */
  function RewardWrites(users: map<UserId, Json>, claimer: UserId, referrer: UserId, code: string,
                        current: Metadata, env: Env): (r: map<UserId, Json>)
    requires claimer != referrer
    ensures r.Keys == users.Keys
    ensures forall v :: v in users && v != claimer && v != referrer ==> r[v] == users[v]
    ensures referrer in users ==> r[referrer] == JObj(Rewarded(LoadedMetadata(users, referrer)))
    ensures claimer in users ==> r[claimer] == JObj(Claimed(current, code, env))
  {
    var users1 := if referrer in users then users[referrer := JObj(Rewarded(LoadedMetadata(users, referrer)))] else users;
    if claimer in users1 then users1[claimer := JObj(Claimed(current, code, env))] else users1
  }

  /** The steps after both subscription rows exist: the referrer's code is
      ensured, then the metadata writes and the log insert. */
  function Allocated(w: World, claimer: UserId, referrer: UserId, code: string, current: Metadata,
                     env: Env, s: Services): (c: Claim)
    requires WellFormed(s) && claimer != referrer
    ensures c.response.status in {200, 500}
    ensures c.world.users.Keys == w.users.Keys && c.world.subscriptions == w.subscriptions
    ensures forall v :: v in w.users && v != claimer && v != referrer ==> c.world.users[v] == w.users[v]
    ensures |c.world.claims| <= |w.claims| + 1
  {
    var a := Allocate(w.codes, w.users, referrer, s.uuids, s.codeFaults);
    if a.result.Err? then Claim(MessageResponse(500, ClaimFailed), w.(codes := a.codes))
    else
      var claims := if s.trackingFails then w.claims else w.claims + [ClaimRecord(referrer, claimer, code)];
      Claim(Response(200, RewardBody()), World(RewardWrites(a.users, claimer, referrer, code, current, env), w.subscriptions, a.codes, claims))
  }

  /** The two `ensureSubscriptionRow` calls: the claimer's row with status
      `free` (which downgrades an existing paid row), then the referrer's
      row with no defaults. The first failure is raised; the claimer's row
      stays written when the referrer's insert fails. */
  function EnsureBoth(t: Table, claimer: UserId, referrer: UserId, s: Services): (e: Ensured)
    requires claimer != referrer
    ensures e.result.Ok? ==> claimer in e.table && e.table[claimer].status == Some("free") && referrer in e.table
    ensures claimer !in t && s.claimerInsertError.Some? ==> e == Ensured(Err(s.claimerInsertError.value), t)
    ensures t.Keys <= e.table.Keys <= t.Keys + {claimer, referrer}
    ensures forall v :: v in t && v != claimer && v != referrer ==> e.table[v] == t[v]
  {
    var e1 := EnsureRow(t, claimer, ClaimerDefaults, s.claimerInsertError);
    if e1.result.Err? then e1
    else
      assert e1.table[claimer].status == Some("free") by {
        if claimer in t {
          assert e1.table[claimer] == Overlay(t[claimer], ClaimerDefaults);
        }
      }
      EnsureRow(e1.table, referrer, EmptyPatch, s.referrerInsertError)
  }

  /** The writes of a claim that passed every check, in the source's order;
      a step that throws ends the request with 500 and keeps the writes
      already made. */
  function Rewards(w: World, claimer: UserId, referrer: UserId, code: string, current: Metadata,
                   env: Env, s: Services): (c: Claim)
    requires WellFormed(s) && claimer != referrer
    ensures c.response.status in {200, 500}
    ensures c.world.users.Keys == w.users.Keys
    ensures forall v :: v in w.users && v != claimer && v != referrer ==> c.world.users[v] == w.users[v]
    ensures |c.world.claims| <= |w.claims| + 1
  {
    var e := EnsureBoth(w.subscriptions, claimer, referrer, s);
    if e.result.Err? then Claim(MessageResponse(500, ClaimFailed), w.(subscriptions := e.table))
    else Allocated(w.(subscriptions := e.table), claimer, referrer, code, current, env, s)
  }

  /** The route's whole decision. The code is read before the session, the
      "already claimed" check before the code lookup, and the self-referral
      check before any write. */
  function ClaimReward(w: World, body: Option<Json>, auth: AuthLookup, env: Env, s: Services): (c: Claim)
    requires WellFormed(s)
    ensures ReadCode(body).NoCode? ==> c == Claim(MessageResponse(400, CodeMissing), w)
    ensures ReadCode(body).CodeThrows? ==> c == Claim(MessageResponse(500, ClaimFailed), w)
    ensures ReadCode(body).Code? && auth.AuthFailed? ==> c == Claim(MessageResponse(500, ClaimFailed), w)
    ensures ReadCode(body).Code? && auth.Anonymous? ==> c == Claim(MessageResponse(401, AuthRequired), w)
    ensures c.response.status in {200, 400, 401, 404, 500}
    ensures c.world.users.Keys == w.users.Keys
  {
    match ReadCode(body)
    case NoCode => Claim(MessageResponse(400, CodeMissing), w)
    case CodeThrows => Claim(MessageResponse(500, ClaimFailed), w)
    case Code(code) =>
      match auth
      case AuthFailed(_, _, _) => Claim(MessageResponse(500, ClaimFailed), w)
      case Anonymous => Claim(MessageResponse(401, AuthRequired), w)
      case SignedIn(user) => ClaimAs(w, user, code, env, s)
  }

  /** The decision once the code and the session are known: the claimer's
      metadata is read (a failed lookup reads as `{}`), then the code is
      looked up. */
  function ClaimAs(w: World, user: AuthUser, code: string, env: Env, s: Services): (c: Claim)
    requires WellFormed(s)
    ensures AlreadyClaimed(LoadedMetadata(w.users, user.id)) ==> c == Claim(MessageResponse(200, AlreadyApplied), w)
    ensures c.world != w ==> (var r := FindReferrerByCode(w.codes, code, s.lookupFault);
      !AlreadyClaimed(LoadedMetadata(w.users, user.id)) && r.Ok? && r.value.Some? && r.value.value != "" && r.value.value != user.id)
    ensures c.response.status in {200, 400, 404, 500}
    ensures c.world.users.Keys == w.users.Keys
  {
    var current := LoadedMetadata(w.users, user.id);
    if AlreadyClaimed(current) then Claim(MessageResponse(200, AlreadyApplied), w)
    else
      match FindReferrerByCode(w.codes, code, s.lookupFault)
      case Err(_) => Claim(MessageResponse(500, ClaimFailed), w)
      case Ok(found) =>
        if found.None? || found.value == "" then Claim(MessageResponse(404, CodeInvalid), w)
        else if found.value == user.id then Claim(MessageResponse(400, OwnCode), w)
        else Rewards(w, user.id, found.value, code, current, env, s)
  }

  /** A request whose code is missing or blank is refused before the session
      is looked at. */
  lemma MissingCodeBeforeAuth(w: World, fields: Metadata, auth: AuthLookup, env: Env, s: Services)
    requires WellFormed(s)
    requires "code" !in fields || fields["code"] in {JNull, JBool(false), JNum(0.0), JStr("")}
    ensures ClaimReward(w, Some(JObj(fields)), auth, env, s) == Claim(MessageResponse(400, CodeMissing), w)
  {
  }

  /** A claimer who has already claimed gets the 200 "already applied"
      answer and nothing is written. */
  lemma AlreadyClaimedChangesNothing(w: World, body: Option<Json>, user: AuthUser, env: Env, s: Services)
    requires WellFormed(s)
    requires ReadCode(body).Code? && AlreadyClaimed(LoadedMetadata(w.users, user.id))
    ensures ClaimReward(w, body, SignedIn(user), env, s) == Claim(MessageResponse(200, AlreadyApplied), w)
  {
  }

  /** A code nobody owns is refused with 404 and nothing is written. */
  lemma UnknownCodeRefused(w: World, user: AuthUser, code: string, env: Env, s: Services)
    requires WellFormed(s)
    requires !AlreadyClaimed(LoadedMetadata(w.users, user.id)) && s.lookupFault.None? && code !in w.codes
    ensures ClaimAs(w, user, code, env, s) == Claim(MessageResponse(404, CodeInvalid), w)
  {
  }

  /** One's own code is refused with 400 and nothing is written. */
  lemma OwnCodeRefused(w: World, user: AuthUser, code: string, env: Env, s: Services)
    requires WellFormed(s)
    requires !AlreadyClaimed(LoadedMetadata(w.users, user.id)) && s.lookupFault.None?
    requires code in w.codes && w.codes[code] == user.id && user.id != ""
    ensures ClaimAs(w, user, code, env, s) == Claim(MessageResponse(400, OwnCode), w)
  {
  }

  /** Every write happens after all the checks: a changed world means a
      signed-in claimer who had not claimed, a known code, and a referrer
      other than the claimer. */
  lemma WritesNeedValidClaim(w: World, body: Option<Json>, auth: AuthLookup, env: Env, s: Services)
    requires WellFormed(s)
    requires ClaimReward(w, body, auth, env, s).world != w
    ensures ReadCode(body).Code? && auth.SignedIn? && !AlreadyClaimed(LoadedMetadata(w.users, auth.user.id))
    ensures var r := FindReferrerByCode(w.codes, ReadCode(body).code, s.lookupFault);
      r.Ok? && r.value.Some? && r.value.value != "" && r.value.value != auth.user.id
  {
  }

  /** A claim answered with the reward went through every check: a code,
      a session, a claimer who had not claimed, and a known code owned by
      someone else; what happens next is `Rewards`. */
  lemma RewardedClaimPassedChecks(w: World, body: Option<Json>, user: AuthUser, env: Env, s: Services)
    requires WellFormed(s)
    requires ClaimReward(w, body, SignedIn(user), env, s).response == Response(200, RewardBody())
    ensures ReadCode(body).Code? && !AlreadyClaimed(LoadedMetadata(w.users, user.id))
    ensures var r := FindReferrerByCode(w.codes, ReadCode(body).code, s.lookupFault);
      r.Ok? && r.value.Some? && r.value.value != "" && r.value.value != user.id
      && ClaimReward(w, body, SignedIn(user), env, s)
         == Rewards(w, user.id, r.value.value, ReadCode(body).code, LoadedMetadata(w.users, user.id), env, s)
  {
    assert AlreadyApplied != Applied by {
      assert |AlreadyApplied| != |Applied|;
    }
    assert MessageBody(AlreadyApplied) != RewardBody() by {
      assert MessageBody(AlreadyApplied).fields["message"] == JStr(AlreadyApplied);
    }
  }

  /** A successful claim's writes are those of `Allocated`, on the table
      both rows were ensured in. */
  lemma RewardsAllocated(w: World, claimer: UserId, referrer: UserId, code: string, current: Metadata, env: Env, s: Services)
    requires WellFormed(s) && claimer != referrer
    requires Rewards(w, claimer, referrer, code, current, env, s).response.status == 200
    ensures Rewards(w, claimer, referrer, code, current, env, s)
      == Allocated(w.(subscriptions := EnsureBoth(w.subscriptions, claimer, referrer, s).table), claimer, referrer, code, current, env, s)
  {
  }

  /** After a successful claim the claimer's metadata holds the referral
      marks on top of `current`, the metadata read at the start. */
  lemma AllocatedClaimer(w: World, claimer: UserId, referrer: UserId, code: string, current: Metadata, env: Env, s: Services)
    requires WellFormed(s) && claimer != referrer && claimer in w.users
    requires Allocated(w, claimer, referrer, code, current, env, s).response.status == 200
    ensures Allocated(w, claimer, referrer, code, current, env, s).world.users[claimer] == JObj(Claimed(current, code, env))
  {
  }

  /** After a successful claim the referrer's legacy counter, as read back,
      is the value read before the claim plus the bonus. */
  lemma AllocatedReferrer(w: World, claimer: UserId, referrer: UserId, code: string, current: Metadata, env: Env, s: Services)
    requires WellFormed(s) && claimer != referrer && referrer in w.users
    requires Allocated(w, claimer, referrer, code, current, env, s).response.status == 200
    ensures var users := Allocated(w, claimer, referrer, code, current, env, s).world.users;
      LoadedMetadata(users, referrer)[LegacyKey] == JNum(LegacyCredits(LoadedMetadata(w.users, referrer)) + RewardBonus)
  {
    var a := Allocate(w.codes, w.users, referrer, s.uuids, s.codeFaults);
    var users := RewardWrites(a.users, claimer, referrer, code, current, env);
    assert users[referrer] == JObj(Rewarded(LoadedMetadata(a.users, referrer)));
    RewardReadsBack(w.users, a, referrer);
  }

  /** The claim is logged exactly when the log accepts the insert, and the
      answer does not depend on it. */
  lemma RewardsLogged(w: World, claimer: UserId, referrer: UserId, code: string, current: Metadata, env: Env, s: Services)
    requires WellFormed(s) && claimer != referrer
    requires Rewards(w, claimer, referrer, code, current, env, s).response.status == 200
    ensures var c := Rewards(w, claimer, referrer, code, current, env, s);
      c.response == Response(200, RewardBody())
      && c.world.claims == (if s.trackingFails then w.claims else w.claims + [ClaimRecord(referrer, claimer, code)])
    ensures Rewards(w, claimer, referrer, code, current, env, s.(trackingFails := !s.trackingFails)).response
      == Rewards(w, claimer, referrer, code, current, env, s).response
  {
  }

  /** The referrer's metadata after the reward, as read back: the allocator
      changes at most `referral_code`, so the legacy counter starts from the
      value read before the claim. */
  lemma RewardReadsBack(users: map<UserId, Json>, a: Allocation, referrer: UserId)
    requires referrer in users && a.users.Keys == users.Keys
    requires a.users == users || a.users == MetadataFallback(users, referrer).users
    ensures LegacyCredits(LoadedMetadata(a.users, referrer)) == LegacyCredits(LoadedMetadata(users, referrer))
    ensures LoadedMetadata(a.users[referrer := JObj(Rewarded(LoadedMetadata(a.users, referrer)))], referrer)[LegacyKey]
      == JNum(LegacyCredits(LoadedMetadata(users, referrer)) + RewardBonus)
  {
    var m := LoadedMetadata(users, referrer);
    if a.users != users {
      var f := MetadataFallback(users, referrer);
      assert LoadedMetadata(a.users, referrer) == m["referral_code" := JStr(f.code)];
      assert Get(m["referral_code" := JStr(f.code)], LegacyKey) == Get(m, LegacyKey);
    }
  }

  /** The reward is credited to the legacy key, which the ledger ignores once
      `credit_balance` exists: such a referrer's balance does not move. */
  lemma RewardNotCountedOnceLedgerExists(m: Metadata)
    requires BalanceKey in m
    ensures CurrentBalance(Rewarded(m)) == CurrentBalance(m)
  {
    LegacyIgnoredOnceStored(m, JNum(LegacyCredits(m) + RewardBonus));
  }

  /** Without a ledger balance, the next read migrates the legacy counter, so
      the reward does reach the balance. */
  lemma RewardCountedBeforeLedger(m: Metadata)
    requires BalanceKey !in m && LegacyCredits(m) >= 0.0
    ensures CurrentBalance(Rewarded(m)) == LegacyCredits(m) + RewardBonus
  {
  }

  /** The claims log, `referral_claims`. */
  class ClaimLog {
    var rows: seq<ClaimRecord>

    constructor(initial: seq<ClaimRecord>)
      ensures rows == initial
    {
      rows := initial;
    }

    /** The insert; a refused insert is reported and the route goes on. */
    method Insert(record: ClaimRecord, fails: bool) returns (ok: bool)
      modifies this
      ensures ok == !fails
      ensures rows == if fails then old(rows) else old(rows) + [record]
    {
      if fails {
        return false;
      }
      rows := rows + [record];
      ok := true;
    }
  }

  /** The writes of a checked claim over the live tables. */
  method ApplyRewards(dir: UserDirectory, store: SubscriptionStore, table: ReferralCodeTable, log: ClaimLog,
                      claimer: UserId, referrer: UserId, code: string, current: Metadata, env: Env, s: Services)
    returns (response: Response)
    requires WellFormed(s) && claimer != referrer
    modifies dir, store, table, log
    ensures Claim(response, World(dir.metadata, store.rows, table.codes, log.rows))
      == Rewards(World(old(dir.metadata), old(store.rows), old(table.codes), old(log.rows)), claimer, referrer, code, current, env, s)
  {
    var r1 := store.Ensure(claimer, ClaimerDefaults, s.claimerInsertError);
    if r1.Err? {
      return MessageResponse(500, ClaimFailed);
    }
    var r2 := store.Ensure(referrer, EmptyPatch, s.referrerInsertError);
    if r2.Err? {
      return MessageResponse(500, ClaimFailed);
    }
    response := AllocateAndWrite(dir, store, table, log, claimer, referrer, code, current, env, s);
  }

  /** The code allocation and the writes after it. */
  method AllocateAndWrite(dir: UserDirectory, store: SubscriptionStore, table: ReferralCodeTable, log: ClaimLog,
                          claimer: UserId, referrer: UserId, code: string, current: Metadata, env: Env, s: Services)
    returns (response: Response)
    requires WellFormed(s) && claimer != referrer
    modifies dir, table, log
    ensures Claim(response, World(dir.metadata, store.rows, table.codes, log.rows))
      == Allocated(World(old(dir.metadata), store.rows, old(table.codes), old(log.rows)), claimer, referrer, code, current, env, s)
  {
    var ensured := EnsureReferralCodeForUser(table, dir, referrer, s.uuids, s.codeFaults);
    if ensured.Err? {
      return MessageResponse(500, ClaimFailed);
    }
    WriteRewards(dir, claimer, referrer, code, current, env);
    var _ := log.Insert(ClaimRecord(referrer, claimer, code), s.trackingFails);
    response := Response(200, RewardBody());
  }

  /** The two `updateUserById` calls; their errors are not checked. */
  method WriteRewards(dir: UserDirectory, claimer: UserId, referrer: UserId, code: string, current: Metadata, env: Env)
    requires claimer != referrer
    modifies dir
    ensures dir.metadata == RewardWrites(old(dir.metadata), claimer, referrer, code, current, env)
  {
    var referrerLoaded := dir.Load(referrer);
    var referrerMeta := if referrerLoaded.Some? then referrerLoaded.value else map[];
    var _ := dir.Store(referrer, Rewarded(referrerMeta));
    var _ := dir.Store(claimer, Claimed(current, code, env));
  }

  /** The handler over the live tables. */
  method Post(dir: UserDirectory, store: SubscriptionStore, table: ReferralCodeTable, log: ClaimLog,
              body: Option<Json>, auth: AuthLookup, env: Env, s: Services) returns (response: Response)
    requires WellFormed(s)
    modifies dir, store, table, log
    ensures Claim(response, World(dir.metadata, store.rows, table.codes, log.rows))
      == ClaimReward(World(old(dir.metadata), old(store.rows), old(table.codes), old(log.rows)), body, auth, env, s)
  {
    var read := ReadCode(body);
    if read.NoCode? {
      return MessageResponse(400, CodeMissing);
    }
    if read.CodeThrows? || auth.AuthFailed? {
      return MessageResponse(500, ClaimFailed);
    }
    if auth.Anonymous? {
      return MessageResponse(401, AuthRequired);
    }
    var code := read.code;
    var user := auth.user;
    var loaded := dir.Load(user.id);
    var current := if loaded.Some? then loaded.value else map[];
    if AlreadyClaimed(current) {
      return MessageResponse(200, AlreadyApplied);
    }
    var found := FindReferrerByCode(table.codes, code, s.lookupFault);
    if found.Err? {
      return MessageResponse(500, ClaimFailed);
    }
    if found.value.None? || found.value.value == "" {
      return MessageResponse(404, CodeInvalid);
    }
    var referrer := found.value.value;
    if referrer == user.id {
      return MessageResponse(400, OwnCode);
    }
    response := ApplyRewards(dir, store, table, log, user.id, referrer, code, current, env, s);
  }
}
