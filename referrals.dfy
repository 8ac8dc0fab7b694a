/**
 * `services/referrals.ts`: every user gets one referral code. Codes live in
 * the `referral_codes` table (code to owner, unique on the code); when that
 * table is missing, the code is kept in the user's metadata instead.
 */
module Referrals {
  import opened JsStrings
  import opened JsValues
  import opened Platform

  /** `referral_codes`: each code and the user who owns it. */
  type CodeTable = map<string, UserId>

  /** The number of insert attempts before falling back to metadata. */
  const MaxAttempts: nat := 5

  const DuplicateKey := DbError(Some("23505"), "duplicate key value violates unique constraint")
  const MultipleRows := DbError(Some("PGRST116"), "JSON object requested, multiple (or no) rows returned")

  /** The first six characters of the identifier without its dashes, upper-cased. */
  function CodeBase(userId: UserId): (r: string)
    ensures |r| <= 6 && ToUpper(r) == r && '-' !in r
  {
    UpperIdempotent(Take(RemoveChar(userId, '-'), 6));
    CaseKeepsDash(Take(RemoveChar(userId, '-'), 6));
    ToUpper(Take(RemoveChar(userId, '-'), 6))
  }

  lemma CaseKeepsDash(s: string)
    requires '-' !in s
    ensures '-' !in ToUpper(s)
  {
    forall i | 0 <= i < |s| ensures ToUpper(s)[i] != '-' {
      assert s[i] != '-';
    }
  }

  /** `toCodeCandidate(userId, attempt)`; `uuid` stands for the `randomUUID()`
      drawn on a retry. */
  function ToCodeCandidate(userId: UserId, attempt: nat, uuid: string): (r: string)
    ensures attempt == 0 ==> r == CodeBase(userId)
    ensures StartsWith(r, CodeBase(userId))
    ensures |r| <= |CodeBase(userId)| + 4 <= 10
    ensures attempt > 0 && |RemoveChar(uuid, '-')| >= 4 ==> |r| == |CodeBase(userId)| + 4
    ensures ToUpper(r) == r
  {
    if attempt == 0 then CodeBase(userId)
    else
      var base := CodeBase(userId);
      var random := Take(RemoveChar(uuid, '-'), 4);
      UpperIdempotent(random);
      UpperConcat(base, ToUpper(random));
      assert (base + ToUpper(random))[..|base|] == base;
      base + ToUpper(random)
  }

  /** `isTableMissingError`: undefined table (`42P01`) or unknown relation (`PGRST302`). */
  function IsTableMissingError(e: DbError): (r: bool)
    ensures r <==> e.code == Some("42P01") || e.code == Some("PGRST302")
  {
    e.code.Some? && e.code.value in {"42P01", "PGRST302"}
  }

  /** The codes owned by a user. */
  function CodesOf(codes: CodeTable, userId: UserId): (s: set<string>)
    ensures forall c :: c in s <==> c in codes && codes[c] == userId
  {
    set c | c in codes && codes[c] == userId
  }

  /** `select('code').eq('user_id', userId).maybeSingle()`; `fault` is an
      error the database reports instead of answering. */
  function LookupCode(codes: CodeTable, userId: UserId, fault: Option<DbError>): (r: Result<Option<string>, DbError>)
    ensures fault.Some? ==> r == Err(fault.value)
    ensures fault.None? && r.Ok? && r.value.Some? ==> CodesOf(codes, userId) == {r.value.value}
    ensures fault.None? && r == Ok(None) <==> fault.None? && CodesOf(codes, userId) == {}
    ensures fault.None? && r.Err? ==> r.error == MultipleRows && |CodesOf(codes, userId)| > 1
  {
    if fault.Some? then Err(fault.value)
    else
      var owned := CodesOf(codes, userId);
      if |owned| == 0 then Ok(None)
      else if |owned| == 1 then
        OneElement(owned);
        var c :| owned == {c};
        Ok(Some(c))
      else Err(MultipleRows)
  }

  lemma OneElement(s: set<string>)
    requires |s| == 1
    ensures exists x :: s == {x}
  {
    var x :| x in s;
    assert |s - {x}| == 0;
    assert s == {x};
  }

  /** `insert({ user_id, code })`: refused when the code is taken. */
  function InsertCode(codes: CodeTable, userId: UserId, code: string, fault: Option<DbError>): (r: Result<CodeTable, DbError>)
    ensures fault.Some? ==> r == Err(fault.value)
    ensures fault.None? ==> (r.Err? <==> code in codes)
    ensures fault.None? && r.Err? ==> r.error == DuplicateKey
    ensures r.Ok? ==> r.value == codes[code := userId]
  {
    if fault.Some? then Err(fault.value)
    else if code in codes then Err(DuplicateKey)
    else Ok(codes[code := userId])
  }

  /** The failure injected into query `k` (0 is the lookup, `a + 1` the insert of attempt `a`). */
  function FaultAt(faults: map<nat, DbError>, k: nat): Option<DbError> {
    if k in faults then Some(faults[k]) else None
  }

  /** The code kept in metadata: a non-empty `referral_code` string. */
  function StoredCode(m: Metadata): (r: Option<string>)
    ensures r.Some? <==> "referral_code" in m && m["referral_code"].JStr? && m["referral_code"].s != ""
    ensures r.Some? ==> r.value == m["referral_code"].s
  {
    if "referral_code" in m && m["referral_code"].JStr? && |m["referral_code"].s| > 0 then Some(m["referral_code"].s)
    else None
  }

  /** What `ensureReferralCodeViaMetadata` reads: a failed lookup is ignored and read as `{}`. */
  function LoadedMetadata(users: map<UserId, Json>, userId: UserId): Metadata {
    if userId in users then NormaliseMetadata(users[userId]) else map[]
  }

  datatype Fallback = Fallback(code: string, users: map<UserId, Json>)

  /** `ensureReferralCodeViaMetadata`: an existing code is returned as it is;
      otherwise the attempt-0 candidate is stored beside the other keys (the
      write's outcome is not checked). */
  function MetadataFallback(users: map<UserId, Json>, userId: UserId): (f: Fallback)
    ensures StoredCode(LoadedMetadata(users, userId)).Some? ==>
      f == Fallback(StoredCode(LoadedMetadata(users, userId)).value, users)
    ensures StoredCode(LoadedMetadata(users, userId)).None? ==> f.code == CodeBase(userId)
    ensures f.users.Keys == users.Keys && forall v :: v in users && v != userId ==> f.users[v] == users[v]
    ensures userId in users && f.users != users ==>
      f.users[userId] == JObj(LoadedMetadata(users, userId)["referral_code" := JStr(f.code)])
  {
    var m := LoadedMetadata(users, userId);
    match StoredCode(m)
    case Some(c) => Fallback(c, users)
    case None =>
      var code := ToCodeCandidate(userId, 0, "");
      if userId in users then Fallback(code, users[userId := JObj(m["referral_code" := JStr(code)])])
      else Fallback(code, users)
  }

  /** Running the fallback again returns the same code and writes nothing,
      when the user exists and the code is not empty. */
  lemma MetadataFallbackIdempotent(users: map<UserId, Json>, userId: UserId)
    requires userId in users
    requires MetadataFallback(users, userId).code != ""
    ensures var f := MetadataFallback(users, userId);
      MetadataFallback(f.users, userId) == Fallback(f.code, f.users)
  {
    var f := MetadataFallback(users, userId);
    var m := LoadedMetadata(users, userId);
    if StoredCode(m).None? {
      assert f.users[userId] == JObj(m["referral_code" := JStr(f.code)]);
      assert LoadedMetadata(f.users, userId) == m["referral_code" := JStr(f.code)];
    }
  }

  /** The outcome of allocating a code: the code or the error thrown, and
      both tables afterwards. */
  datatype Allocation = Allocation(result: Result<string, DbError>, codes: CodeTable, users: map<UserId, Json>)

  /** How the tables may change: codes are only added, each one of the
      candidates `tried` and owned by the user, and only the user's metadata
      changes. */
  predicate Grows(a: Allocation, codes: CodeTable, users: map<UserId, Json>, userId: UserId, tried: seq<string>) {
    codes.Keys <= a.codes.Keys
    && (forall c :: c in codes ==> a.codes[c] == codes[c])
    && (forall c :: c in a.codes && c !in codes ==> a.codes[c] == userId && c in tried)
    && a.users.Keys == users.Keys
    && (forall v :: v in users && v != userId ==> a.users[v] == users[v])
  }

  /** So the table gains at most one code per candidate tried. */
  lemma GrowsBound(a: Allocation, codes: CodeTable, users: map<UserId, Json>, userId: UserId, tried: seq<string>)
    requires Grows(a, codes, users, userId, tried)
    ensures |a.codes| <= |codes| + |tried|
  {
    var t := set c | c in tried;
    assert a.codes.Keys <= codes.Keys + t;
    SetOfSeqBound(tried);
    SubsetCard(a.codes.Keys, codes.Keys + t);
  }

  lemma {:induction false} SetOfSeqBound(s: seq<string>)
    ensures |set c | c in s| <= |s|
  {
    if s != [] {
      SetOfSeqBound(s[1..]);
      assert (set c | c in s) <= (set c | c in s[1..]) + {s[0]};
      SubsetCard(set c | c in s, (set c | c in s[1..]) + {s[0]});
    }
  }

  function FallbackAllocation(codes: CodeTable, users: map<UserId, Json>, userId: UserId): (a: Allocation)
    ensures a.result == Ok(MetadataFallback(users, userId).code) && a.codes == codes
    ensures Grows(a, codes, users, userId, [])
  {
    var f := MetadataFallback(users, userId);
    Allocation(Ok(f.code), codes, f.users)
  }

  /** The candidate tried at `attempt`: retries draw from `uuids`. */
  function Candidate(userId: UserId, uuids: seq<string>, attempt: nat): string
    requires |uuids| >= MaxAttempts - 1 && attempt < MaxAttempts
  {
    ToCodeCandidate(userId, attempt, if attempt == 0 then "" else uuids[attempt - 1])
  }

  /** The five candidates, in the order the loop tries them. */
  function Candidates(userId: UserId, uuids: seq<string>): (c: seq<string>)
    requires |uuids| >= MaxAttempts - 1
    ensures |c| == MaxAttempts && forall a :: 0 <= a < MaxAttempts ==> c[a] == Candidate(userId, uuids, a)
  {
    seq(MaxAttempts, a requires 0 <= a < MaxAttempts => Candidate(userId, uuids, a))
  }

  /** One pass of the insert loop: the allocation it returns with, or the
      table it retries with after a duplicate key or an empty code. */
  datatype Step = Done(a: Allocation) | Retry(codes: CodeTable)

  function AttemptStep(codes: CodeTable, users: map<UserId, Json>, userId: UserId, code: string,
                       fault: Option<DbError>): (s: Step)
    ensures s.Retry? ==> s.codes == codes || (code == "" && code !in codes && s.codes == codes[code := userId])
    ensures s.Done? ==> Grows(s.a, codes, users, userId, [code])
    ensures s.Done? && s.a.result.Err? ==> (s.a.users == users && !IsTableMissingError(s.a.result.error)
      && s.a.result.error.code != Some("23505") && fault == Some(s.a.result.error))
    ensures s.Done? && s.a.result.Ok? ==> ((s.a.result.value in s.a.codes && s.a.codes[s.a.result.value] == userId && s.a.users == users)
      || (s.a.result == Ok(MetadataFallback(users, userId).code) && s.a.users == MetadataFallback(users, userId).users))
  {
    match InsertCode(codes, userId, code, fault)
    case Ok(next) =>
      if code != "" then
        Done(Allocation(Ok(code), next, users))
      else Retry(next)
    case Err(e) =>
      if e.code == Some("23505") then Retry(codes)
      else if IsTableMissingError(e) then Done(FallbackAllocation(codes, users, userId))
      else Done(Allocation(Err(e), codes, users))
  }

  /** The insert loop from `attempt` onwards, over the candidates it tries. */
  function Attempts(codes: CodeTable, users: map<UserId, Json>, userId: UserId, candidates: seq<string>,
                    faults: map<nat, DbError>, attempt: nat): Allocation
    requires |candidates| == MaxAttempts
    requires attempt <= MaxAttempts
    decreases MaxAttempts - attempt
  {
    if attempt == MaxAttempts then FallbackAllocation(codes, users, userId)
    else
      match AttemptStep(codes, users, userId, candidates[attempt], FaultAt(faults, attempt + 1))
      case Done(a) => a
      case Retry(next) => Attempts(next, users, userId, candidates, faults, attempt + 1)
  }

  /** A grown table stays grown when more candidates count as tried. */
  lemma GrowsWeakenBy(a: Allocation, codes: CodeTable, users: map<UserId, Json>, userId: UserId,
                      tried: seq<string>, more: seq<string>)
    requires Grows(a, codes, users, userId, tried) && forall c :: c in tried ==> c in more
    ensures Grows(a, codes, users, userId, more)
  {
  }

  /** A retry continues the loop from the next attempt. */
  lemma AttemptsRetry(codes: CodeTable, next: CodeTable, users: map<UserId, Json>, userId: UserId, candidates: seq<string>,
                      faults: map<nat, DbError>, attempt: nat)
    requires |candidates| == MaxAttempts && attempt < MaxAttempts
    requires AttemptStep(codes, users, userId, candidates[attempt], FaultAt(faults, attempt + 1)) == Retry(next)
    ensures Attempts(codes, users, userId, candidates, faults, attempt) == Attempts(next, users, userId, candidates, faults, attempt + 1)
  {
  }

  lemma GrowsThroughRetry(a: Allocation, codes: CodeTable, next: CodeTable, users: map<UserId, Json>, userId: UserId,
                          code: string, rest: seq<string>)
    requires next == codes || (code !in codes && next == codes[code := userId])
    requires Grows(a, next, users, userId, rest)
    ensures Grows(a, codes, users, userId, [code] + rest)
  {
  }

  /** The loop inserts only candidates from `attempt` on, each owned by the
      user, and touches no other user's metadata. */
  lemma {:induction false} AttemptsGrow(codes: CodeTable, users: map<UserId, Json>, userId: UserId, candidates: seq<string>,
                                        faults: map<nat, DbError>, attempt: nat)
    requires |candidates| == MaxAttempts
    requires attempt <= MaxAttempts
    ensures Grows(Attempts(codes, users, userId, candidates, faults, attempt), codes, users, userId, candidates[attempt..])
    decreases MaxAttempts - attempt
  {
    var a := Attempts(codes, users, userId, candidates, faults, attempt);
    if attempt < MaxAttempts {
      var code := candidates[attempt];
      assert candidates[attempt..] == [code] + candidates[attempt + 1..];
      match AttemptStep(codes, users, userId, code, FaultAt(faults, attempt + 1))
      case Done(d) =>
        assert a == d;
        GrowsWeakenBy(a, codes, users, userId, [code], candidates[attempt..]);
      case Retry(next) =>
        assert a == Attempts(next, users, userId, candidates, faults, attempt + 1);
        AttemptsGrow(next, users, userId, candidates, faults, attempt + 1);
        GrowsThroughRetry(a, codes, next, users, userId, code, candidates[attempt + 1..]);
    }
  }

  /** The loop fails only with an injected error that is neither a duplicate
      key nor a missing table, and succeeds with a code the user owns in the
      table or with the fallback's code. */
  lemma {:induction false} AttemptsOutcome(codes: CodeTable, users: map<UserId, Json>, userId: UserId, candidates: seq<string>,
                                           faults: map<nat, DbError>, attempt: nat)
    requires |candidates| == MaxAttempts
    requires attempt <= MaxAttempts
    ensures var a := Attempts(codes, users, userId, candidates, faults, attempt);
      (a.result.Err? ==> (a.users == users && !IsTableMissingError(a.result.error)
        && a.result.error.code != Some("23505")
        && exists k :: attempt < k <= MaxAttempts && FaultAt(faults, k) == Some(a.result.error)))
      && (a.result.Ok? ==> ((a.result.value in a.codes && a.codes[a.result.value] == userId && a.users == users)
        || (a.result == Ok(MetadataFallback(users, userId).code) && a.users == MetadataFallback(users, userId).users)))
    decreases MaxAttempts - attempt
  {
    if attempt < MaxAttempts {
      match AttemptStep(codes, users, userId, candidates[attempt], FaultAt(faults, attempt + 1))
      case Done(d) =>
        if d.result.Err? {
          assert FaultAt(faults, attempt + 1) == Some(d.result.error);
        }
      case Retry(next) =>
        AttemptsOutcome(next, users, userId, candidates, faults, attempt + 1);
    }
  }

  /** The step an insert's outcome stands for. */
  lemma StepOfInsert(codes: CodeTable, users: map<UserId, Json>, userId: UserId, code: string, fault: Option<DbError>,
                     error: Option<DbError>, after: CodeTable)
    requires var r := InsertCode(codes, userId, code, fault);
      (error.None? <==> r.Ok?) && (r.Ok? ==> after == r.value) && (r.Err? ==> after == codes && error == Some(r.error))
    ensures var s := AttemptStep(codes, users, userId, code, fault);
      (error.None? && code != "" ==> s == Done(Allocation(Ok(code), after, users)))
      && (error.None? && code == "" ==> s == Retry(after))
      && (error.Some? && error.value.code == Some("23505") ==> s == Retry(after))
      && (error.Some? && error.value.code != Some("23505") && IsTableMissingError(error.value) ==>
            s == Done(FallbackAllocation(after, users, userId)))
      && (error.Some? && error.value.code != Some("23505") && !IsTableMissingError(error.value) ==>
            s == Done(Allocation(Err(error.value), after, users)))
  {
  }

  /** `ensureReferralCodeForUser`. The final `catch` cannot fire here: the
      metadata fallback ignores the errors it meets. */
  function Allocate(codes: CodeTable, users: map<UserId, Json>, userId: UserId, uuids: seq<string>,
                    faults: map<nat, DbError>): (a: Allocation)
    requires |uuids| >= MaxAttempts - 1
    ensures Grows(a, codes, users, userId, Candidates(userId, uuids))
    ensures a.result.Err? ==> a.users == users && !IsTableMissingError(a.result.error)
    ensures a.result.Ok? ==> ((a.result.value in a.codes && a.codes[a.result.value] == userId && a.users == users)
      || (a.result == Ok(MetadataFallback(users, userId).code) && a.users == MetadataFallback(users, userId).users))
  {
    AttemptsGrow(codes, users, userId, Candidates(userId, uuids), faults, 0);
    assert Candidates(userId, uuids)[0..] == Candidates(userId, uuids);
    AttemptsOutcome(codes, users, userId, Candidates(userId, uuids), faults, 0);
    match LookupCode(codes, userId, FaultAt(faults, 0))
    case Err(e) =>
      if IsTableMissingError(e) then FallbackAllocation(codes, users, userId)
      else Allocation(Err(e), codes, users)
    case Ok(existing) =>
      if existing.Some? && existing.value != "" then Allocation(Ok(existing.value), codes, users)
      else Attempts(codes, users, userId, Candidates(userId, uuids), faults, 0)
  }

  /** One call adds at most five codes to the table. */
  lemma AllocateAddsAtMostFive(codes: CodeTable, users: map<UserId, Json>, userId: UserId, uuids: seq<string>,
                               faults: map<nat, DbError>)
    requires |uuids| >= MaxAttempts - 1
    ensures |Allocate(codes, users, userId, uuids, faults).codes| <= |codes| + MaxAttempts
  {
    GrowsBound(Allocate(codes, users, userId, uuids, faults), codes, users, userId, Candidates(userId, uuids));
  }

  /** A user who already owns a (non-empty) code gets it back and nothing is written. */
  lemma ExistingCodeReturned(codes: CodeTable, users: map<UserId, Json>, userId: UserId, uuids: seq<string>,
                             faults: map<nat, DbError>, code: string)
    requires |uuids| >= MaxAttempts - 1
    requires 0 !in faults && code != "" && code in codes && codes[code] == userId
    requires forall c :: c in codes && codes[c] == userId ==> c == code
    ensures Allocate(codes, users, userId, uuids, faults) == Allocation(Ok(code), codes, users)
  {
    assert CodesOf(codes, userId) == {code};
  }

  /** When every candidate is taken, the five inserts all collide and the code
      comes from the metadata fallback. */
  lemma {:induction false} CollisionsFallBack(codes: CodeTable, users: map<UserId, Json>, userId: UserId,
                                              candidates: seq<string>, attempt: nat)
    requires |candidates| == MaxAttempts && attempt <= MaxAttempts
    requires forall a :: attempt <= a < MaxAttempts ==> candidates[a] in codes
    ensures Attempts(codes, users, userId, candidates, map[], attempt) == FallbackAllocation(codes, users, userId)
    decreases MaxAttempts - attempt
  {
    if attempt < MaxAttempts {
      CollisionsFallBack(codes, users, userId, candidates, attempt + 1);
    }
  }

  /** A missing table at the lookup goes straight to the metadata fallback. */
  lemma MissingTableUsesMetadata(codes: CodeTable, users: map<UserId, Json>, userId: UserId, uuids: seq<string>,
                                 faults: map<nat, DbError>)
    requires |uuids| >= MaxAttempts - 1
    requires 0 in faults && IsTableMissingError(faults[0])
    ensures Allocate(codes, users, userId, uuids, faults) == FallbackAllocation(codes, users, userId)
  {
  }

  /** `findReferrerByCode`: the owner of the code, `None` when there is none
      or when the table is missing; other errors are thrown. */
  function FindReferrerByCode(codes: CodeTable, code: string, fault: Option<DbError>): (r: Result<Option<UserId>, DbError>)
    ensures fault.Some? && IsTableMissingError(fault.value) ==> r == Ok(None)
    ensures fault.Some? && !IsTableMissingError(fault.value) ==> r == Err(fault.value)
    ensures fault.None? ==> r == Ok(if code in codes then Some(codes[code]) else None)
  {
    if fault.Some? then
      if IsTableMissingError(fault.value) then Ok(None) else Err(fault.value)
    else if code in codes then Ok(Some(codes[code]))
    else Ok(None)
  }

  /** The `referral_codes` table. */
  class ReferralCodeTable {
    var codes: CodeTable

    constructor(initial: CodeTable)
      ensures codes == initial
    {
      codes := initial;
    }

    method Insert(userId: UserId, code: string, fault: Option<DbError>) returns (error: Option<DbError>)
      modifies this
      ensures var r := InsertCode(old(codes), userId, code, fault);
        (error.None? <==> r.Ok?) && (r.Ok? ==> codes == r.value) && (r.Err? ==> codes == old(codes) && error == Some(r.error))
    {
      if fault.Some? {
        return fault;
      }
      if code in codes {
        return Some(DuplicateKey);
      }
      codes := codes[code := userId];
      error := None;
    }
  }

  /** `ensureReferralCodeViaMetadata`. */
  method EnsureReferralCodeViaMetadata(dir: UserDirectory, userId: UserId) returns (code: string)
    modifies dir
    ensures Fallback(code, dir.metadata) == MetadataFallback(old(dir.metadata), userId)
  {
    var loaded := dir.Load(userId);
    var m := if loaded.Some? then loaded.value else map[];
    var stored := StoredCode(m);
    if stored.Some? {
      return stored.value;
    }
    code := ToCodeCandidate(userId, 0, "");
    var _ := dir.Store(userId, m["referral_code" := JStr(code)]);
  }

  /** `ensureReferralCodeForUser`. */
  method EnsureReferralCodeForUser(table: ReferralCodeTable, dir: UserDirectory, userId: UserId, uuids: seq<string>,
                                   faults: map<nat, DbError>) returns (r: Result<string, DbError>)
    requires |uuids| >= MaxAttempts - 1
    modifies table, dir
    ensures Allocation(r, table.codes, dir.metadata) == Allocate(old(table.codes), old(dir.metadata), userId, uuids, faults)
  {
    var existing := LookupCode(table.codes, userId, FaultAt(faults, 0));
    if existing.Err? {
      if IsTableMissingError(existing.error) {
        var code := EnsureReferralCodeViaMetadata(dir, userId);
        return Ok(code);
      }
      return Err(existing.error);
    }
    if existing.value.Some? && existing.value.value != "" {
      return Ok(existing.value.value);
    }
    r := InsertAttempts(table, dir, userId, uuids, faults);
  }

  /** One pass of the insert loop: insert the candidate, then return with
      the outcome (`done`) or go on to the next attempt. */
  method TryCandidate(table: ReferralCodeTable, dir: UserDirectory, userId: UserId, code: string,
                      fault: Option<DbError>) returns (done: bool, r: Result<string, DbError>)
    modifies table, dir
    ensures var s := AttemptStep(old(table.codes), old(dir.metadata), userId, code, fault);
      if done then s == Done(Allocation(r, table.codes, dir.metadata))
      else s == Retry(table.codes) && dir.metadata == old(dir.metadata)
  {
    ghost var before := table.codes;
    var error := table.Insert(userId, code, fault);
    StepOfInsert(before, dir.metadata, userId, code, fault, error, table.codes);
    done, r := true, Ok(code);
    if error.None? && code != "" {
      return;
    }
    if error.Some? && error.value.code != Some("23505") {
      if IsTableMissingError(error.value) {
        var fallback := EnsureReferralCodeViaMetadata(dir, userId);
        r := Ok(fallback);
      } else {
        r := Err(error.value);
      }
      return;
    }
    done := false;
  }

  /** The insert loop of `ensureReferralCodeForUser`, with the metadata
      fallback once every attempt has collided. */
  method InsertAttempts(table: ReferralCodeTable, dir: UserDirectory, userId: UserId, uuids: seq<string>,
                        faults: map<nat, DbError>) returns (r: Result<string, DbError>)
    requires |uuids| >= MaxAttempts - 1
    modifies table, dir
    ensures Allocation(r, table.codes, dir.metadata)
      == Attempts(old(table.codes), old(dir.metadata), userId, Candidates(userId, uuids), faults, 0)
  {
    ghost var candidates := Candidates(userId, uuids);
    ghost var goal := Attempts(table.codes, dir.metadata, userId, candidates, faults, 0);
    var attempt: nat := 0;
    while attempt < MaxAttempts
      invariant attempt <= MaxAttempts
      invariant Attempts(table.codes, dir.metadata, userId, candidates, faults, attempt) == goal
      invariant dir.metadata == old(dir.metadata)
    {
      ghost var before := table.codes;
      var done, res := TryCandidate(table, dir, userId, Candidate(userId, uuids, attempt), FaultAt(faults, attempt + 1));
      if done {
        return res;
      }
      AttemptsRetry(before, table.codes, dir.metadata, userId, candidates, faults, attempt);
      attempt := attempt + 1;
    }
    var code := EnsureReferralCodeViaMetadata(dir, userId);
    r := Ok(code);
  }
}
