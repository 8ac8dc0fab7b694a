/**
 * `services/credits.ts`: the credit ledger. A user's balance lives in the
 * `credit_balance` key of their auth-service user metadata, as a non-negative
 * whole number. A balance granted before the ledger existed sits in the legacy
 * `referral_credits` key and is folded into `credit_balance` the first time
 * the balance is read while `credit_balance` is still missing.
 */
module Credits {
  import opened JsValues
  import opened Platform

  const BalanceKey := "credit_balance"
  const LegacyKey := "referral_credits"

  /** Why a ledger call throws. */
  datatype CreditError = InvalidAmount | UserLookupFailed

  function Max0(n: int): (r: int)
    ensures r >= 0 && r >= n && (n >= 0 ==> r == n)
  {
    if n > 0 then n else 0
  }

  predicate Integral(x: real) {
    x.Floor as real == x
  }

  /** `Number.isFinite(amount) && amount > 0`. */
  predicate ValidAmount(amount: JsNumber) {
    amount.Finite? && amount.value > 0.0
  }

  /** `resolveBalance`: `Number(credit_balance ?? 0)`, with `NaN` and negative values read as 0. */
  function ResolveBalance(m: Metadata): (r: real)
    ensures r >= 0.0
    ensures BalanceKey !in m || m[BalanceKey].JNull? ==> r == 0.0
    ensures BalanceKey in m && m[BalanceKey].JNum? && m[BalanceKey].n >= 0.0 ==> r == m[BalanceKey].n
    ensures BalanceKey in m && m[BalanceKey].JNum? && m[BalanceKey].n < 0.0 ==> r == 0.0
  {
    var n := ToNumber(Coalesce(Get(m, BalanceKey), JNum(0.0)));
    if n.NaN? || (n.Finite? && n.value < 0.0) then 0.0
    else NumberOrZero(n)
  }

  /** The metadata `persistBalance` writes: `credit_balance` becomes
      `max(0, floor(next))`, a present `referral_credits` becomes 0, and every
      other key is kept. */
  function PersistedMetadata(m: Metadata, next: real): (r: Metadata)
    ensures r.Keys == m.Keys + {BalanceKey}
    ensures r[BalanceKey] == JNum(Max0(Floor(next)) as real)
    ensures LegacyKey in m ==> r[LegacyKey] == JNum(0.0)
    ensures forall k :: k in m && k != BalanceKey && k != LegacyKey ==> r[k] == m[k]
  {
    var updated := m[BalanceKey := JNum(Max0(Floor(next)) as real)];
    if LegacyKey in m then updated[LegacyKey := JNum(0.0)] else updated
  }

  /** A stored balance reads back as itself. */
  lemma PersistedReadsBack(m: Metadata, next: real)
    ensures ResolveBalance(PersistedMetadata(m, next)) == Max0(Floor(next)) as real
  {
  }

  /** What reading the balance yields: the balance and, when the read migrated
      the legacy credits, the metadata it wrote. */
  datatype Read = Read(balance: real, write: Option<Metadata>)

  /** `Number(referral_credits ?? 0)`. */
  function LegacyAmount(m: Metadata): JsNumber {
    ToNumber(Coalesce(Get(m, LegacyKey), JNum(0.0)))
  }

  /** The migration guard of `getCreditBalance`, `addCredits` and `consumeCredits`. */
  predicate NeedsMigration(m: Metadata) {
    BalanceKey !in m && TruthyKey(m, LegacyKey)
  }

  /** `migrateReferralCredits`: a positive legacy amount is added to the
      balance and persisted; otherwise the balance is resolved as it is. The
      returned sum is not rounded, though the stored balance is. */
  function Migrate(m: Metadata): (r: Read)
    ensures r.balance >= 0.0
    ensures r.write.Some? <==> LegacyAmount(m).Finite? && LegacyAmount(m).value > 0.0
    ensures r.write.Some? ==> (r.balance == ResolveBalance(m) + LegacyAmount(m).value
      && r.write.value == PersistedMetadata(m, r.balance))
    ensures r.write.None? ==> r.balance == ResolveBalance(m)
  {
    var legacy := LegacyAmount(m);
    if !(legacy.Finite? && legacy.value > 0.0) then Read(ResolveBalance(m), None)
    else
      var next := ResolveBalance(m) + legacy.value;
      Read(next, Some(PersistedMetadata(m, next)))
  }

  /** The balance a read reports for loaded metadata, and its write if any. */
  function ReadBalance(m: Metadata): (r: Read)
    ensures r.balance >= 0.0
    ensures r.write.Some? <==> NeedsMigration(m) && LegacyAmount(m).Finite? && LegacyAmount(m).value > 0.0
    ensures !NeedsMigration(m) ==> r == Read(ResolveBalance(m), None)
    ensures r.write.Some? ==> (r.balance == LegacyAmount(m).value
      && r.write.value == PersistedMetadata(m, r.balance))
  {
    if NeedsMigration(m) then Migrate(m) else Read(ResolveBalance(m), None)
  }

  function CurrentBalance(m: Metadata): (r: real)
    ensures r >= 0.0
  {
    ReadBalance(m).balance
  }

  /** The directory after a read's write, if any. */
  function AfterRead(users: map<UserId, Json>, id: UserId, r: Read): map<UserId, Json> {
    if r.write.Some? then users[id := JObj(r.write.value)] else users
  }

  /** The result of a ledger call and the directory it leaves. */
  datatype Outcome<T> = Outcome(result: Result<T, CreditError>, users: map<UserId, Json>)

  /** `getCreditBalance(userId)`. */
  function BalanceOutcome(users: map<UserId, Json>, id: UserId): (o: Outcome<real>)
    ensures o.result.Err? <==> id !in users
    ensures o.result.Err? ==> o.users == users
    ensures o.users.Keys == users.Keys && forall v :: v in users && v != id ==> o.users[v] == users[v]
    ensures o.result.Ok? ==> o.result.value >= 0.0
  {
    if id !in users then Outcome(Err(UserLookupFailed), users)
    else
      var m := NormaliseMetadata(users[id]);
      var r := ReadBalance(m);
      Outcome(Ok(r.balance), AfterRead(users, id, r))
  }

  /** `addCredits(userId, amount)`. The migration's own write is overwritten
      by the final one, so only that one shows. */
  function AddOutcome(users: map<UserId, Json>, id: UserId, amount: JsNumber): (o: Outcome<real>)
    ensures !ValidAmount(amount) ==> o == Outcome(Err(InvalidAmount), users)
    ensures ValidAmount(amount) && id !in users ==> o == Outcome(Err(UserLookupFailed), users)
    ensures o.users.Keys == users.Keys && forall v :: v in users && v != id ==> o.users[v] == users[v]
    ensures ValidAmount(amount) && id in users ==> (var m := NormaliseMetadata(users[id]);
      o.result == Ok(CurrentBalance(m) + Floor(amount.value) as real)
      && o.users[id] == JObj(PersistedMetadata(m, o.result.value)))
  {
    if !ValidAmount(amount) then Outcome(Err(InvalidAmount), users)
    else if id !in users then Outcome(Err(UserLookupFailed), users)
    else
      var m := NormaliseMetadata(users[id]);
      var next := CurrentBalance(m) + Floor(amount.value) as real;
      Outcome(Ok(next), users[id := JObj(PersistedMetadata(m, next))])
  }

  /** `consumeCredits(userId, amount)`. A refused debit still keeps the
      migration's write. */
  function ConsumeOutcome(users: map<UserId, Json>, id: UserId, amount: JsNumber): (o: Outcome<bool>)
    ensures !ValidAmount(amount) ==> o == Outcome(Ok(false), users)
    ensures ValidAmount(amount) && id !in users ==> o == Outcome(Err(UserLookupFailed), users)
    ensures o.users.Keys == users.Keys && forall v :: v in users && v != id ==> o.users[v] == users[v]
    ensures o.result == Ok(true) <==>
      ValidAmount(amount) && id in users && CurrentBalance(NormaliseMetadata(users[id])) >= amount.value
  {
    if !ValidAmount(amount) then Outcome(Ok(false), users)
    else if id !in users then Outcome(Err(UserLookupFailed), users)
    else
      var m := NormaliseMetadata(users[id]);
      var r := ReadBalance(m);
      if r.balance < amount.value then Outcome(Ok(false), AfterRead(users, id, r))
      else Outcome(Ok(true), users[id := JObj(PersistedMetadata(m, r.balance - Floor(amount.value) as real))])
  }

  /** Once a balance is stored, the legacy key is ignored by every read. */
  lemma LegacyIgnoredOnceStored(m: Metadata, legacy: Json)
    requires BalanceKey in m
    ensures ReadBalance(m) == Read(ResolveBalance(m), None)
    ensures ReadBalance(m[LegacyKey := legacy]) == ReadBalance(m)
  {
    var m' := m[LegacyKey := legacy];
    assert BalanceKey in m';
    assert BalanceKey != LegacyKey by { assert BalanceKey[0] != LegacyKey[0]; }
    assert Get(m', BalanceKey) == Get(m, BalanceKey);
  }

  /** Migration happens once: the metadata it writes reads back the floor of
      the migrated balance (the sum itself when the legacy amount is whole)
      and writes nothing more. */
  lemma MigrationIdempotent(m: Metadata)
    requires ReadBalance(m).write.Some?
    ensures var r := ReadBalance(m); var again := ReadBalance(r.write.value);
      again.write.None? && again.balance == r.balance.Floor as real
      && (Integral(r.balance) ==> again.balance == r.balance)
  {
    var r := ReadBalance(m);
    var w := r.write.value;
    assert BalanceKey in w;
    PersistedReadsBack(m, r.balance);
  }

  /** A fractional legacy amount is reported unrounded by the migrating
      read and rounded down by every later read. */
  lemma FractionalLegacyReadTwice()
    ensures var m := map[LegacyKey := JNum(2.5)];
      ReadBalance(m).balance == 2.5
      && ReadBalance(ReadBalance(m).write.value).balance == 2.0
  {
    var m := map[LegacyKey := JNum(2.5)];
    assert BalanceKey !in m by { assert BalanceKey[0] != LegacyKey[0]; }
    assert LegacyAmount(m) == Finite(2.5);
    MigrationIdempotent(m);
  }

  /** After a successful `addCredits` the balance reads back as the returned
      sum (rounded down), and the read writes nothing. */
  lemma AddThenRead(users: map<UserId, Json>, id: UserId, amount: JsNumber)
    requires AddOutcome(users, id, amount).result.Ok?
    ensures var a := AddOutcome(users, id, amount);
      a.result.value >= 0.0
      && BalanceOutcome(a.users, id) == Outcome(Ok(a.result.value.Floor as real), a.users)
      && (Integral(CurrentBalance(NormaliseMetadata(users[id]))) ==> a.result.value.Floor as real == a.result.value)
  {
    var a := AddOutcome(users, id, amount);
    var m := NormaliseMetadata(users[id]);
    var next := CurrentBalance(m) + Floor(amount.value) as real;
    assert Floor(amount.value) >= 0;
    var w := PersistedMetadata(m, next);
    assert a.users[id] == JObj(w);
    assert NormaliseMetadata(a.users[id]) == w;
    assert BalanceKey in w;
    PersistedReadsBack(m, next);
    if Integral(CurrentBalance(m)) {
      assert next == (CurrentBalance(m).Floor + Floor(amount.value)) as real;
    }
  }

  /** A refused debit leaves the balance as the caller read it (rounded down
      when a fractional legacy amount was migrated on the way). */
  lemma RefusedConsumeKeepsBalance(users: map<UserId, Json>, id: UserId, amount: JsNumber)
    requires id in users
    requires ConsumeOutcome(users, id, amount) == Outcome(Ok(false), ConsumeOutcome(users, id, amount).users)
    ensures var c := ConsumeOutcome(users, id, amount); var before := CurrentBalance(NormaliseMetadata(users[id]));
      BalanceOutcome(c.users, id).result == Ok(if ValidAmount(amount) then before.Floor as real else before)
      || (ReadBalance(NormaliseMetadata(users[id])).write.None? && BalanceOutcome(c.users, id).result == Ok(before))
  {
    var m := NormaliseMetadata(users[id]);
    var r := ReadBalance(m);
    var c := ConsumeOutcome(users, id, amount);
    if ValidAmount(amount) && r.write.Some? {
      assert c.users == users[id := JObj(r.write.value)];
      assert NormaliseMetadata(c.users[id]) == r.write.value;
      MigrationIdempotent(m);
    }
  }

  /** An accepted debit stores the balance less the whole part of the amount. */
  lemma AcceptedConsumeDebits(users: map<UserId, Json>, id: UserId, amount: JsNumber)
    requires ConsumeOutcome(users, id, amount).result == Ok(true)
    ensures id in users && ValidAmount(amount)
    ensures var before := CurrentBalance(NormaliseMetadata(users[id]));
      before >= amount.value
      && BalanceOutcome(ConsumeOutcome(users, id, amount).users, id).result
         == Ok((before - Floor(amount.value) as real).Floor as real)
      && (before - Floor(amount.value) as real) >= 0.0
  {
    var m := NormaliseMetadata(users[id]);
    var before := CurrentBalance(m);
    var next := before - Floor(amount.value) as real;
    var w := PersistedMetadata(m, next);
    assert ConsumeOutcome(users, id, amount).users[id] == JObj(w);
    assert BalanceKey in w;
    PersistedReadsBack(m, next);
  }

  /** Invalid amounts change nothing: `addCredits` throws and `consumeCredits` refuses. */
  lemma InvalidAmountsChangeNothing(users: map<UserId, Json>, id: UserId, amount: JsNumber)
    requires !ValidAmount(amount)
    ensures AddOutcome(users, id, amount) == Outcome(Err(InvalidAmount), users)
    ensures ConsumeOutcome(users, id, amount) == Outcome(Ok(false), users)
  {
  }

  const TestUser := "user-123"

  /** A fresh user of the test double: present, with empty metadata. */
  const FreshUsers: map<UserId, Json> := map[TestUser := JObj(map[])]

  // The cases of the ledger's unit tests, one lemma each.

  /** A user with no metadata reads 0. */
  lemma EmptyUserReadsZero()
    ensures BalanceOutcome(FreshUsers, TestUser).result == Ok(0.0)
  {
    var empty: Metadata := map[];
    assert CurrentBalance(empty) == 0.0;
  }

  /** Adding 5 returns 5 and stores it. */
  lemma AddFivePersists()
    ensures var a := AddOutcome(FreshUsers, TestUser, Finite(5.0));
      a.result == Ok(5.0) && BalanceOutcome(a.users, TestUser).result == Ok(5.0)
  {
    AddThenRead(FreshUsers, TestUser, Finite(5.0));
  }

  /** A legacy 8 reads 8 twice and is stored as `credit_balance` 8 with
      `referral_credits` 0. */
  lemma LegacyEightMigrated()
    ensures var legacy := map[TestUser := JObj(map[LegacyKey := JNum(8.0)])];
      var first := BalanceOutcome(legacy, TestUser);
      first.result == Ok(8.0) && BalanceOutcome(first.users, TestUser).result == Ok(8.0)
      && first.users[TestUser] == JObj(map[LegacyKey := JNum(0.0), BalanceKey := JNum(8.0)])
  {
    var lm := map[LegacyKey := JNum(8.0)];
    assert BalanceKey !in lm by { assert BalanceKey[0] != LegacyKey[0]; }
    assert LegacyAmount(lm) == Finite(8.0);
    MigrationIdempotent(lm);
    assert PersistedMetadata(lm, 8.0) == map[LegacyKey := JNum(0.0), BalanceKey := JNum(8.0)];
  }

  /** 3 less 2 is accepted and leaves 1. */
  lemma ConsumeWithinBalance()
    ensures var a := AddOutcome(FreshUsers, TestUser, Finite(3.0));
      var c := ConsumeOutcome(a.users, TestUser, Finite(2.0));
      c.result == Ok(true) && BalanceOutcome(c.users, TestUser).result == Ok(1.0)
  {
    var a3 := AddOutcome(FreshUsers, TestUser, Finite(3.0));
    AddThenRead(FreshUsers, TestUser, Finite(3.0));
    var m3 := NormaliseMetadata(a3.users[TestUser]);
    assert CurrentBalance(m3) == 3.0;
    AcceptedConsumeDebits(a3.users, TestUser, Finite(2.0));
  }

  /** 1 less 5 is refused and leaves 1. */
  lemma ConsumeBeyondBalance()
    ensures var a := AddOutcome(FreshUsers, TestUser, Finite(1.0));
      var c := ConsumeOutcome(a.users, TestUser, Finite(5.0));
      c.result == Ok(false) && BalanceOutcome(c.users, TestUser).result == Ok(1.0)
  {
    var a1 := AddOutcome(FreshUsers, TestUser, Finite(1.0));
    AddThenRead(FreshUsers, TestUser, Finite(1.0));
    var m1 := NormaliseMetadata(a1.users[TestUser]);
    assert CurrentBalance(m1) == 1.0;
    assert ReadBalance(m1).write.None?;
  }

  /** Adding 0 throws and consuming 0 refuses. */
  lemma ZeroAmountsIgnored()
    ensures AddOutcome(FreshUsers, TestUser, Finite(0.0)).result == Err(InvalidAmount)
    ensures ConsumeOutcome(FreshUsers, TestUser, Finite(0.0)).result == Ok(false)
  {
  }

  /** `getCreditBalance`: loads the user's metadata, migrates if needed. */
  method GetCreditBalance(dir: UserDirectory, id: UserId) returns (r: Result<real, CreditError>)
    modifies dir
    ensures Outcome(r, dir.metadata) == BalanceOutcome(old(dir.metadata), id)
  {
    var loaded := dir.Load(id);
    if loaded.None? {
      return Err(UserLookupFailed);
    }
    var m := loaded.value;
    var balance := CurrentBalanceOf(dir, id, m);
    r := Ok(balance);
  }

  /** The balance the three entry points start from: migrated when the guard
      holds, resolved otherwise. */
  method CurrentBalanceOf(dir: UserDirectory, id: UserId, m: Metadata) returns (balance: real)
    requires id in dir.metadata
    modifies dir
    ensures balance == CurrentBalance(m)
    ensures dir.metadata == AfterRead(old(dir.metadata), id, ReadBalance(m))
  {
    if BalanceKey !in m && TruthyKey(m, LegacyKey) {
      balance := MigrateReferralCredits(dir, id, m);
    } else {
      balance := ResolveBalance(m);
    }
  }

  /** `migrateReferralCredits`. */
  method MigrateReferralCredits(dir: UserDirectory, id: UserId, m: Metadata) returns (balance: real)
    requires id in dir.metadata
    modifies dir
    ensures balance == Migrate(m).balance
    ensures dir.metadata == AfterRead(old(dir.metadata), id, Migrate(m))
  {
    var legacy := LegacyAmount(m);
    if !(legacy.Finite? && legacy.value > 0.0) {
      return ResolveBalance(m);
    }
    balance := ResolveBalance(m) + legacy.value;
    PersistBalance(dir, id, m, balance);
  }

  /** `persistBalance`: the write's own outcome is not checked. */
  method PersistBalance(dir: UserDirectory, id: UserId, m: Metadata, next: real)
    requires id in dir.metadata
    modifies dir
    ensures dir.metadata == old(dir.metadata)[id := JObj(PersistedMetadata(m, next))]
  {
    var _ := dir.Store(id, PersistedMetadata(m, next));
  }

  /** A final write hides whatever the read wrote before it. */
  lemma WriteHidesRead(users: map<UserId, Json>, id: UserId, r: Read, v: Json)
    ensures AfterRead(users, id, r)[id := v] == users[id := v]
  {
  }

  /** `addCredits`. */
  method AddCredits(dir: UserDirectory, id: UserId, amount: JsNumber) returns (r: Result<real, CreditError>)
    modifies dir
    ensures Outcome(r, dir.metadata) == AddOutcome(old(dir.metadata), id, amount)
  {
    if !(amount.Finite? && amount.value > 0.0) {
      return Err(InvalidAmount);
    }
    ghost var before := dir.metadata;
    var loaded := dir.Load(id);
    if loaded.None? {
      return Err(UserLookupFailed);
    }
    var m := loaded.value;
    var current := CurrentBalanceOf(dir, id, m);
    var next := current + Floor(amount.value) as real;
    PersistBalance(dir, id, m, next);
    WriteHidesRead(before, id, ReadBalance(m), JObj(PersistedMetadata(m, next)));
    assert dir.metadata == before[id := JObj(PersistedMetadata(m, next))];
    r := Ok(next);
  }

  /** `consumeCredits`. */
  method ConsumeCredits(dir: UserDirectory, id: UserId, amount: JsNumber) returns (r: Result<bool, CreditError>)
    modifies dir
    ensures Outcome(r, dir.metadata) == ConsumeOutcome(old(dir.metadata), id, amount)
  {
    if !(amount.Finite? && amount.value > 0.0) {
      return Ok(false);
    }
    var loaded := dir.Load(id);
    if loaded.None? {
      return Err(UserLookupFailed);
    }
    var m := loaded.value;
    var current := CurrentBalanceOf(dir, id, m);
    if current < amount.value {
      return Ok(false);
    }
    PersistBalance(dir, id, m, current - Floor(amount.value) as real);
    WriteHidesRead(old(dir.metadata), id, ReadBalance(m), JObj(PersistedMetadata(m, current - Floor(amount.value) as real)));
    r := Ok(true);
  }
}
