/**
 * `POST /api/credits/grant`: an administrator adds credits to a user's
 * ledger balance. The request body is `{ userId, amount }`.
 */
module GrantRoute {
  import opened JsStrings
  import opened JsValues
  import opened Platform
  import opened Admin
  import opened Credits

  const AdminRequired := "Admin privileges required."
  const UserRequired := "A user identifier is required."
  const AmountInvalid := "Amount must be a positive number."
  const GrantFailed := "Unable to grant credits."

  /** `payload.userId?.trim()`, and whether it is truthy. */
  datatype TargetRead = NoTarget | TrimThrows | Target(id: UserId)

  function ReadTarget(fields: Metadata): (t: TargetRead)
    ensures t.NoTarget? <==> ("userId" !in fields || fields["userId"].JNull?
      || (fields["userId"].JStr? && Trim(fields["userId"].s) == ""))
    ensures t.Target? <==> "userId" in fields && fields["userId"].JStr? && Trim(fields["userId"].s) != ""
    ensures t.Target? ==> t.id == Trim(fields["userId"].s)
  {
    match Get(fields, "userId")
    case None => NoTarget
    case Some(JNull) => NoTarget
    case Some(JStr(s)) => if Trim(s) == "" then NoTarget else Target(Trim(s))
    case Some(_) => TrimThrows
  }

  /** `Number(payload.amount ?? 0)`. */
  function GrantAmount(fields: Metadata): JsNumber {
    ToNumber(Coalesce(Get(fields, "amount"), JNum(0.0)))
  }

  datatype Granted = Granted(response: Response, users: map<UserId, Json>)

  function BalanceBody(balance: real): (b: Json)
    ensures b.JObj? && b.fields == map["balance" := JNum(balance)]
  {
    JObj(map["balance" := JNum(balance)])
  }

  /** The route's whole decision: the admin gate comes before the payload is
      looked at; the identifier is checked before the amount; only a request
      that passes every check reaches `addCredits`, and only that one can
      change the directory. */
  function Grant(users: map<UserId, Json>, body: Option<Json>, auth: AuthLookup, env: Env): (g: Granted)
    ensures auth.AuthFailed? ==> g == Granted(MessageResponse(500, GrantFailed), users)
    ensures auth.Anonymous? || (auth.SignedIn? && !IsAdminUser(Some(auth.user), env)) ==>
      g == Granted(MessageResponse(403, AdminRequired), users)
    ensures g.users != users ==> (auth.SignedIn? && IsAdminUser(Some(auth.user), env) && RequestFields(body).Some?
      && ReadTarget(RequestFields(body).value).Target? && ValidAmount(GrantAmount(RequestFields(body).value)))
    ensures g.response.status in {200, 400, 403, 500}
  {
    match auth
    case AuthFailed(_, _, _) => Granted(MessageResponse(500, GrantFailed), users)
    case Anonymous => Granted(MessageResponse(403, AdminRequired), users)
    case SignedIn(user) =>
      if !IsAdminUser(Some(user), env) then Granted(MessageResponse(403, AdminRequired), users)
      else
        match RequestFields(body)
        case None => Granted(MessageResponse(500, GrantFailed), users)
        case Some(fields) => GrantFields(users, fields)
  }

  /** The admin's request once its fields are read: the identifier, then the
      amount, then `addCredits`. */
  function GrantFields(users: map<UserId, Json>, fields: Metadata): (g: Granted)
    ensures g.users != users ==> ReadTarget(fields).Target? && ValidAmount(GrantAmount(fields))
    ensures ReadTarget(fields).TrimThrows? ==> g == Granted(MessageResponse(500, GrantFailed), users)
    ensures ReadTarget(fields).NoTarget? ==> g == Granted(MessageResponse(400, UserRequired), users)
    ensures g.response.status in {200, 400, 500}
  {
    match ReadTarget(fields)
    case TrimThrows => Granted(MessageResponse(500, GrantFailed), users)
    case NoTarget => Granted(MessageResponse(400, UserRequired), users)
    case Target(id) =>
      var amount := GrantAmount(fields);
      if !ValidAmount(amount) then Granted(MessageResponse(400, AmountInvalid), users)
      else
        var a := AddOutcome(users, id, amount);
        if a.result.Err? then Granted(MessageResponse(500, GrantFailed), users)
        else Granted(Response(200, BalanceBody(a.result.value)), a.users)
  }

  /** A missing, `null` or blank identifier is refused with 400 for every
      amount, and nothing is written. */
  lemma MissingTargetRefused(users: map<UserId, Json>, fields: Metadata, user: AuthUser, env: Env)
    requires IsAdminUser(Some(user), env)
    requires "userId" !in fields || fields["userId"] == JNull || fields["userId"] == JStr("   ")
    ensures Grant(users, Some(JObj(fields)), SignedIn(user), env) == Granted(MessageResponse(400, UserRequired), users)
  {
    if "userId" in fields && fields["userId"] == JStr("   ") {
      var s := "   ";
      assert IsSpace(s[0]) && IsSpace(s[1]) && IsSpace(s[2]);
      assert TrimStart(s[2..]) == "";
      assert TrimStart(s[1..]) == "";
      assert Trim(s) == "";
    }
  }

  /** A known identifier with a non-positive, non-numeric or missing amount is
      refused with 400 before `addCredits` is reached. */
  lemma BadAmountRefused(users: map<UserId, Json>, fields: Metadata, user: AuthUser, env: Env)
    requires IsAdminUser(Some(user), env)
    requires ReadTarget(fields).Target?
    requires "amount" !in fields || fields["amount"] == JNull || fields["amount"] == JBool(false)
      || fields["amount"].JObj? || (fields["amount"].JNum? && fields["amount"].n <= 0.0)
    ensures Grant(users, Some(JObj(fields)), SignedIn(user), env) == Granted(MessageResponse(400, AmountInvalid), users)
  {
    BadAmountInvalid(fields);
    assert GrantFields(users, fields) == Granted(MessageResponse(400, AmountInvalid), users);
    assert RequestFields(Some(JObj(fields))) == Some(fields);
  }

  lemma BadAmountInvalid(fields: Metadata)
    requires "amount" !in fields || fields["amount"] == JNull || fields["amount"] == JBool(false)
      || fields["amount"].JObj? || (fields["amount"].JNum? && fields["amount"].n <= 0.0)
    ensures !ValidAmount(GrantAmount(fields))
  {
    if "amount" !in fields || fields["amount"] == JNull {
      assert GrantAmount(fields) == ToNumber(JNum(0.0));
    } else {
      assert GrantAmount(fields) == ToNumber(fields["amount"]);
    }
  }

  /** A granted request returns the new balance, which the target then reads
      back (rounded down), and no other user changes. */
  lemma GrantCreditsTarget(users: map<UserId, Json>, body: Option<Json>, auth: AuthLookup, env: Env)
    requires Grant(users, body, auth, env).response.status == 200
    ensures auth.SignedIn? && RequestFields(body).Some? && ReadTarget(RequestFields(body).value).Target?
    ensures var g := Grant(users, body, auth, env); var id := ReadTarget(RequestFields(body).value).id;
      var amount := GrantAmount(RequestFields(body).value);
      id in users && ValidAmount(amount)
      && g.response.body == BalanceBody(AddOutcome(users, id, amount).result.value)
      && BalanceOutcome(g.users, id).result == Ok(AddOutcome(users, id, amount).result.value.Floor as real)
      && forall v :: v in users && v != id ==> g.users[v] == users[v]
  {
    var fields := RequestFields(body).value;
    var id := ReadTarget(fields).id;
    AddThenRead(users, id, GrantAmount(fields));
  }

  method Post(dir: UserDirectory, body: Option<Json>, auth: AuthLookup, env: Env) returns (response: Response)
    modifies dir
    ensures Granted(response, dir.metadata) == Grant(old(dir.metadata), body, auth, env)
  {
    if auth.AuthFailed? {
      return MessageResponse(500, GrantFailed);
    }
    if auth.Anonymous? || !IsAdminUser(Some(auth.user), env) {
      return MessageResponse(403, AdminRequired);
    }
    var payload := RequestFields(body);
    if payload.None? {
      return MessageResponse(500, GrantFailed);
    }
    response := PostFields(dir, payload.value);
  }

  /** The steps of `POST` after the body is parsed. */
  method PostFields(dir: UserDirectory, fields: Metadata) returns (response: Response)
    modifies dir
    ensures Granted(response, dir.metadata) == GrantFields(old(dir.metadata), fields)
  {
    var target := ReadTarget(fields);
    var amount := GrantAmount(fields);
    if target.TrimThrows? {
      return MessageResponse(500, GrantFailed);
    }
    if target.NoTarget? {
      return MessageResponse(400, UserRequired);
    }
    if !(amount.Finite? && amount.value > 0.0) {
      return MessageResponse(400, AmountInvalid);
    }
    var r := AddCredits(dir, target.id, amount);
    if r.Err? {
      return MessageResponse(500, GrantFailed);
    }
    response := Response(200, BalanceBody(r.value));
  }
}
