/**
 * What the route handlers see of the platform: the environment, the signed-in
 * user as reported by the auth service, the JSON response they send, and the
 * auth service's per-user metadata store.
 */
module Platform {
  import opened JsValues

  /** `process.env`: only defined variables are keys. */
  type Env = map<string, string>

  function EnvGet(env: Env, name: string): Option<string> {
    if name in env then Some(env[name]) else None
  }

  type UserId = string

  /** The parts of an auth-service user the application reads. The metadata
      blobs are arbitrary JSON: they need not be objects. */
  datatype AuthUser = AuthUser(id: UserId, email: Option<string>, userMetadata: Json, appMetadata: Json)

  /** The outcome of `supabase.auth.getUser()`: an error, no user, or a user.
      An auth error is an `Error` instance; `name` is what its `name`
      property reads and `own` holds its own enumerable properties. */
  datatype AuthLookup = AuthFailed(message: string, name: Option<string>, own: Metadata) | Anonymous | SignedIn(user: AuthUser)

  /** A database error as the PostgREST client reports it: a plain object
      `{ code, message }`, not an `Error` instance. */
  datatype DbError = DbError(code: Option<string>, message: string)

  /**
   * A value a route's `catch` block receives: whether it is an `Error`
   * instance (every `new Error`, auth error and Stripe error is; a PostgREST
   * error is not), its message, what its `name` property reads (inherited
   * included) and its own enumerable properties, which an object spread
   * copies (an `Error`'s `message` is not one of them).
   */
  datatype Thrown = Thrown(isError: bool, message: string, name: Option<string>, own: Metadata)

  /** `new Error(message)`: `name` is inherited, nothing is enumerable. */
  function NewError(message: string): (e: Thrown)
    ensures e.isError && e.message == message && e.name == Some("Error") && e.own == map[]
  {
    Thrown(true, message, Some("Error"), map[])
  }

  /** A `TypeError` the runtime raises, such as a property read on `null`:
      an `Error` instance whose inherited name is `TypeError`. */
  function NewTypeError(message: string): (e: Thrown)
    ensures e.isError && e.message == message && e.name == Some("TypeError") && e.own == map[]
  {
    Thrown(true, message, Some("TypeError"), map[])
  }

  /** A PostgREST error thrown as it is: a plain object with no `name`. */
  function DbThrown(e: DbError): (t: Thrown)
    ensures !t.isError && t.message == e.message && t.name.None?
    ensures t.own.Keys == {"code", "message"} && t.own["message"] == JStr(e.message)
    ensures t.own["code"] == if e.code.Some? then JStr(e.code.value) else JNull
  {
    Thrown(false, e.message, None,
      map["code" := (if e.code.Some? then JStr(e.code.value) else JNull), "message" := JStr(e.message)])
  }

  /** The error of a failed auth lookup, as thrown. */
  function AuthThrown(a: AuthLookup): (t: Thrown)
    requires a.AuthFailed?
    ensures t.isError && t.message == a.message && t.name == a.name && t.own == a.own
  {
    Thrown(true, a.message, a.name, a.own)
  }

  /** `error instanceof Error ? error.message : generic`. */
  function CaughtMessage(e: Thrown, generic: string): (m: string)
    ensures e.isError ==> m == e.message
    ensures !e.isError ==> m == generic
  {
    if e.isError then e.message else generic
  }

  /** A thrown database error is answered with the generic text, never its own. */
  lemma DbErrorsAnsweredGenerically(e: DbError, generic: string)
    ensures CaughtMessage(DbThrown(e), generic) == generic
    ensures e.message != generic ==> CaughtMessage(DbThrown(e), generic) != e.message
  {
  }

  /** `{ name: error.name, ...error }` as JSON: the own properties, and `name`
      unless it is `undefined`; an own `name` wins over the one read first. */
  function Spread(e: Thrown): (d: Metadata)
    ensures d.Keys == e.own.Keys + (if e.name.Some? then {"name"} else {})
    ensures forall k :: k in e.own ==> d[k] == e.own[k]
    ensures "name" !in e.own && e.name.Some? ==> d["name"] == JStr(e.name.value)
  {
    (if e.name.Some? then map["name" := JStr(e.name.value)] else map[]) + e.own
  }

  /** `NextResponse.json(body, { status })`. */
  datatype Response = Response(status: int, body: Json)

  function MessageBody(text: string): (r: Json)
    ensures r.JObj? && r.fields.Keys == {"message"} && r.fields["message"] == JStr(text)
  {
    JObj(map["message" := JStr(text)])
  }

  /** A response whose body is `{ message }`. */
  function MessageResponse(status: int, text: string): (r: Response)
    ensures r.status == status && r.body == MessageBody(text)
  {
    Response(status, MessageBody(text))
  }

  /** `normaliseMetadata`: an object is read as itself, anything else as `{}`.
      The code also passes an array through as itself (`typeof [] ===
      'object'`); a named key reads as `undefined` there just as in `{}`, but a
      later `{ ...metadata }` would copy its index keys, which this drops. */
  function NormaliseMetadata(raw: Json): (m: Metadata)
    ensures raw.JObj? ==> m == raw.fields
    ensures !raw.JObj? ==> m == map[]
  {
    if raw.JObj? then raw.fields else map[]
  }

  /** The properties of a JSON request body read with
      `request.json().catch(() => ({}))`: a body that does not parse reads as
      `{}`, a JSON `null` has no properties at all (reading one throws), and
      any other non-object has none of the properties the routes read. */
  function RequestFields(body: Option<Json>): (r: Option<Metadata>)
    ensures r.None? <==> body == Some(JNull)
    ensures body.Some? && body.value.JObj? ==> r == Some(body.value.fields)
    ensures r.Some? && !(body.Some? && body.value.JObj?) ==> r.value == map[]
  {
    match body
    case None => Some(map[])
    case Some(JNull) => None
    case Some(JObj(fields)) => Some(fields)
    case Some(_) => Some(map[])
  }

  /**
   * The auth service's users and their `user_metadata`, as the admin API
   * reads (`getUserById`) and replaces (`updateUserById`) it. A user that is
   * not a key does not exist, and reading it fails.
   */
  class UserDirectory {
    var metadata: map<UserId, Json>

    constructor(initial: map<UserId, Json>)
      ensures metadata == initial
    {
      metadata := initial;
    }

    /** `getUserById(id)` followed by `normaliseMetadata`; `None` is a lookup error. */
    method Load(id: UserId) returns (r: Option<Metadata>)
      ensures r == if id in metadata then Some(NormaliseMetadata(metadata[id])) else None
    {
      if id in metadata {
        r := Some(NormaliseMetadata(metadata[id]));
      } else {
        r := None;
      }
    }

    /** `updateUserById(id, { user_metadata })`: replaces the whole blob of an existing user. */
    method Store(id: UserId, m: Metadata) returns (ok: bool)
      modifies this
      ensures ok == (id in old(metadata))
      ensures metadata == if ok then old(metadata)[id := JObj(m)] else old(metadata)
    {
      ok := id in metadata;
      if ok {
        metadata := metadata[id := JObj(m)];
      }
    }
  }
}
