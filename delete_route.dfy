/**
 * `POST /api/delete`: a signed-in user deletes one of their projects. The
 * stored input and output images are removed from their storage buckets
 * first (a missing object is tolerated), then the project row.
 */
module DeleteRoute {
  import opened JsStrings
  import opened JsValues
  import opened Platform
  import opened Uri

  /** The public-object part of a storage URL's path. */
  const PublicPrefix := "/storage/v1/object/public/"

  /** The characters `.` does not match in a regular expression. */
  predicate IsLineTerminator(c: char) {
    c == '\n' || c == '\r' || c == '\U{2028}' || c == '\U{2029}'
  }

  /** The length of the longest run from `j` of characters other than `/`. */
  function NonSlashRun(p: string, j: nat): (n: nat)
    requires j <= |p|
    ensures j + n <= |p| && (j + n < |p| ==> p[j + n] == '/')
    ensures forall k :: j <= k < j + n ==> p[k] != '/'
    decreases |p| - j
  {
    if j == |p| || p[j] == '/' then 0 else 1 + NonSlashRun(p, j + 1)
  }

  /** The length of the longest run from `j` of characters `.` matches. */
  function DotRun(p: string, j: nat): (n: nat)
    requires j <= |p|
    ensures j + n <= |p| && (j + n < |p| ==> IsLineTerminator(p[j + n]))
    ensures forall k :: j <= k < j + n ==> !IsLineTerminator(p[k])
    decreases |p| - j
  {
    if j == |p| || IsLineTerminator(p[j]) then 0 else 1 + DotRun(p, j + 1)
  }

  /** The two groups of `/\/storage\/v1\/object\/public\/([^/]+)\/(.+)/`. */
  datatype StorageMatch = StorageMatch(bucket: string, path: string)

  /** The expression matched at position `i`. `[^/]+` can only be followed by
      `/` when it takes the whole run of non-slashes, and the greedy `.+`
      takes everything up to the first line terminator. */
  function MatchAt(p: string, i: nat): (m: Option<StorageMatch>)
    requires i <= |p|
    ensures m.Some? ==> (m.value.bucket != "" && '/' !in m.value.bucket && m.value.path != ""
      && StartsWith(p[i..], PublicPrefix + m.value.bucket + "/" + m.value.path))
  {
    if !StartsWith(p[i..], PublicPrefix) then None
    else
      var j := i + |PublicPrefix|;
      var b := NonSlashRun(p, j);
      if b == 0 || j + b == |p| then None
      else
        var n := DotRun(p, j + b + 1);
        if n == 0 then None
        else
          var m := StorageMatch(p[j..j + b], p[j + b + 1..j + b + 1 + n]);
          assert '/' !in m.bucket by {
            forall k | 0 <= k < b ensures m.bucket[k] != '/' {
              assert m.bucket[k] == p[j + k];
            }
          }
          MatchedText(p, i, j, b, n);
          Some(m)
  }

  /** The text from `i` is the prefix, the bucket, a slash and the path. */
  lemma MatchedText(p: string, i: nat, j: nat, b: nat, n: nat)
    requires i <= j && j + b + 1 + n <= |p| && j == i + |PublicPrefix|
    requires p[i..j] == PublicPrefix && p[j + b] == '/'
    ensures StartsWith(p[i..], PublicPrefix + p[j..j + b] + "/" + p[j + b + 1..j + b + 1 + n])
  {
    assert p[i..j + b + 1 + n] == p[i..j] + p[j..j + b] + "/" + p[j + b + 1..j + b + 1 + n];
    assert p[i..][..j + b + 1 + n - i] == p[i..j + b + 1 + n];
  }

  /** The leftmost match at or after position `i`. */
  function FindMatch(p: string, i: nat): (m: Option<StorageMatch>)
    requires i <= |p|
    ensures m.Some? ==> exists k :: i <= k <= |p| && MatchAt(p, k) == m
    ensures m.None? ==> forall k :: i <= k <= |p| ==> MatchAt(p, k).None?
    decreases |p| - i
  {
    match MatchAt(p, i)
    case Some(m) => Some(m)
    case None => if i == |p| then None else FindMatch(p, i + 1)
  }

  /** `extractStoragePath`: `pathname` is the parsed URL's path, `None` for a
      URL that does not parse. No match, another bucket, or a failed decoding
      all give `None`; nothing throws. */
  function ExtractStoragePath(pathname: Option<string>, bucket: string): (r: Option<string>)
    ensures pathname.None? ==> r.None?
    ensures pathname.Some? && FindMatch(pathname.value, 0).None? ==> r.None?
    ensures pathname.Some? && FindMatch(pathname.value, 0).Some? ==>
      r == (var m := FindMatch(pathname.value, 0).value; if m.bucket == bucket then Decode(m.path) else None)
    ensures r.Some? ==> r.value != ""
  {
    match pathname
    case None => None
    case Some(p) =>
      match FindMatch(p, 0)
      case None => None
      case Some(m) => if m.bucket != bucket then None else Decode(m.path)
  }

  /** A key is extracted only from a path that holds the public prefix, the
      expected bucket, a slash and a non-empty rest that decodes to it. */
  lemma ExtractedShape(p: string, bucket: string)
    requires ExtractStoragePath(Some(p), bucket).Some?
    ensures exists k, rest :: (0 <= k <= |p| && rest != "" && StartsWith(p[k..], PublicPrefix + bucket + "/" + rest)
      && Decode(rest) == ExtractStoragePath(Some(p), bucket))
  {
    var m := FindMatch(p, 0).value;
    var k :| 0 <= k <= |p| && MatchAt(p, k) == Some(m);
    assert StartsWith(p[k..], PublicPrefix + bucket + "/" + m.path);
  }

  /** The path of a public URL for `key`, encoded as on upload, gives the key
      back for its own bucket, and nothing for another. */
  lemma PublicUrlRoundTrip(bucket: string, key: string, other: string)
    requires bucket != "" && '/' !in bucket && key != "" && IsAscii(key) && other != bucket
    ensures ExtractStoragePath(Some(PublicPrefix + bucket + "/" + EncodeAscii(key)), bucket) == Some(key)
    ensures ExtractStoragePath(Some(PublicPrefix + bucket + "/" + EncodeAscii(key)), other).None?
  {
    var e := EncodeAscii(key);
    assert forall k :: 0 <= k < |e| ==> !IsLineTerminator(e[k]) by {
      forall k | 0 <= k < |e| ensures !IsLineTerminator(e[k]) {
        assert e[k] in e;
      }
    }
    MatchPublicPath(bucket, e);
    DecodeEncodeAscii(key);
  }

  /** A path made of the prefix, a bucket and a rest matches with exactly
      those groups. */
  lemma MatchPublicPath(bucket: string, rest: string)
    requires bucket != "" && '/' !in bucket && rest != ""
    requires forall k :: 0 <= k < |rest| ==> !IsLineTerminator(rest[k])
    ensures FindMatch(PublicPrefix + bucket + "/" + rest, 0) == Some(StorageMatch(bucket, rest))
  {
    MatchAtStart(bucket, rest);
  }

  lemma MatchAtStart(bucket: string, rest: string)
    requires bucket != "" && '/' !in bucket && rest != ""
    requires forall k :: 0 <= k < |rest| ==> !IsLineTerminator(rest[k])
    ensures MatchAt(PublicPrefix + bucket + "/" + rest, 0) == Some(StorageMatch(bucket, rest))
  {
    var p := PublicPrefix + bucket + "/" + rest;
    var j := |PublicPrefix|;
    var r := j + |bucket| + 1;
    PublicPathParts(bucket, rest);
    RunIsWhole(p, j, |bucket|);
    DotRunIsWhole(p, r);
  }

  /** Where the prefix, the bucket, the slash and the rest sit in the path. */
  lemma PublicPathParts(bucket: string, rest: string)
    requires '/' !in bucket
    requires forall k :: 0 <= k < |rest| ==> !IsLineTerminator(rest[k])
    ensures var p := PublicPrefix + bucket + "/" + rest; var j := |PublicPrefix|; var r := j + |bucket| + 1;
      p[0..] == p && StartsWith(p, PublicPrefix) && p[j..j + |bucket|] == bucket && p[r..] == rest
      && p[r..r + |rest|] == rest && p[j + |bucket|] == '/'
      && (forall k :: j <= k < j + |bucket| ==> p[k] != '/')
      && (forall k :: r <= k < |p| ==> !IsLineTerminator(p[k]))
  {
    var p := PublicPrefix + bucket + "/" + rest;
    var j := |PublicPrefix|;
    var r := j + |bucket| + 1;
    assert forall k :: j <= k < j + |bucket| ==> p[k] == bucket[k - j];
    assert forall k :: r <= k < |p| ==> p[k] == rest[k - r];
  }

  lemma {:induction false} RunIsWhole(p: string, j: nat, n: nat)
    requires j + n < |p| && p[j + n] == '/'
    requires forall k :: j <= k < j + n ==> p[k] != '/'
    ensures NonSlashRun(p, j) == n
    decreases n
  {
    if n > 0 {
      RunIsWhole(p, j + 1, n - 1);
    }
  }

  lemma {:induction false} DotRunIsWhole(p: string, j: nat)
    requires j <= |p|
    requires forall k :: j <= k < |p| ==> !IsLineTerminator(p[k])
    ensures DotRun(p, j) == |p| - j
    decreases |p| - j
  {
    if j < |p| {
      DotRunIsWhole(p, j + 1);
    }
  }

  /** A storage object: its bucket and key. */
  datatype Deletion = Deletion(bucket: string, key: string)

  /** The URL columns of a project row; `None` is a `null` column. */
  datatype Project = Project(inputImageUrl: Option<string>, outputImageUrl: Option<string>)

  /** The environment the route reads: the two bucket names, and the URL
      parser's pathname for each stored URL (absent for a URL that does not
      parse). */
  datatype Buckets = Buckets(input: string, output: string, pathnames: map<string, string>)

  function Pathname(b: Buckets, url: string): Option<string> {
    if url in b.pathnames then Some(b.pathnames[url]) else None
  }

  /** The key to remove for a truthy URL column, when one is extracted. */
  function KeyOf(url: Option<string>, b: Buckets, bucket: string): (k: Option<string>)
    ensures k.Some? ==> url.Some? && url.value != "" && k.value != ""
  {
    if url.Some? && url.value != "" then ExtractStoragePath(Pathname(b, url.value), bucket) else None
  }

  /** The `deletions` list: the input image, then the output image, each only
      when its URL is set and a key is extracted from it. */
  function Deletions(p: Project, b: Buckets): (r: seq<Deletion>)
    ensures |r| == (if KeyOf(p.inputImageUrl, b, b.input).Some? then 1 else 0)
                 + (if KeyOf(p.outputImageUrl, b, b.output).Some? then 1 else 0)
    ensures KeyOf(p.inputImageUrl, b, b.input).Some? ==> r[0] == Deletion(b.input, KeyOf(p.inputImageUrl, b, b.input).value)
    ensures KeyOf(p.outputImageUrl, b, b.output).Some? ==>
      r[|r| - 1] == Deletion(b.output, KeyOf(p.outputImageUrl, b, b.output).value)
    ensures forall i :: 0 <= i < |r| ==> r[i].key != ""
  {
    var input := KeyOf(p.inputImageUrl, b, b.input);
    var output := KeyOf(p.outputImageUrl, b, b.output);
    (if input.Some? then [Deletion(b.input, input.value)] else [])
      + (if output.Some? then [Deletion(b.output, output.value)] else [])
  }

  const ObjectNotFound := "Object not found"

  /** The message of the error thrown for a failed removal. */
  function RemovalFailed(key: string, message: string): string {
    "Suppression du fichier " + key + " \U{E9}chou\U{E9}e : " + message
  }

  datatype Removal = Removal(failure: Option<string>, objects: set<Deletion>)

  /** The removal loop from index `i`: each removal that reports no error
      deletes its object; a "not found" error is passed over; any other error
      stops the loop with its message. `errors[i]` is the message of the
      `i`-th removal's error, if any. */
  function RemoveFrom(objects: set<Deletion>, deletions: seq<Deletion>, errors: map<nat, string>, i: nat): (r: Removal)
    requires i <= |deletions|
    ensures r.objects <= objects
    ensures r.failure.None? <==> forall k :: i <= k < |deletions| && k in errors ==> errors[k] == ObjectNotFound
    decreases |deletions| - i
  {
    if i == |deletions| then Removal(None, objects)
    else if i in errors && errors[i] != ObjectNotFound then
      Removal(Some(RemovalFailed(deletions[i].key, errors[i])), objects)
    else
      var next := if i in errors then objects else objects - {deletions[i]};
      RemoveFrom(next, deletions, errors, i + 1)
  }

  /** Without errors every listed object is gone and nothing else is touched. */
  lemma {:induction false} CleanRemovalDeletesAll(objects: set<Deletion>, deletions: seq<Deletion>, i: nat)
    requires i <= |deletions|
    ensures RemoveFrom(objects, deletions, map[], i).objects
      == objects - (set k | i <= k < |deletions| :: deletions[k])
    decreases |deletions| - i
  {
    if i < |deletions| {
      CleanRemovalDeletesAll(objects - {deletions[i]}, deletions, i + 1);
      assert (set k | i <= k < |deletions| :: deletions[k])
        == {deletions[i]} + (set k | i + 1 <= k < |deletions| :: deletions[k]);
    }
  }

  const AuthRequired := "Authentification requise."
  const ProjectIdMissing := "Identifiant de projet manquant."
  const ProjectNotFound := "Projet introuvable."
  const InternalFailure := "Une erreur interne est survenue pendant la suppression."
  /** The `TypeError` of reading `id` on a `null` payload. */
  const NullPayloadMessage := "Cannot read properties of null (reading 'id')"

  /** Everything the route reads and writes. */
  datatype World = World(projects: map<string, Project>, objects: set<Deletion>)

  /** The outcomes of the calls the route makes: the project query's error,
      the removals' errors (by position in the list) and the row delete's
      error. Database errors are plain objects, so the `catch` answers a
      thrown one with the generic text (`CaughtMessage`). */
  datatype Calls = Calls(lookupError: Option<DbError>, removeErrors: map<nat, string>, deleteError: Option<DbError>)

  datatype Deleted = Deleted(response: Response, world: World)

  function SuccessBody(): (b: Json)
    ensures b.JObj? && b.fields == map["success" := JBool(true)]
  {
    JObj(map["success" := JBool(true)])
  }

  /** The route: the session first, then the project id (before any
      lookup), then the lookup, the removals and the row delete. */
  function Delete(w: World, body: Option<Json>, auth: AuthLookup, b: Buckets, calls: Calls): (d: Deleted)
    ensures auth.AuthFailed? ==> d == Deleted(MessageResponse(500, auth.message), w)
    ensures auth.Anonymous? ==> d == Deleted(MessageResponse(401, AuthRequired), w)
    ensures d.response.status in {200, 400, 401, 404, 500}
    ensures d.world.projects.Keys <= w.projects.Keys && d.world.objects <= w.objects
    ensures d.world.projects != w.projects ==> d.response.status == 200
  {
    match auth
    case AuthFailed(message, _, _) => Deleted(MessageResponse(500, message), w)
    case Anonymous => Deleted(MessageResponse(401, AuthRequired), w)
    case SignedIn(_) =>
      match RequestFields(body)
      case None => Deleted(MessageResponse(500, NullPayloadMessage), w)
      case Some(fields) =>
        var id := Get(fields, "id");
        if id.None? || !Truthy(id.value) then Deleted(MessageResponse(400, ProjectIdMissing), w)
        else if calls.lookupError.Some? then Deleted(MessageResponse(500, CaughtMessage(DbThrown(calls.lookupError.value), InternalFailure)), w)
        else if !(id.value.JStr? && id.value.s in w.projects) then Deleted(MessageResponse(404, ProjectNotFound), w)
        else
          var key := id.value.s;
          var removal := RemoveFrom(w.objects, Deletions(w.projects[key], b), calls.removeErrors, 0);
          if removal.failure.Some? then Deleted(MessageResponse(500, removal.failure.value), w.(objects := removal.objects))
          else if calls.deleteError.Some? then Deleted(MessageResponse(500, CaughtMessage(DbThrown(calls.deleteError.value), InternalFailure)), w.(objects := removal.objects))
          else Deleted(Response(200, SuccessBody()), World(w.projects - {key}, removal.objects))
  }

  /** A missing or falsy project id is refused with 400 before the project
      is looked up, whatever the lookup would answer. */
  lemma MissingIdBeforeLookup(w: World, fields: Metadata, user: AuthUser, b: Buckets, calls: Calls)
    requires "id" !in fields || fields["id"] in {JNull, JBool(false), JNum(0.0), JStr("")}
    ensures Delete(w, Some(JObj(fields)), SignedIn(user), b, calls) == Deleted(MessageResponse(400, ProjectIdMissing), w)
  {
  }

  /** A deleted project had its stored images removed first: on success the
      row is gone, and with no removal errors so are all its listed objects,
      and nothing else. */
  lemma SuccessRemovesFilesThenRow(w: World, key: string, user: AuthUser, b: Buckets, calls: Calls)
    requires key in w.projects && key != "" && calls.lookupError.None? && calls.deleteError.None? && calls.removeErrors == map[]
    ensures var d := Delete(w, Some(JObj(map["id" := JStr(key)])), SignedIn(user), b, calls);
      var ds := Deletions(w.projects[key], b);
      d.response == Response(200, SuccessBody())
      && d.world.projects == w.projects - {key}
      && d.world.objects == w.objects - (set k | 0 <= k < |ds| :: ds[k])
  {
    CleanRemovalDeletesAll(w.objects, Deletions(w.projects[key], b), 0);
  }

  /** A removal error other than "not found" aborts with its message and the
      project row stays. */
  lemma RemovalErrorKeepsRow(w: World, body: Option<Json>, user: AuthUser, b: Buckets, calls: Calls)
    requires Delete(w, body, SignedIn(user), b, calls).response.status == 500
    ensures Delete(w, body, SignedIn(user), b, calls).world.projects == w.projects
  {
  }

  /** The projects table. */
  class ProjectStore {
    var projects: map<string, Project>

    constructor(initial: map<string, Project>)
      ensures projects == initial
    {
      projects := initial;
    }

    /** `.delete().eq('id', key)`; an error leaves the table as it was. */
    method DeleteRow(key: string, error: Option<DbError>) returns (failed: bool)
      modifies this
      ensures failed == error.Some?
      ensures projects == if failed then old(projects) else old(projects) - {key}
    {
      if error.Some? {
        return true;
      }
      projects := projects - {key};
      failed := false;
    }
  }

  /** The storage buckets. */
  class Storage {
    var objects: set<Deletion>

    constructor(initial: set<Deletion>)
      ensures objects == initial
    {
      objects := initial;
    }

    /** `storage.from(bucket).remove([key])`: the given error, or the object
        is removed. */
    method Remove(d: Deletion, error: Option<string>) returns (reported: Option<string>)
      modifies this
      ensures reported == error
      ensures objects == if error.Some? then old(objects) else old(objects) - {d}
    {
      if error.None? {
        objects := objects - {d};
      }
      reported := error;
    }
  }

  /** `for (const { bucket, key } of deletions)`. */
  method RemoveAll(storage: Storage, deletions: seq<Deletion>, errors: map<nat, string>) returns (failure: Option<string>)
    modifies storage
    ensures Removal(failure, storage.objects) == RemoveFrom(old(storage.objects), deletions, errors, 0)
  {
    var i := 0;
    while i < |deletions|
      invariant i <= |deletions|
      invariant RemoveFrom(storage.objects, deletions, errors, i) == RemoveFrom(old(storage.objects), deletions, errors, 0)
    {
      var error := storage.Remove(deletions[i], if i in errors then Some(errors[i]) else None);
      if error.Some? && error.value != ObjectNotFound {
        return Some(RemovalFailed(deletions[i].key, error.value));
      }
      i := i + 1;
    }
    failure := None;
  }

  method Post(store: ProjectStore, storage: Storage, body: Option<Json>, auth: AuthLookup, b: Buckets, calls: Calls)
    returns (response: Response)
    modifies store, storage
    ensures Deleted(response, World(store.projects, storage.objects))
      == Delete(World(old(store.projects), old(storage.objects)), body, auth, b, calls)
  {
    if auth.AuthFailed? {
      return MessageResponse(500, auth.message);
    }
    if auth.Anonymous? {
      return MessageResponse(401, AuthRequired);
    }
    var payload := RequestFields(body);
    if payload.None? {
      return MessageResponse(500, NullPayloadMessage);
    }
    var id := Get(payload.value, "id");
    if id.None? || !Truthy(id.value) {
      return MessageResponse(400, ProjectIdMissing);
    }
    if calls.lookupError.Some? {
      return MessageResponse(500, CaughtMessage(DbThrown(calls.lookupError.value), InternalFailure));
    }
    if !(id.value.JStr? && id.value.s in store.projects) {
      return MessageResponse(404, ProjectNotFound);
    }
    var key := id.value.s;
    var deletions := Deletions(store.projects[key], b);
    var failure := RemoveAll(storage, deletions, calls.removeErrors);
    if failure.Some? {
      return MessageResponse(500, failure.value);
    }
    var failed := store.DeleteRow(key, calls.deleteError);
    if failed {
      return MessageResponse(500, CaughtMessage(DbThrown(calls.deleteError.value), InternalFailure));
    }
    response := Response(200, SuccessBody());
  }
}
