/**
 * The session registry: the shape of a session record and its share URL, the
 * lookup behind `GET /session/<unique_id>`, the state change and response of
 * `POST /start-session`, the provisioning of the sessions collection and the
 * mapping of exceptions to error responses. Everything here is a function of
 * the store's contents; module App runs these steps on the store object.
 */
module Registry {
  import opened Bson
  import Allocator

  /** The roles the validator admits; the public API only ever creates admins. */
  datatype Role = Admin | Student

  function RoleName(r: Role): string {
    match r
    case Admin => "admin"
    case Student => "student"
  }

  /** The store: the counters table, the sessions collection, the collection names and those created with the validator. */
  datatype Db = Db(
    counters: Allocator.Counters,
    sessions: seq<Document>,
    collections: set<string>,
    validated: set<string>)

  // ---------------------------------------------------------------- URLs

  /** An absolute https URL without a trailing slash. */
  predicate IsBaseUrl(u: string) {
    |u| > 8 && u[..8] == "https://" && u[|u| - 1] != '/'
  }

  /** `get_base_url`: the deployment's base URL, a fixed constant. */
  function GetBaseUrl(): (url: string)
    ensures IsBaseUrl(url)
  {
    // Written as scheme + host so that the verifier sees the "https://" prefix.
    var url := "https://" + "internshiptask-session.vercel.app";
    assert url[..8] == "https://";
    url
  }

  const SESSION_PATH: string := "/session/"

  /** The share URL of a session: base URL, the path "/session/" and the token. */
  function SessionUrl(base: string, token: string): string {
    base + SESSION_PATH + token
  }

  /**
   * Under a base URL of that shape, a share URL is an https URL whose host part
   * is followed by exactly one '/' before "session/", and which ends with the token.
   */
  lemma SessionUrlShape(base: string, token: string)
    requires IsBaseUrl(base)
    ensures var url := SessionUrl(base, token);
      url[..8] == "https://"
      && url[|base| - 1] != '/' && url[|base|..|base| + 9] == "/session/"
      && url[|base| + 9..] == token
  {
    var url := SessionUrl(base, token);
    assert url == base + (SESSION_PATH + token);
    assert url[..|base|] == base;
    assert url[..8] == url[..|base|][..8];
  }

  /** The share URL `start-session` builds with the deployment's base URL has that shape. */
  lemma DeploymentSessionUrlShape(token: string)
    ensures var url := SessionUrl(GetBaseUrl(), token);
      url[..8] == "https://" && url[|GetBaseUrl()|..|GetBaseUrl()| + 9] == "/session/"
  {
    SessionUrlShape(GetBaseUrl(), token);
  }

  /**
   * A non-empty path segment that the route's `<unique_id>` captures as it is:
   * no '/' (a further segment), no '?' or '#' (a query string or fragment, not
   * part of the path) and no '%' (an escape the router would decode).
   */
  predicate IsPlainSegment(s: string) {
    s != [] && forall i :: 0 <= i < |s| ==> s[i] !in {'/', '?', '#', '%'}
  }

  /**
   * The route `/session/<unique_id>` under `base`: the token a URL carries,
   * when the URL is the prefix followed by one plain path segment.
   */
  function ParseSessionUrl(base: string, url: string): Option<string> {
    var prefix := base + SESSION_PATH;
    if |prefix| < |url| && url[..|prefix|] == prefix && IsPlainSegment(url[|prefix|..]) then
      Some(url[|prefix|..])
    else
      None
  }

  /** A token that is one plain path segment is recovered from its share URL. */
  lemma SessionUrlRoundTrip(base: string, token: string)
    requires IsPlainSegment(token)
    ensures ParseSessionUrl(base, SessionUrl(base, token)) == Some(token)
  {
  }

  /** Conversely, a URL the route accepts is the share URL of the token it yields. */
  lemma ParseSessionUrlSound(base: string, url: string)
    requires ParseSessionUrl(base, url).Some?
    ensures var token := ParseSessionUrl(base, url).value;
      IsPlainSegment(token) && url == SessionUrl(base, token)
  {
  }

  predicate IsLowerHexDigit(ch: char) {
    '0' <= ch <= '9' || 'a' <= ch <= 'f'
  }

  /**
   * `str(uuid.uuid4())`: 36 characters, hyphens at 8, 13, 18 and 23, lower-case
   * hex digits elsewhere, version digit '4' and a variant digit in 8, 9, a, b.
   */
  predicate IsUuid4(u: string) {
    |u| == 36
    && (forall i :: 0 <= i < 36 ==> if i in {8, 13, 18, 23} then u[i] == '-' else IsLowerHexDigit(u[i]))
    && u[14] == '4'
    && u[19] in {'8', '9', 'a', 'b'}
  }

  /** A uuid4 token is a single non-empty path segment, so the share URL routes back to it. */
  lemma Uuid4IsPathSegment(u: string)
    requires IsUuid4(u)
    ensures IsPlainSegment(u)
  {
  }

  // ------------------------------------------------------------ records

  /** The record `{id, type, unique_id, userurl}`, also the JSON body echoed back. */
  function SessionDoc(id: int, role: Role, token: string, url: string): Document {
    map["id" := Int(id), "type" := Str(RoleName(role)), "unique_id" := Str(token), "userurl" := Str(url)]
  }

  /**
   * Every record `start_session` builds, with or without the `_id` the driver
   * adds, satisfies the validator exactly when its id fits BSON's 32-bit int.
   */
  lemma SessionDocSchema(id: int, role: Role, token: string, url: string, oid: string)
    ensures SchemaValid(SessionDoc(id, role, token, url)) <==> FitsInt32(id)
    ensures SchemaValid(SessionDoc(id, role, token, url)["_id" := ObjectId(oid)]) <==> FitsInt32(id)
  {
  }

  // ------------------------------------------------------------ provisioning

  /**
   * `create_collection_with_validator`: nothing when the collection already
   * exists, otherwise the collection is created with the validator attached.
   */
  function CreateCollectionWithValidator(db: Db, name: string): Db {
    if name in db.collections then db
    else db.(collections := db.collections + {name}, validated := db.validated + {name})
  }

  /**
   * Provisioning is idempotent, leaves the data alone, and attaches the
   * validator only to a collection it creates itself.
   */
  lemma CreateCollectionWithValidatorIdempotent(db: Db, name: string)
    ensures var db' := CreateCollectionWithValidator(db, name);
      CreateCollectionWithValidator(db', name) == db'
      && name in db'.collections
      && db'.counters == db.counters && db'.sessions == db.sessions
    ensures name in db.collections ==> CreateCollectionWithValidator(db, name) == db
    ensures name !in db.collections ==>
      CreateCollectionWithValidator(db, name).validated == db.validated + {name}
  {
  }

  // ------------------------------------------------------------ lookup

  /** Matches the filter `{"unique_id": u}`. */
  predicate HasToken(d: Document, u: string) {
    "unique_id" in d && d["unique_id"] == Str(u)
  }

  /** No record of the collection carries the token `u`. */
  predicate TokenFresh(docs: seq<Document>, u: string) {
    forall i :: 0 <= i < |docs| ==> !HasToken(docs[i], u)
  }

  /** `find_one({"unique_id": u})`: the position of the first matching record in collection order. */
  function FindFirst(docs: seq<Document>, u: string): (r: Option<nat>)
    ensures r.None? <==> TokenFresh(docs, u)
    ensures r.Some? ==>
      r.value < |docs| && HasToken(docs[r.value], u)
      && forall j :: 0 <= j < r.value ==> !HasToken(docs[j], u)
    decreases |docs|
  {
    if docs == [] then None
    else if HasToken(docs[0], u) then Some(0)
    else
      match FindFirst(docs[1..], u)
      case None => None
      case Some(i) => Some(i + 1)
  }

  /** What `GET /session/<unique_id>` hands to the template, with its HTTP status. */
  datatype Response =
    | Json(status: int, body: Document)
    | SessionPage(status: int, uniqueId: string, userurl: Option<Value>, error: Option<string>)

  /** `join_session(u)`: the matching record's `userurl` with status 200, or "Session not found" with 404. */
  function JoinSession(docs: seq<Document>, u: string): Response {
    match FindFirst(docs, u)
    case None => SessionPage(404, u, None, Some("Session not found"))
    case Some(i) => SessionPage(200, u, Get(docs[i], "userurl"), None)
  }

  /** The lookup answers 404 exactly when no record carries the token, and 200 otherwise. */
  lemma JoinSessionStatus(docs: seq<Document>, u: string)
    ensures JoinSession(docs, u).SessionPage? && JoinSession(docs, u).uniqueId == u
    ensures JoinSession(docs, u).status == 404 <==> TokenFresh(docs, u)
    ensures JoinSession(docs, u).status == 200 <==> !TokenFresh(docs, u)
    ensures TokenFresh(docs, u) ==> JoinSession(docs, u).error == Some("Session not found")
  {
  }

  /** Appending a record with token `u` to a collection where `u` is fresh makes that record the first match. */
  lemma FindFirstAfterAppend(docs: seq<Document>, d: Document, u: string)
    requires TokenFresh(docs, u) && HasToken(d, u)
    ensures FindFirst(docs + [d], u) == Some(|docs|)
  {
    var all := docs + [d];
    assert all[|docs|] == d;
    assert forall j :: 0 <= j < |docs| ==> all[j] == docs[j];
  }

  /** Appending a record without token `u` does not change what the lookup of `u` answers. */
  lemma {:induction false} FindFirstSkipsOther(docs: seq<Document>, d: Document, u: string)
    requires !HasToken(d, u)
    ensures FindFirst(docs + [d], u) == FindFirst(docs, u)
    decreases |docs|
  {
    if docs != [] {
      assert (docs + [d])[1..] == docs[1..] + [d];
      FindFirstSkipsOther(docs[1..], d, u);
    }
  }

  // ------------------------------------------------------------ errors

  /** The exceptions the route handlers can see. */
  datatype Fault =
    | DriverError  // a PyMongoError raised by the driver
    | ServerError  // any other exception (a TypeError, an aborted request, ...)

  /** `handle_exceptions`: every fault becomes status 500 with a fixed, generic error message and no other field. */
  function HandleExceptions(f: Fault): (r: Response)
    ensures r.Json? && r.status == 500 && r.body.Keys == {"error"} && r.body["error"].Str?
    ensures r.body["error"].s == (if f.DriverError? then "Database operation failed" else "Something went wrong on server")
  {
    var msg := match f
      case DriverError => "Database operation failed"
      case ServerError => "Something went wrong on server";
    Json(500, map["error" := Str(msg)])
  }

  // ------------------------------------------------------------ start-session

  /** What `insert_one` does: the driver acknowledges with the generated ObjectId, or raises. */
  datatype InsertOutcome = Acknowledged(oid: string) | Rejected

  /** A route's effect: the store afterwards and the response. */
  datatype Step = Step(db: Db, response: Response)

  /**
   * `start_session` with the token `token` (the uuid4 string), for the sessions
   * collection `name` under base URL `base`. The id is allocated before the
   * insert, so an insert that fails leaves the counter advanced.
   */
  function StartSession(db: Db, name: string, base: string, token: string, outcome: InsertOutcome): Step {
    var url := SessionUrl(base, token);
    match Allocator.NextId(db.counters, name)
    case None => Step(db, HandleExceptions(ServerError))
    case Some(a) =>
      var doc := SessionDoc(a.id, Admin, token, url);
      var advanced := db.(counters := a.counters);
      match outcome
      case Rejected => Step(advanced, HandleExceptions(DriverError))
      case Acknowledged(oid) =>
        // The first insert into a missing collection creates it, without a validator.
        var inserted := advanced.(sessions := db.sessions + [doc["_id" := ObjectId(oid)]],
                                  collections := db.collections + {name});
        if !Truthy(ObjectId(oid)) then Step(inserted, HandleExceptions(ServerError))
        else Step(inserted, Json(200, doc))
  }

  /** Without a counter document, start-session answers 500 and changes nothing. */
  lemma StartSessionWithoutCounter(db: Db, name: string, base: string, token: string, outcome: InsertOutcome)
    requires name !in db.counters
    ensures var s := StartSession(db, name, base, token, outcome);
      s.db == db
      && s.response == Json(500, map["error" := Str("Something went wrong on server")])
  {
  }

  /**
   * With the counter present and the insert acknowledged, start-session raises
   * the counter by one, appends exactly one record
   * `{id: new id, type: "admin", unique_id, userurl}` (plus the driver's `_id`),
   * creating the collection if it was missing (without the validator), and
   * echoes the same four fields with status 200.
   */
  lemma StartSessionAppendsRecord(db: Db, name: string, base: string, token: string, oid: string)
    requires name in db.counters
    ensures var s := StartSession(db, name, base, token, Acknowledged(oid));
      var id := db.counters[name] + 1;
      var rec := SessionDoc(id, Admin, token, base + "/session/" + token);
      s.response == Json(200, rec)
      && s.response.body["id"] == Int(id) && s.response.body["type"] == Str("admin")
      && s.response.body["unique_id"] == Str(token) && s.response.body["userurl"] == Str(base + "/session/" + token)
      && s.db.sessions == db.sessions + [rec["_id" := ObjectId(oid)]]
      && s.db.counters == db.counters[name := id]
      && s.db.collections == db.collections + {name} && s.db.validated == db.validated
  {
  }

  /** A rejected insert answers 500 and stores nothing, but the id it allocated is spent. */
  lemma StartSessionInsertRejected(db: Db, name: string, base: string, token: string)
    requires name in db.counters
    ensures var s := StartSession(db, name, base, token, Rejected);
      s.response == Json(500, map["error" := Str("Database operation failed")])
      && s.db.sessions == db.sessions
      && s.db.counters == db.counters[name := db.counters[name] + 1]
  {
  }

  // ------------------------------------------------------------ invariants

  /**
   * The registry's invariant over the collection `name`: the counter exists;
   * every record has an id between 1 and the counter's value; ids strictly
   * increase in collection order, so they are distinct and follow creation
   * order; tokens are pairwise distinct.
   */
  predicate Invariant(db: Db, name: string) {
    name in db.counters && db.counters[name] >= 0
    && (forall i :: 0 <= i < |db.sessions| ==>
          "id" in db.sessions[i] && db.sessions[i]["id"].Int?
          && 1 <= db.sessions[i]["id"].i <= db.counters[name])
    && (forall i, j :: 0 <= i < j < |db.sessions| ==> db.sessions[i]["id"].i < db.sessions[j]["id"].i)
    && (forall i, j :: 0 <= i < j < |db.sessions| ==>
          "unique_id" !in db.sessions[i] || "unique_id" !in db.sessions[j]
          || db.sessions[i]["unique_id"] != db.sessions[j]["unique_id"])
  }

  /** The store as the application leaves it at startup, with an empty collection, meets the invariant. */
  lemma StartupEstablishesInvariant(db: Db, name: string)
    requires db.sessions == []
    requires name in db.counters ==> db.counters[name] >= 0
    ensures Invariant(Db(Allocator.EnsureCounter(db.counters, name), [], db.collections, db.validated), name)
    ensures Invariant(CreateCollectionWithValidator(db, name).(counters := Allocator.EnsureCounter(db.counters, name)), name)
  {
  }

  /**
   * A restart over a store that already meets the invariant keeps it:
   * provisioning skips the existing collection and `ensure_counter` never
   * resets the counter, so no id of a prior run is handed out again.
   */
  lemma RestartPreservesInvariant(db: Db, name: string)
    requires Invariant(db, name)
    ensures Invariant(CreateCollectionWithValidator(db, name).(counters := Allocator.EnsureCounter(db.counters, name)), name)
    ensures Allocator.EnsureCounter(db.counters, name)[name] == db.counters[name]
  {
  }

  /**
   * Start-session with a fresh token keeps the invariant, whatever the insert
   * does: the new id exceeds every id already stored, so ids are never reused
   * even though a rejected insert leaves a gap.
   */
  lemma StartSessionPreservesInvariant(db: Db, name: string, base: string, token: string, outcome: InsertOutcome)
    requires Invariant(db, name) && TokenFresh(db.sessions, token)
    ensures Invariant(StartSession(db, name, base, token, outcome).db, name)
    ensures var s := StartSession(db, name, base, token, outcome);
      s.db.counters[name] == db.counters[name] + 1
      && forall i :: 0 <= i < |db.sessions| ==> db.sessions[i]["id"].i < s.db.counters[name]
  {
  }

  /**
   * The round trip: after start-session stored the record for a fresh token,
   * its share URL routes back to that token and the lookup answers 200 with
   * the stored `userurl`; the lookup of any other token answers as before.
   */
  lemma JoinAfterStart(db: Db, name: string, base: string, token: string, oid: string, other: string)
    requires name in db.counters && TokenFresh(db.sessions, token) && IsUuid4(token) && other != token
    ensures var s := StartSession(db, name, base, token, Acknowledged(oid));
      ParseSessionUrl(base, s.response.body["userurl"].s) == Some(token)
      && JoinSession(s.db.sessions, token) == SessionPage(200, token, Some(s.response.body["userurl"]), None)
      && JoinSession(s.db.sessions, other) == JoinSession(db.sessions, other)
  {
    var s := StartSession(db, name, base, token, Acknowledged(oid));
    var url := SessionUrl(base, token);
    var rec := SessionDoc(db.counters[name] + 1, Admin, token, url)["_id" := ObjectId(oid)];
    assert s.db.sessions == db.sessions + [rec];
    Uuid4IsPathSegment(token);
    SessionUrlRoundTrip(base, token);
    FindFirstAfterAppend(db.sessions, rec, token);
    assert (db.sessions + [rec])[|db.sessions|] == rec;
    FindFirstSkipsOther(db.sessions, rec, other);
  }

  /**
   * Three start-session calls on a freshly provisioned, empty store, each with
   * its own token, answer ids 1, 2 and 3 and share URLs base + "/session/" + token.
   */
  lemma ThreeSessionsScenario(name: string, base: string, t1: string, t2: string, t3: string, o1: string, o2: string, o3: string)
    requires t1 != t2 && t2 != t3 && t1 != t3
    ensures var db0 := Db(Allocator.EnsureCounter(map[], name), [], {name}, {name});
      var s1 := StartSession(db0, name, base, t1, Acknowledged(o1));
      var s2 := StartSession(s1.db, name, base, t2, Acknowledged(o2));
      var s3 := StartSession(s2.db, name, base, t3, Acknowledged(o3));
      s1.response.body["id"] == Int(1) && s2.response.body["id"] == Int(2) && s3.response.body["id"] == Int(3)
      && s1.response.body["userurl"] == Str(base + "/session/" + t1)
      && s2.response.body["userurl"] == Str(base + "/session/" + t2)
      && s3.response.body["userurl"] == Str(base + "/session/" + t3)
      && |s3.db.sessions| == 3 && s3.db.counters[name] == 3
  {
  }
}
