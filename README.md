# Session registry: a Dafny model

This project models the session registry of a small Flask service (`app.py`).
An administrator starts a "live session". The service then allocates an
auto-incremented id from a counter document and pairs it with a fresh uuid4
token. It stores the record `{id, type: "admin", unique_id, userurl}` in the
sessions collection and returns the record. Participants open
`<base>/session/<unique_id>`, and the service looks the record up by its token.

The MongoDB store becomes values and one class:

- `Bson` (`bson.dfy`) defines documents as maps from field names to values (int, string, ObjectId). It also gives the collection's `$jsonSchema` validator as the predicate `SchemaValid`.
- `Allocator` (`allocator.dfy`) models the counters table as a `map<string, int>`. It defines `ensure_counter` (upsert with `$setOnInsert: {seq: 0}`) and `get_next_id` (`$inc: {seq: 1}`, returning the document after the update) as functions, plus a function for `k` successive allocations.
- `Registry` (`registry.dfy`) holds the store as a `Db` value. It defines the share URL and the route that parses it back, the uuid4 token format, the record shape, provisioning of the collection, the `find_one` lookup, `join_session`, `handle_exceptions` and `start_session`. It also states the registry invariant and proves the properties as lemmas.
- `App` (`app.dfy`) has the class `SessionManager`. Its fields are the store's tables, and its methods update them in place. It also has the `Startup` sequence and the `StartSession` route. Each method's postcondition ties the new state, and the response, to the matching function of `Allocator` or `Registry`.

Modelling choices:

- A missing counter makes `find_one_and_update` return None, and `doc["seq"]` then raises a `TypeError`. The generic handler turns that into status 500 with "Something went wrong on server". A driver error (`PyMongoError`) becomes 500 with "Database operation failed".
- The result of `insert_one` is a parameter: acknowledged with the generated ObjectId, or rejected (a `PyMongoError`). The source's `if not result.inserted_id` tests that ObjectId, and an ObjectId is always truthy. So the `abort(500)` branch is modelled but never taken. Had it been taken, the 500 would be returned with the record already stored.
- The validator's `bsonType: "int"` is read as "an int that fits in 32 bits", because the driver stores larger Python ints as BSON `long`. A record therefore satisfies the schema exactly when its id fits in 32 bits (`Registry.SessionDocSchema`).
- The base URL is hardcoded in `get_base_url` (`Registry.GetBaseUrl`). The `Registry` functions take the base URL as a parameter, and the route passes the constant, as the code does.
- The uuid4 token is a parameter of `StartSession`. Lemmas that need it fresh, or in canonical uuid4 form, say so in their `requires`.

## Model

| member | source | states |
|---|---|---|
| Allocator.EnsureCounter | app.py:63-69 | the counters table after the `$setOnInsert` upsert: the old table if the counter exists, else the old table plus the counter with seq 0 |
| Allocator.NextId | app.py:71-78 | `find_one_and_update` with `$inc` and the document after the update: the table with the counter raised by one and the new value, or nothing when no counter document exists |
| Allocator.AllocateMany | app.py:71-78 | k successive `get_next_id` calls: the final table and the values returned in order, or nothing if a call fails |
| Bson.SchemaValid | app.py:84-95 | the `$jsonSchema` validator: all of id, type, unique_id, userurl present; id a 32-bit int; type a string in {admin, student}; unique_id and userurl strings |
| Allocator.EnsureCounterInsertsIfAbsent | app.py:63-69 | the counter exists afterwards; when absent it is created with seq 0; when present, whatever its value, the table is unchanged; no other counter is added |
| Allocator.EnsureCounterIdempotent | app.py:63-69 | a second `ensure_counter` leaves the table as the first left it |
| Allocator.NextIdIncrements | app.py:71-78 | `get_next_id` succeeds iff the counter exists; it returns the old seq plus one, stores that value and leaves every other counter unchanged |
| Allocator.AllocateManyIds | app.py:71-78 | k successive calls from seq s return s+1, ..., s+k in order and leave seq at s+k |
| Allocator.AllocateManyNeedsCounter | app.py:73-78 | without a counter document the allocation fails |
| Allocator.FreshCounterAllocatesOneToK | app.py:63-78 | after `ensure_counter` on a table without the counter, k calls return 1, ..., k, strictly increasing, with no repeats |
| Allocator.AllocatedIdsIncrease | app.py:71-78 | from any existing seq, the values returned strictly increase and all exceed that seq |
| Registry.GetBaseUrl | app.py:164-166 | the base URL is an absolute https URL with no trailing slash |
| Registry.SessionUrl | app.py:124 | the share URL: base URL, then "/session/", then the token |
| Registry.ParseSessionUrl | app.py:151 | the route `/session/<unique_id>` under the base URL: the token, when the URL is the prefix followed by one plain path segment |
| Registry.IsUuid4 | app.py:123 | the form of `str(uuid.uuid4())`: 36 characters, hyphens at 8, 13, 18 and 23, lower-case hex elsewhere, version digit 4, variant digit 8, 9, a or b |
| Registry.SessionDoc | app.py:130-135 | the record `{id, type, unique_id, userurl}`, which is also the JSON body returned |
| Registry.CreateCollectionWithValidator | app.py:80-100 | the store after provisioning: unchanged when the collection exists, else the collection added and marked as carrying the validator |
| Registry.JoinSession | app.py:153-160 | the page for the first record with the token: status 200 with its `userurl` (or None when the field is missing), else 404 with "Session not found" and the requested token |
| Registry.StartSession | app.py:121-148 | the store and the response of start-session: allocate first; a missing counter gives 500 and no change; a rejected insert gives 500 with the counter advanced; an acknowledged insert appends the record plus `_id`, lists the collection (an insert creates a missing one, without the validator) and returns the four fields with 200 |
| Registry.Invariant | app.py:127-140 | the counter exists and is non-negative; every stored id is an int in 1..seq; ids strictly increase in collection order; tokens are pairwise distinct |
| Registry.SessionUrlShape | app.py:124 | under an https base URL without a trailing slash, the share URL starts with "https://", has exactly one '/' between the base and "session/", and ends with the token |
| Registry.DeploymentSessionUrlShape | app.py:164-166 | the share URL built on the deployment's base URL starts with "https://" and continues with "/session/" right after the base |
| Registry.SessionUrlRoundTrip | app.py:124 | a token that is one plain path segment (non-empty, no '/', '?', '#' or '%') is recovered from its share URL by the `/session/<unique_id>` route |
| Registry.ParseSessionUrlSound | app.py:151 | every URL the route accepts is the share URL of the token it yields, and that token is one plain segment |
| Registry.Uuid4IsPathSegment | app.py:123 | a canonical uuid4 string is a plain path segment: non-empty, with no '/', '?', '#' or '%' |
| Registry.SessionDocSchema | app.py:84-95 | the record built by `start_session`, with or without `_id`, satisfies the validator (all four fields, int id, type in {admin, student}, string token and url) iff its id fits in 32 bits |
| Registry.CreateCollectionWithValidatorIdempotent | app.py:80-100 | provisioning is idempotent and leaves the data alone; an existing collection is left as it is, without a validator; a new one is created with the validator |
| Registry.FindFirst | app.py:155 | the lookup finds the first record whose `unique_id` equals the token, and finds nothing iff no record carries it |
| Registry.JoinSessionStatus | app.py:153-160 | `join_session` answers 404 with "Session not found" and the requested token iff no record matches, and 200 otherwise |
| Registry.FindFirstAfterAppend | app.py:155 | after appending a record whose token was fresh, the lookup of that token finds the new record |
| Registry.FindFirstSkipsOther | app.py:155 | appending a record with another token leaves the lookup's answer unchanged |
| Registry.HandleExceptions | app.py:39-50 | every exception becomes status 500 with a body holding only an error message: "Database operation failed" for driver errors, "Something went wrong on server" otherwise |
| Registry.StartSessionWithoutCounter | app.py:127 | without a counter, start-session answers 500 "Something went wrong on server" and leaves the store unchanged |
| Registry.StartSessionAppendsRecord | app.py:121-148 | with the insert acknowledged, the counter rises by one, exactly one record `{id, "admin", unique_id, base + "/session/" + unique_id}` plus `_id` is appended, the collection is listed afterwards (created without a validator if it was missing), and the same four fields come back with status 200 |
| Registry.StartSessionInsertRejected | app.py:127-140 | a rejected insert answers 500 "Database operation failed" and stores no record, but the counter stays advanced |
| Registry.StartupEstablishesInvariant | app.py:104-108 | provisioning and `ensure_counter` over an empty collection establish the registry invariant |
| Registry.RestartPreservesInvariant | app.py:107-108 | a restart over a store that meets the invariant keeps it and leaves the counter's seq as it was, so no id of a prior run is reused |
| Registry.StartSessionPreservesInvariant | app.py:121-148 | with a fresh token, start-session keeps ids in 1..seq and strictly increasing in collection order, and tokens pairwise distinct, whatever the insert does; the new seq exceeds every stored id, so ids are never reused |
| Registry.JoinAfterStart | app.py:151-160 | after start-session stored a fresh uuid4 token, the returned URL routes back to the token, `join_session` answers 200 with that URL, and lookups of other tokens answer as before |
| Registry.ThreeSessionsScenario | app.py:121-148 | three start-sessions on a freshly provisioned empty store return ids 1, 2, 3 and URLs base + "/session/" + token |
| App.SessionManager.constructor | app.py:57-61 | the manager is bound to the store's tables and the collection name |
| App.SessionManager.EnsureCounter | app.py:63-69 | the counters table becomes `Allocator.EnsureCounter` of the old one; nothing else changes |
| App.SessionManager.GetNextId | app.py:71-78 | returns and stores `Allocator.NextId` of the old table, or fails leaving the store unchanged |
| App.SessionManager.CreateCollectionWithValidator | app.py:80-100 | the store becomes `Registry.CreateCollectionWithValidator` of the old store |
| App.SessionManager.InsertOne | app.py:138 | an acknowledged insert appends the document with its `_id`, creates the collection without a validator if it was missing, and returns that id; a rejected one stores nothing |
| App.Startup | app.py:104-108 | provisioning then `ensure_counter`; on an empty collection the registry invariant holds afterwards, and a restart over a store that meets it keeps it |
| App.StartSession | app.py:119-148 | the store and the response are those of `Registry.StartSession` with the fixed base URL, and the registry invariant is preserved for a fresh token |

## Left out

- Flask routing, `render_template`, `jsonify` and the templates. Responses are the datatype `Registry.Response`: a status plus a JSON body, or the arguments handed to the session template.
- `GET /` only renders a template and has no logic.
- The browser script `static/js/main.js`: DOM events, fetch calls and video controls, with no logic to model.
- Environment loading, the `MONGODB_URI` startup check and the MongoDB connection (app.py:12-33): configuration plumbing.
- `uuid.uuid4()` randomness: the token is a parameter. Its freshness is a precondition of the lemmas that need it.
- Server-side enforcement of the validator: whether an insert is rejected is a parameter and is not tied to `SchemaValid`.
- `CollectionInvalid` from `create_collection` (a race with a concurrent creator, app.py:96-100): a sequential model cannot produce it.
- Read failures of `find_one` in `join_session` (a `PyMongoError` that would become a 500): `Registry.JoinSession` assumes the read succeeds.
- Driver failures of `ensure_counter` and `get_next_id`, and timeouts: the only allocator failure modelled is the missing counter document.
- Concurrency and the atomicity of `find_one_and_update` and the upsert: operations run one after another.
- BSON overflow of the counter's `seq` beyond 64 bits: counters are unbounded integers.
- The `print` logging on the error paths.
- Registry.ParseSessionUrl: a URL whose last segment holds a query string, a fragment or a percent-escape is rejected rather than split or decoded as the router would. Uuid4 tokens contain none of these characters.
