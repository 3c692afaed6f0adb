/**
 * The application: the session manager, whose fields stand for the tables of
 * the document store it updates in place, the startup sequence and the two
 * routes. Each method is specified by the matching function of modules
 * Allocator and Registry, whose properties are proved there.
 */
module App {
  import opened Bson
  import Allocator
  import opened Registry

  class SessionManager {
    /** The name of the sessions collection; also the `_id` of its counter. */
    const collectionName: string
    /** The "counters" collection: counter `_id` to `seq`. */
    var counters: Allocator.Counters
    /** The sessions collection, in insertion order. */
    var sessions: seq<Document>
    /** The names `list_collection_names` reports. */
    var collections: set<string>
    /** The collections created with the session validator attached. */
    var validated: set<string>

    /** The store as a value. */
    ghost function State(): Db
      reads this
    {
      Db(counters, sessions, collections, validated)
    }

    /** Binds the manager to a store holding `db` and to the collection `collectionName`. */
    constructor (db: Db, collectionName: string)
      ensures State() == db && this.collectionName == collectionName
    {
      this.collectionName := collectionName;
      counters := db.counters;
      sessions := db.sessions;
      collections := db.collections;
      validated := db.validated;
    }

    /** `ensure_counter`: the upsert that inserts `{_id: collectionName, seq: 0}` only when absent. */
    method EnsureCounter()
      modifies this
      ensures State() == old(State()).(counters := Allocator.EnsureCounter(old(counters), collectionName))
    {
      if collectionName !in counters {
        counters := counters[collectionName := 0];
      }
    }

    /**
     * `get_next_id`: increments the counter and returns the value after the
     * update; None when no counter document exists (the source then fails on
     * subscripting None).
     */
    method GetNextId() returns (id: Option<int>)
      modifies this
      ensures match Allocator.NextId(old(counters), collectionName)
        case None => id == None && State() == old(State())
        case Some(a) => id == Some(a.id) && State() == old(State()).(counters := a.counters)
    {
      if collectionName in counters {
        var v := counters[collectionName] + 1;
        counters := counters[collectionName := v];
        id := Some(v);
      } else {
        id := None;
      }
    }

    /** `create_collection_with_validator`: creates the collection with the validator unless it already exists. */
    method CreateCollectionWithValidator()
      modifies this
      ensures State() == Registry.CreateCollectionWithValidator(old(State()), collectionName)
    {
      if collectionName in collections {
        return;
      }
      collections := collections + {collectionName};
      validated := validated + {collectionName};
    }

    /**
     * `insert_one` on the sessions collection: an acknowledged insert appends
     * the document with the `_id` the driver generated, creating the collection
     * (without a validator) if it did not exist, and returns that id; a
     * rejected one stores nothing.
     */
    method InsertOne(doc: Document, outcome: InsertOutcome) returns (insertedId: Option<Value>)
      modifies this
      ensures outcome.Rejected? ==> insertedId == None && State() == old(State())
      ensures outcome.Acknowledged? ==>
        insertedId == Some(ObjectId(outcome.oid))
        && State() == old(State()).(sessions := old(sessions) + [doc["_id" := ObjectId(outcome.oid)]],
                                    collections := old(collections) + {collectionName})
    {
      match outcome
      case Rejected =>
        insertedId := None;
      case Acknowledged(oid) =>
        sessions := sessions + [doc["_id" := ObjectId(oid)]];
        collections := collections + {collectionName};
        insertedId := Some(ObjectId(oid));
    }
  }

  /** The startup sequence: provision the sessions collection, then make sure its counter exists. */
  method Startup(m: SessionManager)
    modifies m
    ensures m.State() == Registry.CreateCollectionWithValidator(old(m.State()), m.collectionName)
      .(counters := Allocator.EnsureCounter(old(m.counters), m.collectionName))
    ensures old(m.sessions) == [] && (m.collectionName in old(m.counters) ==> old(m.counters)[m.collectionName] >= 0)
      ==> Invariant(m.State(), m.collectionName)
    ensures Invariant(old(m.State()), m.collectionName) ==> Invariant(m.State(), m.collectionName)
  {
    m.CreateCollectionWithValidator();
    m.EnsureCounter();
    if old(m.sessions) == [] && (m.collectionName in old(m.counters) ==> old(m.counters)[m.collectionName] >= 0) {
      StartupEstablishesInvariant(old(m.State()), m.collectionName);
    }
    if Invariant(old(m.State()), m.collectionName) {
      RestartPreservesInvariant(old(m.State()), m.collectionName);
    }
  }

  /**
   * `POST /start-session` with the generated token `token`: allocate the id,
   * build the record, insert it and echo it, with every exception turned into
   * a 500 response by `handle_exceptions`.
   */
  method StartSession(m: SessionManager, token: string, outcome: InsertOutcome) returns (resp: Response)
    modifies m
    ensures Step(m.State(), resp) == Registry.StartSession(old(m.State()), m.collectionName, GetBaseUrl(), token, outcome)
    ensures Invariant(old(m.State()), m.collectionName) && TokenFresh(old(m.sessions), token)
      ==> Invariant(m.State(), m.collectionName)
  {
    if Invariant(m.State(), m.collectionName) && TokenFresh(m.sessions, token) {
      StartSessionPreservesInvariant(m.State(), m.collectionName, GetBaseUrl(), token, outcome);
    }
    var userurl := SessionUrl(GetBaseUrl(), token);
    var newId := m.GetNextId();
    if newId.None? {
      resp := HandleExceptions(ServerError);
      return;
    }
    var doc := SessionDoc(newId.value, Admin, token, userurl);
    var insertedId := m.InsertOne(doc, outcome);
    if insertedId.None? {
      resp := HandleExceptions(DriverError);
    } else if !Truthy(insertedId.value) {
      resp := HandleExceptions(ServerError);
    } else {
      resp := Json(200, doc);
    }
  }
}
