/** The document-store handle of backend/src/db/mongodb.js: a module-level
    client created on the first `getMongo` call and reused afterwards, and
    `ensureMongoIndexes`, which maintains the index table of the `orders`
    collection (create the unique `orderId` index, drop a superseded index
    while ignoring any failure of the drop, create the two report indexes).

    The document store's own behaviour is modelled as functions: creating an
    index that already exists with the same definition changes nothing, an
    index name or key pattern already used differently is an error, dropping
    a missing index is an error, and a unique `orderId` index rejects a
    second order with the same `orderId`. */
module MongoDb {
  import opened Outcomes

  /** Errors the document store reports. */
  datatype MongoError =
    | NetworkError(message: string)       // the client could not connect
    | IndexNotFound(name: string)         // dropIndex of a name the collection lacks
    | IndexNameConflict(name: string)     // the name is taken by an index with another definition
    | IndexKeysConflict(name: string)     // the key pattern is already indexed under another name
    | DuplicateKey                        // a unique orderId index meets two orders with one orderId

  /** One field of an index key pattern; direction 1 is ascending, -1 descending. */
  datatype Key = Key(field: string, direction: int)

  datatype IndexSpec = IndexSpec(keys: seq<Key>, unique: bool)

  /** The index table of a collection, by index name. */
  type IndexTable = map<string, IndexSpec>

  /** An order document; only `orderId` matters to the indexes modelled. */
  datatype OrderDoc = OrderDoc(orderId: int, content: string)

  const UniqueName := "idx_orders_orderId_unique"
  const UniqueSpec := IndexSpec([Key("orderId", 1)], true)

  /** The index name left over from earlier iterations. */
  const LegacyName := "idx_orders_delivery_rider_date_status"

  const Student2Name := "idx_orders_student2_report"
  const Student2Spec := IndexSpec([Key("delivery.rider.email", 1), Key("createdAt", -1),
                                   Key("delivery.deliveryStatus", 1), Key("delivery.assignedAt", -1)], false)

  const Student1Name := "idx_orders_student1_report"
  const Student1Spec := IndexSpec([Key("restaurant.name", 1), Key("createdAt", -1)], false)

  /** The index every collection has on `_id`, unique by nature. */
  const IdIndexName := "_id_"
  const IdIndexSpec := IndexSpec([Key("_id", 1)], true)

  /** The indexes that `ensureMongoIndexes` ends with. */
  const RequiredIndexes: IndexTable :=
    map[UniqueName := UniqueSpec, Student2Name := Student2Spec, Student1Name := Student1Spec]

  // ---------------------------------------------------------------------
  // The document store's index and insert behaviour
  // ---------------------------------------------------------------------

  /** An index that makes `orderId` unique across the collection. */
  predicate GuardsOrderId(spec: IndexSpec)
  {
    spec.unique && |spec.keys| == 1 && spec.keys[0].field == "orderId"
  }

  predicate Guarded(t: IndexTable)
  {
    exists n :: n in t && GuardsOrderId(t[n])
  }

  predicate DistinctOrderIds(docs: seq<OrderDoc>)
  {
    forall i, j :: 0 <= i < j < |docs| ==> docs[i].orderId != docs[j].orderId
  }

  /** What the store maintains: while an orderId-unique index exists, no two
      orders share an `orderId`. */
  predicate Consistent(t: IndexTable, docs: seq<OrderDoc>)
  {
    Guarded(t) ==> DistinctOrderIds(docs)
  }

  /** Whether another index than `name` already uses the key pattern `keys`. */
  predicate KeysTaken(t: IndexTable, name: string, keys: seq<Key>)
  {
    exists n :: n in t && n != name && t[n].keys == keys
  }

  /** `createIndex(keys, { name, unique })` on a collection with index table
      `t` holding `docs`. */
  function IndexCreate(t: IndexTable, docs: seq<OrderDoc>, name: string, spec: IndexSpec): Result<IndexTable, MongoError>
  {
    if name in t then
      (if t[name] == spec then Ok(t) else Err(IndexNameConflict(name)))
    else if KeysTaken(t, name, spec.keys) then Err(IndexKeysConflict(name))
    else if GuardsOrderId(spec) && !DistinctOrderIds(docs) then Err(DuplicateKey)
    else Ok(t[name := spec])
  }

  /** `dropIndex(name)`. */
  function IndexDrop(t: IndexTable, name: string): Result<IndexTable, MongoError>
  {
    if name in t then Ok(t - {name}) else Err(IndexNotFound(name))
  }

  /** `insertOne(doc)` on the orders collection. */
  function Inserted(t: IndexTable, docs: seq<OrderDoc>, doc: OrderDoc): Result<seq<OrderDoc>, MongoError>
  {
    if Guarded(t) && exists d :: d in docs && d.orderId == doc.orderId then Err(DuplicateKey)
    else Ok(docs + [doc])
  }

  /** How far a run of `ensureMongoIndexes` got: the index table it left and
      the error that stopped it, if any. Steps already done are not undone. */
  datatype Progress = Progress(table: IndexTable, failure: Option<MongoError>)

  /** The steps of `ensureMongoIndexes` after `getMongo`, on the `orders`
      collection. */
  function EnsureIndexesOn(t: IndexTable, docs: seq<OrderDoc>): Progress
  {
    match IndexCreate(t, docs, UniqueName, UniqueSpec)
    case Err(e) => Progress(t, Some(e))
    case Ok(t1) =>
      var t2 := match IndexDrop(t1, LegacyName) case Ok(dropped) => dropped case Err(_) => t1;
      match IndexCreate(t2, docs, Student2Name, Student2Spec)
      case Err(e) => Progress(t2, Some(e))
      case Ok(t3) =>
        match IndexCreate(t3, docs, Student1Name, Student1Spec)
        case Err(e) => Progress(t3, Some(e))
        case Ok(t4) => Progress(t4, None)
  }

  // ---------------------------------------------------------------------
  // Properties
  // ---------------------------------------------------------------------

  /** After a successful run the three required indexes are present with
      their definitions and the superseded one is gone. */
  lemma EnsureIndexesContents(t: IndexTable, docs: seq<OrderDoc>)
    requires EnsureIndexesOn(t, docs).failure.None?
    ensures var u := EnsureIndexesOn(t, docs).table;
      && UniqueName in u && u[UniqueName] == UniqueSpec
      && Student2Name in u && u[Student2Name] == Student2Spec
      && Student1Name in u && u[Student1Name] == Student1Spec
      && LegacyName !in u
  {
  }

  /** Whatever the outcome, every index name other than the four that
      `ensureMongoIndexes` touches is left as it was. */
  lemma EnsureIndexesLeavesOthers(t: IndexTable, docs: seq<OrderDoc>, n: string)
    requires n != UniqueName && n != LegacyName && n != Student2Name && n != Student1Name
    ensures var u := EnsureIndexesOn(t, docs).table;
      && (n in u <==> n in t)
      && (n in t ==> u[n] == t[n])
  {
  }

  /** A failing drop is ignored: a run on a table without the superseded
      index (where the drop fails) ends exactly as a run on the same table
      with it (where the drop succeeds), whatever its key pattern unless that
      pattern collides with the unique index, apart from that index itself. */
  lemma DropFailureIgnored(t: IndexTable, docs: seq<OrderDoc>, legacy: IndexSpec)
    requires LegacyName !in t && legacy.keys != UniqueSpec.keys
    ensures EnsureIndexesOn(t, docs).failure == EnsureIndexesOn(t[LegacyName := legacy], docs).failure
    ensures EnsureIndexesOn(t, docs).table == EnsureIndexesOn(t[LegacyName := legacy], docs).table - {LegacyName}
  {
    var t' := t[LegacyName := legacy];
    assert t' - {LegacyName} == t;
    assert KeysTaken(t', UniqueName, UniqueSpec.keys) == KeysTaken(t, UniqueName, UniqueSpec.keys);
    match IndexCreate(t, docs, UniqueName, UniqueSpec)
    case Err(e) => {
      assert IndexCreate(t', docs, UniqueName, UniqueSpec) == Err(e);
    }
    case Ok(t1) => {
      if UniqueName !in t {
        assert t'[UniqueName := UniqueSpec] == t[UniqueName := UniqueSpec][LegacyName := legacy];
      }
      assert IndexCreate(t', docs, UniqueName, UniqueSpec) == Ok(t1[LegacyName := legacy]);
      assert t1[LegacyName := legacy] - {LegacyName} == t1;
    }
  }

  /** Running `ensureMongoIndexes` again on the table a run left gives the
      same result: the same table and the same failure, so a second run
      after a successful one succeeds too. */
  lemma EnsureIndexesIdempotent(t: IndexTable, docs: seq<OrderDoc>)
    ensures EnsureIndexesOn(EnsureIndexesOn(t, docs).table, docs) == EnsureIndexesOn(t, docs)
    ensures EnsureIndexesOn(t, docs).failure.None? ==> EnsureIndexesOn(EnsureIndexesOn(t, docs).table, docs).failure.None?
  {
    match IndexCreate(t, docs, UniqueName, UniqueSpec)
    case Err(e) => {
    }
    case Ok(t1) => {
      assert UniqueName in t1 && t1[UniqueName] == UniqueSpec;
      var t2 := match IndexDrop(t1, LegacyName) case Ok(dropped) => dropped case Err(_) => t1;
      assert UniqueName in t2 && t2[UniqueName] == UniqueSpec && LegacyName !in t2;
      assert IndexCreate(t2, docs, UniqueName, UniqueSpec) == Ok(t2);
      assert IndexDrop(t2, LegacyName).Err?;
      match IndexCreate(t2, docs, Student2Name, Student2Spec)
      case Err(e) => {
        assert EnsureIndexesOn(t, docs) == Progress(t2, Some(e));
      }
      case Ok(t3) => {
        assert Student2Name in t3 && t3[Student2Name] == Student2Spec;
        assert t3[UniqueName] == UniqueSpec && LegacyName !in t3;
        assert IndexCreate(t3, docs, UniqueName, UniqueSpec) == Ok(t3);
        assert IndexDrop(t3, LegacyName).Err?;
        assert IndexCreate(t3, docs, Student2Name, Student2Spec) == Ok(t3);
        match IndexCreate(t3, docs, Student1Name, Student1Spec)
        case Err(e) => {
          assert EnsureIndexesOn(t, docs) == Progress(t3, Some(e));
        }
        case Ok(t4) => {
          assert EnsureIndexesOn(t, docs) == Progress(t4, None);
          assert t4[UniqueName] == UniqueSpec && t4[Student2Name] == Student2Spec;
          assert Student1Name in t4 && t4[Student1Name] == Student1Spec && LegacyName !in t4;
          assert IndexCreate(t4, docs, UniqueName, UniqueSpec) == Ok(t4);
          assert IndexDrop(t4, LegacyName).Err?;
          assert IndexCreate(t4, docs, Student2Name, Student2Spec) == Ok(t4);
          assert IndexCreate(t4, docs, Student1Name, Student1Spec) == Ok(t4);
        }
      }
    }
  }

  /** On a collection whose only indexes, if any, are the default `_id_`
      index and the superseded one (on other keys than `orderId`), a run over
      orders with distinct ids succeeds, drops the superseded index and adds
      exactly the three required indexes. */
  lemma EnsureIndexesOnFreshStore(t: IndexTable, docs: seq<OrderDoc>)
    requires t.Keys <= {IdIndexName, LegacyName} && DistinctOrderIds(docs)
    requires IdIndexName in t ==> t[IdIndexName] == IdIndexSpec
    requires LegacyName in t ==> t[LegacyName].keys != UniqueSpec.keys
    ensures EnsureIndexesOn(t, docs) == Progress((t - {LegacyName}) + RequiredIndexes, None)
  {
    var base := t - {LegacyName};
    assert !KeysTaken(t, UniqueName, UniqueSpec.keys) by {
      assert IdIndexSpec.keys[0] != UniqueSpec.keys[0];
    }
    var t1 := t[UniqueName := UniqueSpec];
    assert IndexCreate(t, docs, UniqueName, UniqueSpec) == Ok(t1);
    var t2 := base[UniqueName := UniqueSpec];
    if LegacyName in t {
      assert t1 - {LegacyName} == t2;
      assert IndexDrop(t1, LegacyName) == Ok(t2);
    } else {
      assert base == t;
      assert IndexDrop(t1, LegacyName).Err?;
    }
    assert t2.Keys <= {IdIndexName, UniqueName};
    assert !KeysTaken(t2, Student2Name, Student2Spec.keys) by {
      assert Student2Spec.keys[0] != UniqueSpec.keys[0];
      assert Student2Spec.keys[0] != IdIndexSpec.keys[0];
    }
    var t3 := t2[Student2Name := Student2Spec];
    assert IndexCreate(t2, docs, Student2Name, Student2Spec) == Ok(t3);
    assert !KeysTaken(t3, Student1Name, Student1Spec.keys) by {
      assert Student1Spec.keys[0] != UniqueSpec.keys[0];
      assert Student1Spec.keys[0] != IdIndexSpec.keys[0];
      assert |Student1Spec.keys| != |Student2Spec.keys|;
    }
    assert t3[Student1Name := Student1Spec] == base + RequiredIndexes;
  }

  /** A run never breaks the store's consistency, and after a successful run
      `orderId` is guarded. */
  lemma EnsureIndexesGuards(t: IndexTable, docs: seq<OrderDoc>)
    requires Consistent(t, docs)
    ensures Consistent(EnsureIndexesOn(t, docs).table, docs)
    ensures EnsureIndexesOn(t, docs).failure.None? ==> Guarded(EnsureIndexesOn(t, docs).table)
  {
    if EnsureIndexesOn(t, docs).failure.None? {
      EnsureIndexesContents(t, docs);
      var u := EnsureIndexesOn(t, docs).table;
      assert GuardsOrderId(u[UniqueName]);
    }
  }

  /** With the unique index present, an order whose `orderId` is already
      stored is rejected with a duplicate-key error rather than added; an
      accepted order keeps the ids distinct. */
  lemma UniqueIndexRejectsDuplicate(t: IndexTable, docs: seq<OrderDoc>, doc: OrderDoc)
    requires Consistent(t, docs)
    ensures Guarded(t) && (exists i :: 0 <= i < |docs| && docs[i].orderId == doc.orderId) ==>
              Inserted(t, docs, doc) == Err(DuplicateKey)
    ensures Inserted(t, docs, doc).Ok? ==> Consistent(t, Inserted(t, docs, doc).value)
  {
  }

  // ---------------------------------------------------------------------
  // The orders collection and the module-level client
  // ---------------------------------------------------------------------

  /** The server-side `orders` collection: its index table and its orders. */
  class OrdersCollection {
    var indexes: IndexTable
    var docs: seq<OrderDoc>

    ghost predicate Valid()
      reads this
    {
      Consistent(indexes, docs)
    }

    constructor (indexes: IndexTable, docs: seq<OrderDoc>)
      requires Consistent(indexes, docs)
      ensures Valid() && this.indexes == indexes && this.docs == docs
    {
      this.indexes := indexes;
      this.docs := docs;
    }

    /** `db.collection("orders").createIndex(...)`. */
    method CreateIndex(name: string, spec: IndexSpec) returns (r: Result<(), MongoError>)
      requires Valid()
      modifies this`indexes
      ensures Valid()
      ensures r.Ok? <==> IndexCreate(old(indexes), docs, name, spec).Ok?
      ensures r.Ok? ==> indexes == IndexCreate(old(indexes), docs, name, spec).value
      ensures r.Err? ==> indexes == old(indexes) && r.error == IndexCreate(old(indexes), docs, name, spec).error
    {
      var created := IndexCreate(indexes, docs, name, spec);
      if created.Err? {
        return Err(created.error);
      }
      indexes := created.value;
      r := Ok(());
    }

    /** `db.collection("orders").dropIndex(name)`. */
    method DropIndex(name: string) returns (r: Result<(), MongoError>)
      requires Valid()
      modifies this`indexes
      ensures Valid()
      ensures r.Ok? <==> name in old(indexes)
      ensures r.Ok? ==> indexes == old(indexes) - {name}
      ensures r.Err? ==> indexes == old(indexes) && r.error == IndexNotFound(name)
    {
      var dropped := IndexDrop(indexes, name);
      if dropped.Err? {
        return Err(dropped.error);
      }
      indexes := dropped.value;
      r := Ok(());
    }

    /** `db.collection("orders").insertOne(doc)`. */
    method InsertOne(doc: OrderDoc) returns (r: Result<(), MongoError>)
      requires Valid()
      modifies this`docs
      ensures Valid()
      ensures r.Ok? <==> Inserted(indexes, old(docs), doc).Ok?
      ensures r.Ok? ==> docs == old(docs) + [doc]
      ensures r.Err? ==> docs == old(docs) && r.error == DuplicateKey
    {
      var inserted := Inserted(indexes, docs, doc);
      if inserted.Err? {
        return Err(inserted.error);
      }
      UniqueIndexRejectsDuplicate(indexes, docs, doc);
      docs := inserted.value;
      r := Ok(());
    }
  }

  /** The configured connection string and database name. */
  datatype MongoConfig = MongoConfig(uri: string, db: string)

  /** A `MongoClient`: created for a connection string, then connected. */
  class MongoClient {
    const uri: string
    var connected: bool

    constructor (uri: string)
      ensures this.uri == uri && !connected
    {
      this.uri := uri;
      connected := false;
    }

    /** `client.connect()`. */
    method Connect(fault: Option<MongoError>) returns (r: Result<(), MongoError>)
      modifies this
      ensures r.Ok? <==> fault.None?
      ensures r.Err? ==> r.error == fault.value
      ensures connected == (old(connected) || fault.None?)
    {
      if fault.Some? {
        return Err(fault.value);
      }
      connected := true;
      r := Ok(());
    }
  }

  /** `client.db(name)`: a database handle of a client. */
  datatype Db = Db(client: MongoClient, name: string)

  /** The module's state: the cached client, unset until the first
      `getMongo`; `created` counts the clients ever constructed. */
  class MongoModule {
    const config: MongoConfig
    var client: MongoClient?
    ghost var created: nat

    ghost predicate Valid()
      reads this
    {
      (client == null <==> created == 0) && created <= 1
    }

    constructor (config: MongoConfig)
      ensures Valid() && this.config == config && client == null && created == 0
    {
      this.config := config;
      client := null;
      created := 0;
    }

    /** `getMongo()`: with no client cached, construct one, store it, then
        connect it; in every case return the configured database of the
        current client. The client is stored before the connect, so a
        failing connect leaves it stored and later calls do not connect. */
    method GetMongo(connectFault: Option<MongoError>) returns (r: Result<Db, MongoError>)
      requires Valid()
      modifies this
      ensures Valid() && client != null
      ensures old(client) != null ==> client == old(client) && created == old(created) && r.Ok?
      ensures old(client) == null ==> fresh(client) && client.uri == config.uri && created == old(created) + 1
      ensures old(client) == null ==> client.connected == connectFault.None?
      ensures r.Ok? <==> old(client) != null || connectFault.None?
      ensures r.Ok? ==> r.value == Db(client, config.db)
      ensures r.Err? ==> r.error == connectFault.value
    {
      if client == null {
        var c := new MongoClient(config.uri);
        client := c;
        created := created + 1;
        var connecting := c.Connect(connectFault);
        if connecting.Err? {
          return Err(connecting.error);
        }
      }
      r := Ok(Db(client, config.db));
    }

    /** `ensureMongoIndexes()`: `getMongo`, then the index steps on the
        `orders` collection. */
    method EnsureMongoIndexes(orders: OrdersCollection, connectFault: Option<MongoError>) returns (r: Result<(), MongoError>)
      requires Valid() && orders.Valid()
      modifies this, orders`indexes
      ensures Valid() && client != null && (old(client) != null ==> client == old(client))
      ensures old(client) != null ==> created == old(created)
      ensures old(client) == null ==> fresh(client) && client.uri == config.uri && created == old(created) + 1
      ensures old(client) == null ==> client.connected == connectFault.None?
      ensures orders.Valid()
      ensures old(client) == null && connectFault.Some? ==>
                r == Err(connectFault.value) && orders.indexes == old(orders.indexes)
      ensures old(client) != null || connectFault.None? ==>
                && orders.indexes == EnsureIndexesOn(old(orders.indexes), orders.docs).table
                && r == (match EnsureIndexesOn(old(orders.indexes), orders.docs).failure
                         case None => Ok(())
                         case Some(e) => Err(e))
    {
      var db := GetMongo(connectFault);
      if db.Err? {
        return Err(db.error);
      }
      var step := orders.CreateIndex(UniqueName, UniqueSpec);
      if step.Err? {
        return Err(step.error);
      }
      var ignored := orders.DropIndex(LegacyName);
      step := orders.CreateIndex(Student2Name, Student2Spec);
      if step.Err? {
        return Err(step.error);
      }
      step := orders.CreateIndex(Student1Name, Student1Spec);
      if step.Err? {
        return Err(step.error);
      }
      r := Ok(());
    }
  }
}
