/** The decisions of backend/src/server.js: the `/api/health` handler, which
    checks both stores and reports which one is active, and the error
    middleware, which turns any thrown error into a JSON error response.

    The store counts and the migration marker the handler reads are inputs;
    the marker is whatever the migration service last wrote, and that
    service is not part of this model. */
module Server {
  import opened Outcomes
  import MariaDb
  import MongoDb

  /** JavaScript values, as far as the handlers look at them. Numbers are
      integers here. */
  datatype JsValue = Undefined | Null | Bool(b: bool) | Num(n: int) | Str(s: string) | Object(id: nat)

  /** JavaScript truthiness (`Boolean(v)`, or `v` as an `if` condition). */
  predicate Truthy(v: JsValue)
  {
    match v
    case Undefined => false
    case Null => false
    case Bool(b) => b
    case Num(n) => n != 0
    case Str(s) => s != ""
    case Object(_) => true
  }

  // ---------------------------------------------------------------------
  // Mode resolution and the health response
  // ---------------------------------------------------------------------

  /** The migration marker `{ source, lastMigrationAt, migrated }` as read
      from the `meta` collection (a field the document lacks reads as
      `Undefined`). */
  datatype Marker = Marker(source: JsValue, lastMigrationAt: JsValue, migrated: JsValue)

  /** `migration?.lastMigrationAt`, where `None` is the `null` that `findOne`
      returns when there is no marker. */
  function LastMigrationAt(found: Option<Marker>): JsValue
  {
    match found
    case None => Undefined
    case Some(m) => m.lastMigrationAt
  }

  /** The `activeMode` values "sql" and "mongo". */
  datatype Mode = Sql | Mongo

  function ModeName(mode: Mode): string
  {
    match mode
    case Sql => "sql"
    case Mongo => "mongo"
  }

  /** The health handler's choice of the active store from the marker and
      the number of order documents. */
  function ActiveMode(found: Option<Marker>, orders: nat): (mode: Mode)
    ensures mode == Mongo <==> found.Some? && Truthy(found.value.lastMigrationAt) && orders > 0
    ensures found.None? ==> mode == Sql
    ensures orders == 0 ==> mode == Sql
  {
    if Truthy(LastMigrationAt(found)) && orders > 0 then Mongo else Sql
  }

  datatype Counts = Counts(restaurants: nat, people: nat, orders: nat)

  /** The JSON body of a successful health check; `migration` is `None` for
      the JSON `null`. */
  datatype HealthBody = HealthBody(ok: bool, activeMode: Mode, mariadbOk: bool, mongoOk: bool,
                                   counts: Counts, migration: Option<Marker>)

  /** The body the health handler sends once both stores answered. The
      `migration` field is the marker when `findOne` found one (a document is
      always truthy) and `null` otherwise. */
  function HealthResponse(counts: Counts, found: Option<Marker>): HealthBody
  {
    var migration := match found case Some(m) => Some(m) case None => None;
    HealthBody(true, ActiveMode(found, counts.orders), true, true, counts, migration)
  }

  /** The health body reports the counts it was given, the marker exactly
      when there is one, and "mongo" exactly when a marker with a truthy
      `lastMigrationAt` exists and there is at least one order. */
  lemma HealthResponseReports(counts: Counts, found: Option<Marker>)
    ensures var body := HealthResponse(counts, found);
      && body.ok && body.mariadbOk && body.mongoOk
      && body.counts == counts
      && (found.Some? ==> body.migration == Some(found.value))
      && (found.None? ==> body.migration.None?)
      && (ModeName(body.activeMode) == "mongo" <==>
            found.Some? && Truthy(found.value.lastMigrationAt) && counts.orders > 0)
  {
  }

  /** An emptied document store reads as "sql" even when a stale marker
      remains, and a marker without a truthy timestamp never selects
      "mongo". */
  lemma StaleMarkerReadsSql(m: Marker, orders: nat)
    ensures ActiveMode(Some(m), 0) == Sql
    ensures !Truthy(m.lastMigrationAt) ==> ActiveMode(Some(m), orders) == Sql
  {
  }

  // ---------------------------------------------------------------------
  // The error middleware
  // ---------------------------------------------------------------------

  /** The fields of a thrown error that the middleware reads (a field the
      error lacks is `Undefined`). */
  datatype ErrorValue = ErrorValue(status: JsValue, message: JsValue, stack: JsValue)

  /** The response: `status` is the value handed to `Number` for the HTTP
      status, and `ok`, `error`, `stack` form the JSON body. */
  datatype ErrorBody = ErrorBody(status: JsValue, ok: bool, error: JsValue, stack: JsValue)

  /** `err.status` when truthy, otherwise 500: never a falsy status. */
  function ErrorStatus(err: ErrorValue): (status: JsValue)
    ensures Truthy(status)
    ensures Truthy(err.status) ==> status == err.status
    ensures !Truthy(err.status) ==> status == Num(500)
  {
    if Truthy(err.status) then err.status else Num(500)
  }

  /** `err.message` when truthy, otherwise "internal error": never empty. */
  function ErrorMessage(err: ErrorValue): (message: JsValue)
    ensures Truthy(message)
    ensures Truthy(err.message) ==> message == err.message
    ensures !Truthy(err.message) ==> message == Str("internal error")
  {
    if Truthy(err.message) then err.message else Str("internal error")
  }

  /** `err.stack` when truthy, otherwise `null`. */
  function ErrorStack(err: ErrorValue): (stack: JsValue)
    ensures Truthy(stack) <==> Truthy(err.stack)
    ensures Truthy(err.stack) ==> stack == err.stack
    ensures !Truthy(err.stack) ==> stack == Null
  {
    if Truthy(err.stack) then err.stack else Null
  }

  function ErrorResponse(err: ErrorValue): ErrorBody
  {
    ErrorBody(ErrorStatus(err), false, ErrorMessage(err), ErrorStack(err))
  }

  /** The error response never reports success, keeps every truthy field of
      the error, and falls back to 500, "internal error" and `null` for
      falsy ones. */
  lemma ErrorResponseDefaults(err: ErrorValue)
    ensures var body := ErrorResponse(err);
      && !body.ok
      && body.status == (if Truthy(err.status) then err.status else Num(500))
      && body.error == (if Truthy(err.message) then err.message else Str("internal error"))
      && body.stack == (if Truthy(err.stack) then err.stack else Null)
  {
  }

  // ---------------------------------------------------------------------
  // The health handler
  // ---------------------------------------------------------------------

  /** The error a failing health check rejects with: the relational store's
      error or the document store's, unchanged. */
  datatype HealthError<E> = SqlFailure(sql: E) | MongoFailure(mongo: MongoDb.MongoError)

  /** `GET /api/health`: a `SELECT 1` through `withConn` (whose outcome is
      `ping`), `ensureMongoIndexes`, `getMongo`, then the response built
      from the counts and the marker read. Each awaited step that fails
      ends the handler with its error. */
  method Health<W, E>(pool: MariaDb.Pool<W>, acquire: Option<E>, ping: Result<JsValue, E>,
                      mongo: MongoDb.MongoModule, orders: MongoDb.OrdersCollection,
                      connectFault: Option<MongoDb.MongoError>, counts: Counts, found: Option<Marker>)
    returns (r: Result<HealthBody, HealthError<E>>)
    requires pool.Valid() && (pool.leases == pool.limit ==> acquire.Some?)
    requires mongo.Valid() && orders.Valid()
    modifies pool, mongo, orders`indexes
    ensures pool.Valid() && pool.leases == old(pool.leases) && pool.durable == old(pool.durable)
    ensures mongo.Valid() && orders.Valid()
    ensures acquire.Some? || ping.Err? ==> mongo.client == old(mongo.client) && mongo.created == old(mongo.created)
    ensures pool.trace == old(pool.trace) + MariaDb.ConnTrace(acquire)
    ensures acquire.None? && ping.Ok? ==> mongo.client != null
    ensures acquire.None? && ping.Ok? && old(mongo.client) == null ==>
      && fresh(mongo.client) && mongo.client.uri == mongo.config.uri
      && mongo.created == old(mongo.created) + 1
      && mongo.client.connected == connectFault.None?
    ensures old(mongo.client) != null ==> mongo.client == old(mongo.client) && mongo.created == old(mongo.created)
    ensures acquire.Some? ==> r == Err(SqlFailure(acquire.value)) && orders.indexes == old(orders.indexes)
    ensures acquire.None? && ping.Err? ==> r == Err(SqlFailure(ping.error)) && orders.indexes == old(orders.indexes)
    ensures r.Ok? ==> r.value == HealthResponse(counts, found)
    ensures r.Ok? <==>
      && acquire.None? && ping.Ok?
      && (old(mongo.client) != null || connectFault.None?)
      && MongoDb.EnsureIndexesOn(old(orders.indexes), orders.docs).failure.None?
    ensures r.Ok? ==> orders.indexes == MongoDb.EnsureIndexesOn(old(orders.indexes), orders.docs).table
    ensures acquire.None? && ping.Ok? && old(mongo.client) == null && connectFault.Some? ==>
      r == Err(MongoFailure(connectFault.value)) && orders.indexes == old(orders.indexes)
    ensures acquire.None? && ping.Ok? && (old(mongo.client) != null || connectFault.None?) ==>
      && orders.indexes == MongoDb.EnsureIndexesOn(old(orders.indexes), orders.docs).table
      && (MongoDb.EnsureIndexesOn(old(orders.indexes), orders.docs).failure.Some? ==>
            r == Err(MongoFailure(MongoDb.EnsureIndexesOn(old(orders.indexes), orders.docs).failure.value)))
  {
    var pinged := pool.WithConn(MariaDb.Work([], ping), acquire);
    if pinged.Err? {
      return Err(SqlFailure(pinged.error));
    }
    var ensured := mongo.EnsureMongoIndexes(orders, connectFault);
    if ensured.Err? {
      return Err(MongoFailure(ensured.error));
    }
    var db := mongo.GetMongo(connectFault);
    assert db.Ok?;
    r := Ok(HealthResponse(counts, found));
  }
}
