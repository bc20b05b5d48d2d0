# Dual-store backend core: connection scoping, document-store handle, mode and error mapping

This Dafny project models the parts of the food-ordering backend that guard
resource use and decide which store is authoritative:

- **`MariaDb`** (`mariadb.dfy`) — the relational connection manager. A `Pool`
  of at most `ConnectionLimit` = 10 leases, its `Connection`s, and the two
  scopes every relational access goes through: `WithConn` (take a lease, run
  the caller's callback, release the lease on every exit path) and `WithTx`
  (`WithConn` around begin, callback, commit, or rollback and rethrow). The
  callback is data: the writes it issues and how it ends (`Ok(v)` or
  `Err(e)`). Every driver call that can fail takes its failure from a
  `Faults` record. The pool keeps a ghost trace of the calls made on its
  connections. Pure functions (`ConnTrace`, `ConnOutcome`, `TxTrace`,
  `TxOutcome`, `TxFinalState`) state what each scope does. The methods are
  proved against them, and the lemmas prove the promised properties of them:
  exactly one release, begin before the callback, commit only on success,
  rollback on failure with the original error rethrown. Writes become
  durable all together or not at all.
- **`MongoDb`** (`mongodb.dfy`) — the document-store handle. `MongoModule`
  holds the lazily created module-level client. `GetMongo` creates the
  client on the first call only and always returns the configured database
  of the current client. The `orders` collection (`OrdersCollection`) has an
  index table, a map from index name to key pattern and unique flag.
  `EnsureMongoIndexes` updates it step by step: create the unique `orderId`
  index, drop the superseded index and ignore any failure, then create the
  two report indexes. The store's own index behaviour is modelled as
  functions (`IndexCreate`, `IndexDrop`, `Inserted`, `EnsureIndexesOn`):
  - creating an identical index is a no-op;
  - a clashing name or key pattern is an error;
  - dropping a missing index is an error;
  - the unique index rejects a second order with the same `orderId`.
- **`Server`** (`server.dfy`) — the decisions of the HTTP layer. `ActiveMode`
  is the `/api/health` handler's choice between `"sql"` and `"mongo"`.
  `HealthResponse` is the body that handler sends, with the marker-or-`null`
  `migration` field. `ErrorStatus`, `ErrorMessage`, `ErrorStack` and
  `ErrorResponse` are the error middleware's defaults. `Health` is the
  handler itself as a sequence of the modelled steps. JavaScript truthiness
  is written out (`Truthy`) because every one of these decisions depends on
  it.
- **`Outcomes`** (`outcomes.dfy`) — `Option`, `Result` and occurrence
  counting over traces.

Behaviour of the code that differs from what its own comments state. The
model follows the code in each case:

- The comment at `backend/src/db/mariadb.js:36` says partial writes do not
  leak out of `withTx`. When the rollback inside `withTx` itself fails, the
  rollback's error propagates, not the callback's or the commit's, and the
  transaction is left open. The original error is preserved only when the
  rollback succeeds (`MariaDb.TxRollbackErrorReplacesCause`).
- The comment at `backend/src/db/mongodb.js:28` says the legacy `dropIndex`
  failure is ignored because the index might not exist. The code ignores
  every failure of that call, not only "index not found".
- The comment at `backend/src/db/mongodb.js:8` says one `MongoClient`
  serves the whole app. `getMongo` stores the new client before it
  connects, so a failed connect leaves an unconnected client cached, and
  later calls do not connect it again.

## Model

| member | source | states |
|---|---|---|
| `MariaDb.Pool.constructor` | backend/src/db/mariadb.js:9-18 | the pool starts with no lease out, and its limit is 10 |
| `MariaDb.Pool.GetConnection` | backend/src/db/mariadb.js:22 | a lease is handed out only below the limit, as a fresh unreleased connection with no transaction; on failure nothing changes and the error is the driver's |
| `MariaDb.Pool.WithConn` | backend/src/db/mariadb.js:20-30 | leases return to their count before the call and stay within the limit; the result is the callback's result or error unchanged; the calls made are acquire, callback, release |
| `MariaDb.Pool.WithTx` | backend/src/db/mariadb.js:34-49 | leases are restored; result and calls are those of `withConn` around the transaction callback; the callback's writes become durable exactly when the call resolves; the connection used ends released with its transaction in `TxFinalState` |
| `MariaDb.Connection.InTransaction` | backend/src/db/mariadb.js:35-48 | begin outside the try, callback and commit inside it, rollback and rethrow in the catch; writes are published only on a successful commit |
| `MariaDb.Connection.BeginTransaction` | backend/src/db/mariadb.js:37 | a successful begin opens the transaction; a failing one leaves it as it was |
| `MariaDb.Connection.Run` | backend/src/db/mariadb.js:25 | the callback's outcome is returned unchanged; its writes are pending inside an open transaction and durable at once outside one |
| `MariaDb.Connection.Commit` | backend/src/db/mariadb.js:41 | a successful commit makes all pending writes durable together; a failing one changes nothing and leaves the transaction open |
| `MariaDb.Connection.Rollback` | backend/src/db/mariadb.js:45 | a successful rollback discards the pending writes; a failing one leaves the transaction open |
| `MariaDb.Connection.Release` | backend/src/db/mariadb.js:28 | the lease goes back to the pool and the connection is marked released |
| `MariaDb.LeaseTraceBalanced` | backend/src/db/mariadb.js:20-30 | a lease scope takes and gives back the same number of leases, one each when the lease was obtained, and releasing is its last call |
| `MariaDb.ConnReleasesOnce` | backend/src/db/mariadb.js:22-29 | `withConn` releases exactly once after the callback and returns or rethrows the callback's own outcome; without a lease the callback never runs |
| `MariaDb.TxReleasesOnce` | backend/src/db/mariadb.js:34-49 | on every path of `withTx` a lease taken is released exactly once, as the last call |
| `MariaDb.TxBeginsBeforeCallback` | backend/src/db/mariadb.js:37-40 | begin comes right before the callback, and the callback does not run when begin fails |
| `MariaDb.TxCommitsOnSuccess` | backend/src/db/mariadb.js:39-42 | on callback success with a working commit: acquire, begin, callback, commit, release; no rollback; the callback's result; transaction committed |
| `MariaDb.TxRollsBackOnFailure` | backend/src/db/mariadb.js:44-47 | on callback failure: rollback right after the callback, never commit, and the callback's own error is rethrown when the rollback works |
| `MariaDb.TxCommitFailureRollsBack` | backend/src/db/mariadb.js:39-47 | a failing commit is caught: rollback follows, and the commit's error propagates when the rollback works |
| `MariaDb.TxRollbackErrorReplacesCause` | backend/src/db/mariadb.js:44-47 | a failing rollback throws its own error out of the catch and leaves the transaction open |
| `MariaDb.TxOpenOnlyAfterFailedRollback` | backend/src/db/mariadb.js:35-48 | the transaction is committed exactly when the scope succeeds, and is open on return only when a needed rollback failed |
| `MongoDb.MongoModule.constructor` | backend/src/db/mongodb.js:4 | the module starts with no client |
| `MongoDb.MongoModule.GetMongo` | backend/src/db/mongodb.js:6-15 | with no client, exactly one new client is created for the configured URI, stored, then connected; with one, it is reused and nothing is created; the result is the configured database of the current client; the cached client never goes back to unset |
| `MongoDb.MongoClient.Connect` | backend/src/db/mongodb.js:10 | a successful connect marks the client connected; a failure is reported unchanged |
| `MongoDb.MongoModule.EnsureMongoIndexes` | backend/src/db/mongodb.js:17-38 | after `getMongo`, the orders index table becomes the one the four steps produce and the call fails exactly with the error that stopped them; a failed first connect changes no index; a first call caches exactly one new client, for the configured URI, connected exactly when the connect succeeded, and a later call keeps the cached client |
| `MongoDb.OrdersCollection.CreateIndex` | backend/src/db/mongodb.js:21 | `createIndex` succeeds with the store's result or fails leaving the table as it was, and keeps `orderId` unique while guarded |
| `MongoDb.OrdersCollection.DropIndex` | backend/src/db/mongodb.js:26 | `dropIndex` removes exactly that name when present, and otherwise fails with index-not-found and changes nothing |
| `MongoDb.OrdersCollection.InsertOne` | backend/src/db/mongodb.js:20-21 | an order is appended unless the unique index rejects it with a duplicate-key error, in which case the collection is unchanged |
| `MongoDb.EnsureIndexesContents` | backend/src/db/mongodb.js:21-37 | after success the unique `orderId` index and both report indexes are present with their definitions and the superseded index is gone |
| `MongoDb.EnsureIndexesLeavesOthers` | backend/src/db/mongodb.js:21-37 | every other index name is left as it was, whatever the outcome |
| `MongoDb.DropFailureIgnored` | backend/src/db/mongodb.js:25-29 | a run on a table without the superseded index (the drop fails) ends with the same failure and the same table as a run where the drop succeeds, minus that index |
| `MongoDb.EnsureIndexesIdempotent` | backend/src/db/mongodb.js:17-38 | a second run on the table a run left gives the same table and the same failure, so a second run after a successful one succeeds and changes nothing |
| `MongoDb.EnsureIndexesOnFreshStore` | backend/src/db/mongodb.js:17-38 | on a table holding at most the default `_id_` index and the superseded index, with distinct order ids, the run succeeds, drops the superseded index and adds exactly the three required indexes |
| `MongoDb.EnsureIndexesGuards` | backend/src/db/mongodb.js:20-21 | a run keeps the store consistent, and after success `orderId` is guarded by a unique index |
| `MongoDb.UniqueIndexRejectsDuplicate` | backend/src/db/mongodb.js:20-21 | with the unique index present, an order whose `orderId` exists is rejected with a duplicate-key error; an accepted order keeps the ids distinct |
| `Server.ActiveMode` | backend/src/server.js:49-57 | `"mongo"` if and only if a marker with a truthy `lastMigrationAt` exists and there is at least one order; `"sql"` without a marker or without orders |
| `Server.StaleMarkerReadsSql` | backend/src/server.js:51-57 | a marker left over in an emptied store, or one without a truthy timestamp, reads as `"sql"` |
| `Server.HealthResponseReports` | backend/src/server.js:59-75 | the health body reports success, the counts given, the marker exactly when there is one (otherwise `null`), and the mode rule |
| `Server.ErrorStatus` | backend/src/server.js:91-100 | the status is `err.status` when truthy and 500 otherwise, so it is never falsy |
| `Server.ErrorMessage` | backend/src/server.js:103-110 | the message is `err.message` when truthy and "internal error" otherwise, so it is never empty |
| `Server.ErrorStack` | backend/src/server.js:111-118 | the stack is `err.stack` as it is when truthy, and `null` otherwise |
| `Server.ErrorResponseDefaults` | backend/src/server.js:88-120 | the error body has `ok` false and the three defaults above |
| `Server.Health` | backend/src/server.js:29-76 | the health check never leaks a lease or writes relational data; it succeeds exactly when the ping, the first connect and every index step succeed; it then answers with `HealthResponse` and leaves the ensured index table; a failing ping ends it with that error before any index is touched; a failing first connect or index step ends it with that same document-store error, leaving the index table as far as the steps got; the relational calls are exactly one `withConn` scope (acquire, the ping, release); a failing ping creates no document-store client, a passing ping leaves one cached, on a first call exactly one new client for the configured URI, connected exactly when its connect succeeded, and a client already cached stays the cached one |

## Left out

- Pool blocking and concurrency: the model is sequential. A `getConnection`
  on an exhausted pool can only end with the driver's error, which the
  caller supplies. Interleaved requests and concurrent first calls to
  `getMongo` are not modelled.
- Callbacks are data. A callback that itself releases, commits, or opens
  a nested `withConn` on the connection it receives is not modelled.
- What the driver does with a connection released while its transaction is
  still open (after a failed rollback) is the driver's behaviour and is not
  modelled. The model reports the transaction as open at release.
- Failures of `createIndex` other than name, key-pattern and duplicate-key
  conflicts (network errors, for one) are not modelled. Every failure of
  the legacy `dropIndex` is ignored, and the model's drop can only fail
  with index-not-found.
- Unique indexes on fields other than `orderId` are not modelled, and
  neither are orders that lack an `orderId` (the store indexes those as
  `null`).
- The document-store driver's automatic connect on first use after a
  failed `connect` is not modelled.
- Server.ErrorStatus: reports the value handed to `Number()`. The conversion
  of a truthy non-numeric status (a string, `true`, an object) is not
  modelled, and neither is Express's rejection of an out-of-range code.
  Numbers are integers, so `NaN` and fractions are not modelled either.
- Server.Health: the three `countDocuments` calls run under `Promise.all`,
  and the `findOne` reads the marker. Their results are inputs, not
  queries. What Express does with a rejected handler is not modelled.
- Express setup, CORS, JSON body parsing, router mounting, `console.error`
  logging and `app.listen` are HTTP plumbing and I/O.
- The migration service behind `POST /api/migrate_to_mongo`
  (`services/migrateSqlToMongo`) is not part of this model. Its read,
  transform, write and marker behaviour is not modelled. The marker is an
  input to the health handler.
- The configuration module is not part of this model. Connection settings
  are parameters.
- The frontend components and the schema-file loader are UI state and file
  I/O.
