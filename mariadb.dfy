/** The relational connection manager of backend/src/db/mariadb.js: one pool
    of at most ten connections, `withConn` (acquire a lease, run the caller's
    unit of work, release the lease on every exit path) and `withTx` (the same
    around begin / work / commit, or rollback and rethrow).

    The caller's unit of work is data here: the writes it issues on the
    connection and the outcome it ends with. Every driver call that can fail
    (getConnection, beginTransaction, commit, rollback) takes its failure from
    a `Faults` record chosen by the environment. The pool records, as a ghost
    trace, the order of the calls made on its connections. */
module MariaDb {
  import opened Outcomes

  /** `connectionLimit` of the pool. */
  const ConnectionLimit: nat := 10

  /** State of the transaction on one connection. */
  datatype TxState = NoTx | Open | Committed | RolledBack

  /** Calls made on pooled connections, in the order they are made: taking a
      lease, beginTransaction, running the caller's callback, commit,
      rollback, release. A call that fails is still recorded. */
  datatype Call = Acquire | Begin | Run | Commit | Rollback | Release

  /** The caller's callback: the writes it issues on the connection, then how
      it ends (its resolved value or the error it throws). */
  datatype Work<W, V, E> = Work(writes: seq<W>, outcome: Result<V, E>)

  /** Which driver calls fail, and with what error. */
  datatype Faults<E> = Faults(acquire: Option<E>, begin: Option<E>, commit: Option<E>, rollback: Option<E>)

  // ---------------------------------------------------------------------
  // Specification: the calls and the outcome of each scope, as functions
  // ---------------------------------------------------------------------

  /** A scope that holds a lease around `body`: nothing happens if taking the
      lease fails, otherwise the lease is taken, `body` runs, and the lease is
      given back. */
  function LeaseTrace<E>(acquire: Option<E>, body: seq<Call>): seq<Call>
  {
    if acquire.Some? then [] else [Acquire] + body + [Release]
  }

  /** Calls of `withConn`: the callback runs once inside the lease. */
  function ConnTrace<E>(acquire: Option<E>): seq<Call>
  {
    LeaseTrace(acquire, [Run])
  }

  /** What `withConn` resolves or rejects with. */
  function ConnOutcome<W, V, E>(work: Work<W, V, E>, acquire: Option<E>): Result<V, E>
  {
    if acquire.Some? then Err(acquire.value) else work.outcome
  }

  /** Whether the callback handed to `withConn` by `withTx` ends normally:
      the transaction began, the work succeeded and the commit went through. */
  predicate TxSucceeds<W, V, E>(work: Work<W, V, E>, f: Faults<E>)
  {
    f.begin.None? && work.outcome.Ok? && f.commit.None?
  }

  /** Calls made by the callback that `withTx` hands to `withConn`. */
  function TxBodyTrace<W, V, E>(work: Work<W, V, E>, f: Faults<E>): seq<Call>
  {
    if f.begin.Some? then [Begin]
    else if TxSucceeds(work, f) then [Begin, Run, Commit]
    else if work.outcome.Ok? then [Begin, Run, Commit, Rollback]
    else [Begin, Run, Rollback]
  }

  /** What that callback resolves or rejects with. A failing begin is not
      inside the try; a failing commit is, so it is caught like a failing
      callback; a failing rollback throws its own error out of the catch. */
  function TxBodyOutcome<W, V, E>(work: Work<W, V, E>, f: Faults<E>): Result<V, E>
  {
    if f.begin.Some? then Err(f.begin.value)
    else if TxSucceeds(work, f) then work.outcome
    else if f.rollback.Some? then Err(f.rollback.value)
    else if work.outcome.Ok? then Err(f.commit.value)
    else work.outcome
  }

  /** State of the transaction when that callback hands the connection back. */
  function TxFinalState<W, V, E>(work: Work<W, V, E>, f: Faults<E>): TxState
  {
    if f.begin.Some? then NoTx
    else if TxSucceeds(work, f) then Committed
    else if f.rollback.Some? then Open
    else RolledBack
  }

  /** Calls of `withTx`, which is `withConn` around its callback. */
  function TxTrace<W, V, E>(work: Work<W, V, E>, f: Faults<E>): seq<Call>
  {
    LeaseTrace(f.acquire, TxBodyTrace(work, f))
  }

  /** What `withTx` resolves or rejects with. */
  function TxOutcome<W, V, E>(work: Work<W, V, E>, f: Faults<E>): Result<V, E>
  {
    if f.acquire.Some? then Err(f.acquire.value) else TxBodyOutcome(work, f)
  }

  // ---------------------------------------------------------------------
  // Properties of the specification
  // ---------------------------------------------------------------------

  /** A lease scope whose body neither takes nor gives back leases takes and
      gives back the same number of leases: one each when the lease was
      obtained, none otherwise, and the release is its last call. */
  lemma {:induction false} LeaseTraceBalanced<E>(acquire: Option<E>, body: seq<Call>)
    requires Acquire !in body && Release !in body
    ensures Count(Acquire, LeaseTrace(acquire, body)) == Count(Release, LeaseTrace(acquire, body))
    ensures Count(Release, LeaseTrace(acquire, body)) == (if acquire.None? then 1 else 0)
    ensures acquire.None? ==> LeaseTrace(acquire, body)[0] == Acquire
    ensures acquire.None? ==> LeaseTrace(acquire, body)[|LeaseTrace(acquire, body)| - 1] == Release
  {
    if acquire.None? {
      var t := LeaseTrace(acquire, body);
      CountAppend(Acquire, [Acquire] + body, [Release]);
      CountAppend(Release, [Acquire] + body, [Release]);
      CountAppend(Acquire, [Acquire], body);
      CountAppend(Release, [Acquire], body);
      assert Count(Acquire, [Release]) == 0;
      assert Count(Release, [Acquire]) == 0;
    }
  }

  /** `withConn`: once the lease is obtained, the connection is released
      exactly once, after the callback ran, and the callback's own result or
      error is what comes back. When the lease cannot be obtained the
      callback never runs, nothing is released, and the pool's error comes
      back. */
  lemma ConnReleasesOnce<W, V, E>(work: Work<W, V, E>, acquire: Option<E>)
    ensures acquire.None? ==>
      && Count(Release, ConnTrace(acquire)) == 1
      && ConnTrace(acquire) == [Acquire, Run, Release]
      && ConnOutcome(work, acquire) == work.outcome
    ensures acquire.Some? ==>
      && ConnTrace(acquire) == []
      && ConnOutcome(work, acquire) == Err(acquire.value)
  {
    LeaseTraceBalanced(acquire, [Run]);
  }

  /** `withTx`: whatever the outcome, a lease taken is given back exactly
      once and as the last call, so the pool's lease count is restored. */
  lemma TxReleasesOnce<W, V, E>(work: Work<W, V, E>, f: Faults<E>)
    ensures Count(Acquire, TxTrace(work, f)) == Count(Release, TxTrace(work, f))
    ensures Count(Release, TxTrace(work, f)) == (if f.acquire.None? then 1 else 0)
    ensures f.acquire.None? ==> TxTrace(work, f)[|TxTrace(work, f)| - 1] == Release
  {
    LeaseTraceBalanced(f.acquire, TxBodyTrace(work, f));
  }

  /** `withTx` begins the transaction before the callback runs, and the
      callback does not run at all when begin fails. */
  lemma TxBeginsBeforeCallback<W, V, E>(work: Work<W, V, E>, f: Faults<E>)
    requires f.acquire.None?
    ensures TxTrace(work, f)[1] == Begin
    ensures f.begin.Some? <==> Run !in TxTrace(work, f)
    ensures f.begin.None? ==> TxTrace(work, f)[2] == Run
  {
  }

  /** When the callback succeeds and the commit goes through, `withTx`
      commits after the callback, never rolls back, and returns the
      callback's result. */
  lemma TxCommitsOnSuccess<W, V, E>(work: Work<W, V, E>, f: Faults<E>)
    requires f.acquire.None? && f.begin.None? && work.outcome.Ok? && f.commit.None?
    ensures TxTrace(work, f) == [Acquire, Begin, Run, Commit, Release]
    ensures Rollback !in TxTrace(work, f)
    ensures TxOutcome(work, f) == work.outcome
    ensures TxFinalState(work, f) == Committed
  {
  }

  /** When the callback throws, `withTx` rolls back right after it, never
      commits, and rethrows the callback's own error (provided the rollback
      itself does not fail). */
  lemma TxRollsBackOnFailure<W, V, E>(work: Work<W, V, E>, f: Faults<E>)
    requires f.acquire.None? && f.begin.None? && work.outcome.Err?
    ensures TxTrace(work, f) == [Acquire, Begin, Run, Rollback, Release]
    ensures Commit !in TxTrace(work, f)
    ensures f.rollback.None? ==> TxOutcome(work, f) == Err(work.outcome.error)
    ensures f.rollback.None? ==> TxFinalState(work, f) == RolledBack
  {
  }

  /** A commit that fails is inside the try: `withTx` then rolls back, and
      the commit's error is the one that propagates (provided the rollback
      itself does not fail). */
  lemma TxCommitFailureRollsBack<W, V, E>(work: Work<W, V, E>, f: Faults<E>)
    requires f.acquire.None? && f.begin.None? && work.outcome.Ok? && f.commit.Some?
    ensures TxTrace(work, f) == [Acquire, Begin, Run, Commit, Rollback, Release]
    ensures f.rollback.None? ==> TxOutcome(work, f) == Err(f.commit.value)
    ensures f.rollback.None? ==> TxFinalState(work, f) == RolledBack
  {
  }

  /** A rollback that fails throws out of the catch block, so its error, not
      the callback's or the commit's, is what `withTx` rejects with; the
      transaction is then still open when the connection is released. */
  lemma TxRollbackErrorReplacesCause<W, V, E>(work: Work<W, V, E>, f: Faults<E>)
    requires f.acquire.None? && f.begin.None? && !TxSucceeds(work, f) && f.rollback.Some?
    ensures TxOutcome(work, f) == Err(f.rollback.value)
    ensures TxFinalState(work, f) == Open
  {
  }

  /** The transaction is committed exactly when the callback handed to
      `withConn` succeeds, and it is left open only when a rollback was
      needed and failed. */
  lemma TxOpenOnlyAfterFailedRollback<W, V, E>(work: Work<W, V, E>, f: Faults<E>)
    ensures TxFinalState(work, f) == Committed <==> TxBodyOutcome(work, f).Ok?
    ensures TxFinalState(work, f) == Open <==> f.begin.None? && !TxSucceeds(work, f) && f.rollback.Some?
  {
  }

  // ---------------------------------------------------------------------
  // The pool and its connections
  // ---------------------------------------------------------------------

  /** The module-level pool. `leases` counts connections handed out and not
      yet released; `durable` holds the writes that a fresh transaction sees;
      `trace` records the calls made on the pool's connections. */
  class Pool<W> {
    const limit: nat
    var leases: nat
    var durable: seq<W>
    ghost var trace: seq<Call>

    /** Leases never exceed the limit, and every outstanding lease is an
        Acquire in the trace that no Release has matched yet. */
    ghost predicate Valid()
      reads this
    {
      leases <= limit && Count(Acquire, trace) == leases + Count(Release, trace)
    }

    constructor ()
      ensures Valid() && limit == ConnectionLimit
      ensures leases == 0 && durable == [] && trace == []
    {
      limit := ConnectionLimit;
      leases := 0;
      durable := [];
      trace := [];
    }

    /** `pool.getConnection()`. The model is sequential: while every lease is
        out nobody gives one back, so on an exhausted pool the call can only
        end with the driver's error, which the caller supplies as `fault`. */
    method GetConnection<E>(fault: Option<E>) returns (r: Result<Connection<W>, E>)
      requires Valid()
      requires leases == limit ==> fault.Some?
      modifies this`leases, this`trace
      ensures Valid()
      ensures r.Ok? <==> fault.None?
      ensures r.Err? ==> r.error == fault.value && leases == old(leases) && trace == old(trace)
      ensures r.Ok? ==> leases == old(leases) + 1 && trace == old(trace) + [Acquire]
      ensures r.Ok? ==> fresh(r.value) && r.value.pool == this && !r.value.released
      ensures r.Ok? ==> r.value.tx == NoTx && r.value.pending == []
    {
      if fault.Some? {
        return Err(fault.value);
      }
      var conn := new Connection(this);
      CountAppend(Acquire, trace, [Acquire]);
      CountAppend(Release, trace, [Acquire]);
      leases := leases + 1;
      trace := trace + [Acquire];
      r := Ok(conn);
    }

    /** `withConn(fn)`: take a lease, run the callback, and release the lease
        in the `finally`, whatever the callback did. Writes of the callback
        run outside any transaction, so each is durable as soon as it runs. */
    method WithConn<V, E>(work: Work<W, V, E>, acquire: Option<E>) returns (r: Result<V, E>)
      requires Valid()
      requires leases == limit ==> acquire.Some?
      modifies this
      ensures Valid() && leases == old(leases)
      ensures r == ConnOutcome(work, acquire)
      ensures trace == old(trace) + ConnTrace(acquire)
      ensures durable == old(durable) + (if acquire.None? then work.writes else [])
    {
      var leased := GetConnection(acquire);
      if leased.Err? {
        return Err(leased.error);
      }
      var conn := leased.value;
      r := conn.Run(work);
      conn.Release();
      LeaseTraceBalanced(acquire, [Run]);
      assert trace == old(trace) + ConnTrace(acquire);
      CountAppend(Acquire, old(trace), ConnTrace(acquire));
      CountAppend(Release, old(trace), ConnTrace(acquire));
    }

    /** `withTx(fn)`: `withConn` around a callback that begins a
        transaction, runs `fn`, and commits, or rolls back and rethrows.
        Either all the writes of `fn` become durable (exactly when the call
        resolves) or none do. `conn` is the connection that was used, if a
        lease was obtained. */
    method WithTx<V, E>(work: Work<W, V, E>, f: Faults<E>) returns (r: Result<V, E>, ghost conn: Connection?<W>)
      requires Valid()
      requires leases == limit ==> f.acquire.Some?
      modifies this
      ensures Valid() && leases == old(leases)
      ensures r == TxOutcome(work, f)
      ensures trace == old(trace) + TxTrace(work, f)
      ensures durable == old(durable) + (if r.Ok? then work.writes else [])
      ensures conn == null <==> f.acquire.Some?
      ensures conn != null ==> fresh(conn) && conn.released && conn.tx == TxFinalState(work, f)
    {
      conn := null;
      var leased := GetConnection(f.acquire);
      if leased.Err? {
        return Err(leased.error), conn;
      }
      var c := leased.value;
      r := c.InTransaction(work, f);
      c.Release();
      conn := c;
      LeaseTraceBalanced(f.acquire, TxBodyTrace(work, f));
      assert trace == old(trace) + TxTrace(work, f);
      CountAppend(Acquire, old(trace), TxTrace(work, f));
      CountAppend(Release, old(trace), TxTrace(work, f));
    }
  }

  /** A pooled connection: whether it was given back, the state of its
      transaction, and the writes of the open transaction that are not
      durable yet. */
  class Connection<W> {
    const pool: Pool<W>
    var released: bool
    var tx: TxState
    var pending: seq<W>

    constructor (p: Pool<W>)
      ensures pool == p && !released && tx == NoTx && pending == []
    {
      pool := p;
      released := false;
      tx := NoTx;
      pending := [];
    }

    /** `conn.beginTransaction()`. */
    method BeginTransaction<E>(fault: Option<E>) returns (r: Result<(), E>)
      requires !released && tx != Open
      modifies this`tx, pool`trace
      ensures pool.trace == old(pool.trace) + [Call.Begin]
      ensures r.Ok? <==> fault.None?
      ensures r.Err? ==> r.error == fault.value
      ensures tx == (if fault.None? then Open else old(tx))
    {
      pool.trace := pool.trace + [Call.Begin];
      if fault.Some? {
        return Err(fault.value);
      }
      tx := Open;
      r := Ok(());
    }

    /** The caller's callback running on this connection: inside an open
        transaction its writes wait for the commit, otherwise each is durable
        at once. */
    method Run<V, E>(work: Work<W, V, E>) returns (r: Result<V, E>)
      requires !released
      modifies this`pending, pool`durable, pool`trace
      ensures r == work.outcome
      ensures pool.trace == old(pool.trace) + [Call.Run]
      ensures tx == Open ==> pending == old(pending) + work.writes && pool.durable == old(pool.durable)
      ensures tx != Open ==> pending == old(pending) && pool.durable == old(pool.durable) + work.writes
    {
      pool.trace := pool.trace + [Call.Run];
      if tx == Open {
        pending := pending + work.writes;
      } else {
        pool.durable := pool.durable + work.writes;
      }
      r := work.outcome;
    }

    /** `conn.commit()`: on success the transaction's writes become durable
        together; on failure nothing changes and the transaction stays open. */
    method Commit<E>(fault: Option<E>) returns (r: Result<(), E>)
      requires !released && tx == Open
      modifies this`tx, this`pending, pool`durable, pool`trace
      ensures pool.trace == old(pool.trace) + [Call.Commit]
      ensures r.Ok? <==> fault.None?
      ensures r.Err? ==> r.error == fault.value
      ensures r.Ok? ==> tx == Committed && pending == [] && pool.durable == old(pool.durable) + old(pending)
      ensures r.Err? ==> tx == Open && pending == old(pending) && pool.durable == old(pool.durable)
    {
      pool.trace := pool.trace + [Call.Commit];
      if fault.Some? {
        return Err(fault.value);
      }
      pool.durable := pool.durable + pending;
      pending := [];
      tx := Committed;
      r := Ok(());
    }

    /** `conn.rollback()`: on success the transaction's writes are dropped;
        on failure nothing changes and the transaction stays open. */
    method Rollback<E>(fault: Option<E>) returns (r: Result<(), E>)
      requires !released && tx == Open
      modifies this`tx, this`pending, pool`trace
      ensures pool.trace == old(pool.trace) + [Call.Rollback]
      ensures r.Ok? <==> fault.None?
      ensures r.Err? ==> r.error == fault.value
      ensures r.Ok? ==> tx == RolledBack && pending == []
      ensures r.Err? ==> tx == Open && pending == old(pending)
    {
      pool.trace := pool.trace + [Call.Rollback];
      if fault.Some? {
        return Err(fault.value);
      }
      pending := [];
      tx := RolledBack;
      r := Ok(());
    }

    /** `conn.release()`: the lease goes back to the pool. */
    method Release()
      requires !released && pool.leases > 0
      modifies this`released, pool`leases, pool`trace
      ensures released
      ensures pool.leases == old(pool.leases) - 1
      ensures pool.trace == old(pool.trace) + [Call.Release]
    {
      released := true;
      pool.leases := pool.leases - 1;
      pool.trace := pool.trace + [Call.Release];
    }

    /** The callback that `withTx` hands to `withConn`: begin (outside the
        try), then the work and the commit inside the try; the catch rolls
        back and rethrows. */
    method InTransaction<V, E>(work: Work<W, V, E>, f: Faults<E>) returns (r: Result<V, E>)
      requires !released && tx == NoTx && pending == []
      modifies this`tx, this`pending, pool`durable, pool`trace
      ensures r == TxBodyOutcome(work, f)
      ensures pool.trace == old(pool.trace) + TxBodyTrace(work, f)
      ensures tx == TxFinalState(work, f)
      ensures pool.durable == old(pool.durable) + (if r.Ok? then work.writes else [])
    {
      var begun := BeginTransaction(f.begin);
      if begun.Err? {
        return Err(begun.error);
      }
      var thrown: Result<V, E>;
      var outcome := Run(work);
      if outcome.Ok? {
        var committed := Commit(f.commit);
        if committed.Ok? {
          return outcome;
        }
        thrown := Err(committed.error);
      } else {
        thrown := outcome;
      }
      var rolledBack := Rollback(f.rollback);
      if rolledBack.Err? {
        return Err(rolledBack.error);
      }
      r := thrown;
    }
  }
}
