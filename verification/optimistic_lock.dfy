/** The version column and what a flush of a changed row does (src/aipy/shared/db/mixins.py,
    apps/api/repositories.py, `_flush`). */
module OptimisticLock {

  datatype Versioned<F> = Versioned(fields: F, version: nat)

  /** One column: an UPDATE sets it only when it differs from what the session read. */
  function Column<T(==)>(stored: T, read: T, pending: T): T {
    if pending != read then pending else stored
  }

  datatype FlushResult<F> = Flushed(row: Versioned<F>, version: nat) | Stale

  /** Flushing a session: no statement when nothing changed, otherwise an UPDATE guarded by the version
      that was read; `overlay` applies `Column` to every column. The result's `version` is the version the
      session then believes in. */
  function Flush<F(==)>(overlay: (F, F, F) -> F, stored: Versioned<F>, read: Versioned<F>, pending: F): FlushResult<F> {
    if pending == read.fields then Flushed(stored, read.version)
    else if stored.version != read.version then Stale
    else Flushed(Versioned(overlay(stored.fields, read.fields, pending), stored.version + 1), read.version + 1)
  }
}
