/** The gRPC call that deletes the oldest row, while others change the table between its two calls. */
module Cleaner {
  import opened Types
  import opened System
  import Watcher

  datatype Result = Cleaned(id: Id) | Error

  ghost predicate Oldest(rows: Table, row: Row) {
    row.id in rows && rows[row.id] == row && forall id: Id :: id in rows ==> row.createdAt <= rows[id].createdAt
  }

  class Database {
    var rows: Table

    constructor ()
      ensures rows == map[]
    {
      rows := map[];
    }

    /** Consumer and watchers run. */
    method Interfere()
      modifies this
      ensures forall id: Id :: id in rows ==> rows[id].id == id
    {
      var table: Table := *;
      rows := map id | id in table :: table[id].(id := id);
    }

    // SELECT ... ORDER BY created_at ASC LIMIT 1
    method First() returns (row: Option<Row>, ghost seen: Table)
      modifies this
      ensures if seen == map[] then row.None? else row.Some? && Oldest(seen, row.value)
    {
      Interfere();
      seen, row := rows, None;
      var left := rows.Keys;
      while left != {}
        invariant left <= rows.Keys && rows == seen
        invariant row.None? ==> left == rows.Keys
        invariant row.Some? ==> row.value.id in rows && rows[row.value.id] == row.value
        invariant row.Some? ==> forall id: Id :: id in rows && id !in left ==> row.value.createdAt <= rows[id].createdAt
        decreases left
      {
        var id :| id in left;
        left := left - {id};
        if row.None? || rows[id].createdAt < row.value.createdAt {
          row := Some(rows[id]);
        }
      }
    }

    /**
      It fails exactly when the table was empty when it was read or one of the two calls failed, and then deletes
      nothing; otherwise the id is that of the row that was oldest when it was read, and the row then under that
      id is the only one the deletion removed.
    */
    method CleanStuckMetaTransactions()
      returns (result: Result, ghost seen: Table, ghost before: Table, ghost readFails: bool, ghost deleteFails: bool)
      modifies this
      ensures result.Error? <==> seen == map[] || readFails || deleteFails
      ensures result.Cleaned? ==>
        result.id in seen && Oldest(seen, seen[result.id]) && rows == before - {result.id}
      ensures result.Error? ==> rows == before
    {
      var activeTx, failed: bool := *, *;
      activeTx, seen := First();
      before, readFails, deleteFails := rows, failed, false;
      if activeTx.None? || failed {
        return Error, seen, before, readFails, deleteFails;
      }
      Interfere();
      before := rows;
      failed := *;
      deleteFails := failed;
      if failed {
        return Error, seen, before, readFails, deleteFails;
      }
      rows := rows - {activeTx.value.id};
      return Cleaned(activeTx.value.id), seen, before, readFails, deleteFails;
    }
  }

  /** The deletion is a cleaning step of the transition system, or no step when the row is already gone. */
  lemma DeletionIsClean(cfg: Watcher.Config, s: World, before: Table, after: Table, id: Id)
    requires s.store.rows == before && after == before - {id}
    ensures if id in before then Enabled(cfg, s, Clean(id)) && Apply(cfg, s, Clean(id)).store.rows == after
            else after == s.store.rows
  {
  }
}
