/**
  The Kafka consumer of one partition: sessions that insert or ignore requests and mark offsets,
  over a table that everyone else changes meanwhile. No well-formed message below the committed
  offset is lost, and a duplicate changes nothing.
*/
module Consumer {
  import opened Types
  import opened BigEndian
  import opened System
  import Watcher

  /** A message value: text that does not parse, or a request event. */
  datatype Payload = Garbled | Event(id: Bytes, to: Bytes, data: Bytes)

  const ID_LENGTH := 27

  predicate WellFormed(p: Payload) {
    p.Event? && |p.id| == ID_LENGTH
  }

  /** One INSERT ... ON CONFLICT (id) DO NOTHING, with the table it met and the table it left. */
  datatype Upserted = Upserted(before: Table, row: Row, after: Table)

  /** The row of a message: unsubmitted, under some wallet. */
  predicate Carries(row: Row, p: Payload, wallets: nat) {
    && WellFormed(p) && row.id == Value(p.id) && row.to == p.to && row.data == p.data
    && row.Pending() && row.wallet < wallets
  }

  /** A new id is added; a known one is left as it is. */
  ghost predicate InsertsOrIgnores(u: Upserted) {
    if u.row.id in u.before then u.after == u.before else u.after == u.before[u.row.id := u.row]
  }

  /** Every step the consumer took was the insertion of one of the partition's messages. */
  ghost predicate Honest(steps: seq<Upserted>, log: seq<Payload>, wallets: nat) {
    forall u | u in steps :: InsertsOrIgnores(u) && exists k: nat :: k < |log| && Carries(u.row, log[k], wallets)
  }

  /** A request with the message's id was inserted at some time, by this consumer or another. */
  ghost predicate Arrived(rows: set<Row>, p: Payload) {
    WellFormed(p) ==> exists r :: r in rows && r.id == Value(p.id)
  }

  /** Nothing below the offset was lost. */
  ghost predicate NoLoss(rows: set<Row>, log: seq<Payload>, offset: nat) {
    offset <= |log| && forall k: nat :: k < offset ==> Arrived(rows, log[k])
  }

  class Database {
    var rows: Table
    ghost var arrived: set<Row>      // every row ever inserted

    constructor ()
      ensures Valid() && rows == map[] && arrived == {}
    {
      rows, arrived := map[], {};
    }

    /** Rows stand under their ids, each inserted at some time. */
    ghost predicate Valid()
      reads this
    {
      forall id: Id :: id in rows ==> rows[id].id == id && exists r :: r in arrived && r.id == id
    }

    /** The watchers, the cleaner and the consumers of other partitions run. */
    method Interfere()
      modifies this
      ensures Valid() && old(arrived) <= arrived
    {
      var table: Table := *;
      rows := map id | id in table :: table[id].(id := id);
      arrived := arrived + set id | id in rows :: rows[id];
      forall id: Id | id in rows ensures exists r :: r in arrived && r.id == id {
        assert rows[id] in arrived;
      }
    }

    /** The insert is one step; when it reports an error it may or may not have taken place. */
    method Upsert(row: Row, ghost steps: seq<Upserted>, ghost log: seq<Payload>, ghost wallets: nat)
      returns (failed: bool, ghost steps': seq<Upserted>)
      requires Honest(steps, log, wallets) && exists k: nat :: k < |log| && Carries(row, log[k], wallets)
      modifies this
      ensures Valid() && old(arrived) <= arrived
      ensures Honest(steps', log, wallets) && steps <= steps'
      ensures !failed ==>
        && |steps'| == |steps| + 1 && steps'[|steps|].row == row && steps'[|steps|].after == rows
        && exists r :: r in arrived && r.id == row.id
    {
      Interfere();
      failed := *;
      steps' := steps;
      var lost: bool := *;
      if !(failed && lost) {
        ghost var before := rows;
        if row.id !in rows {
          rows := rows[row.id := row];
          arrived := arrived + {row};
          assert row in arrived;
        }
        steps' := steps + [Upserted(before, row, rows)];
      }
    }
  }

  datatype Outcome = Cancelled | CaughtUp | Failed

  /** A consumer group session's claim on the partition. */
  class Session {
    const log: seq<Payload>
    const start: nat
    var marked: nat                  // the offset to commit

    constructor (log: seq<Payload>, start: nat)
      requires start <= |log|
      ensures this.log == log && this.start == start == marked
    {
      this.log, this.start, marked := log, start, start;
    }

    // Marks only ever move forward.
    method MarkMessage(offset: nat)
      modifies this
      ensures marked == if offset + 1 > old(marked) then offset + 1 else old(marked)
    {
      if offset + 1 > marked {
        marked := offset + 1;
      }
    }

    /**
      Messages are delivered in order from the start of the session, which may end before any of
      them. It stops at the first upsert that fails, leaving that message unmarked.
    */
    method ConsumeClaim(db: Database, numWallets: nat, ghost steps: seq<Upserted>)
      returns (outcome: Outcome, ghost steps': seq<Upserted>)
      requires numWallets > 0 && db.Valid() && marked == start <= |log|
      requires NoLoss(db.arrived, log, start) && Honest(steps, log, numWallets)
      modifies this, db
      ensures db.Valid() && old(db.arrived) <= db.arrived
      ensures start <= marked && NoLoss(db.arrived, log, marked)
      ensures Honest(steps', log, numWallets) && steps <= steps'
      ensures outcome.CaughtUp? ==> marked == |log|
      ensures outcome.Failed? ==> marked < |log| && WellFormed(log[marked])
    {
      var next := start;
      steps' := steps;
      while next < |log|
        invariant start <= next == marked <= |log|
        invariant db.Valid() && old(db.arrived) <= db.arrived
        invariant NoLoss(db.arrived, log, next)
        invariant Honest(steps', log, numWallets) && steps <= steps'
        decreases |log| - next
      {
        if * {
          return Cancelled, steps';
        }
        ghost var before := db.arrived;
        var msg := log[next];
        if msg.Garbled? {
          MarkMessage(next);
          next := next + 1;
          continue;
        }
        if |msg.id| != ID_LENGTH {
          MarkMessage(next);
          next := next + 1;
          continue;
        }
        var wallet: nat, now: int := *, *;
        wallet := wallet % numWallets;
        var tx := Row(Value(msg.id), msg.to, msg.data, wallet, now,
                      None, None, None, None, None, None, None, None, None);
        assert Carries(tx, log[next], numWallets);
        var failed;
        failed, steps' := db.Upsert(tx, steps', log, numWallets);
        StillNoLoss(before, db.arrived, log, next);
        if failed {
          return Outcome.Failed, steps';
        }
        MarkMessage(next);
        next := next + 1;
      }
      return CaughtUp, steps';
    }
  }

  lemma StillNoLoss(rows: set<Row>, rows': set<Row>, log: seq<Payload>, offset: nat)
    requires NoLoss(rows, log, offset) && rows <= rows'
    ensures NoLoss(rows', log, offset)
  {
    forall k: nat | k < offset ensures Arrived(rows', log[k]) {
      assert Arrived(rows, log[k]);
      if WellFormed(log[k]) {
        var r :| r in rows && r.id == Value(log[k].id);
        assert r in rows';
      }
    }
  }

  /**
    Sessions one after the other, until the context is cancelled after `sessions` of them. Each starts
    at the committed offset; at its end the broker has committed the marked offset or an older one.
  */
  method New(db: Database, log: seq<Payload>, numWallets: nat, sessions: nat)
    returns (committed: nat, ghost steps: seq<Upserted>)
    requires numWallets > 0 && db.Valid()
    modifies db
    ensures db.Valid() && NoLoss(db.arrived, log, committed)
    ensures Honest(steps, log, numWallets)
  {
    committed, steps := 0, [];
    for i := 0 to sessions
      invariant db.Valid() && NoLoss(db.arrived, log, committed)
      invariant Honest(steps, log, numWallets)
    {
      var session := new Session(log, committed);
      var outcome;
      outcome, steps := session.ConsumeClaim(db, numWallets, steps);
      var offset: nat := *;
      if committed <= offset <= session.marked {
        committed := offset;
      }
    }
  }

  /** A step on an id already in the table changes no row, wallet included; on a new id it changes no other row. */
  lemma DuplicatesChangeNothing(steps: seq<Upserted>, log: seq<Payload>, wallets: nat, i: nat, id: Id)
    requires Honest(steps, log, wallets) && i < |steps| && id in steps[i].before
    ensures id in steps[i].after && steps[i].after[id] == steps[i].before[id]
  {
    assert steps[i] in steps;
  }

  /** Well-formed messages with different ids never meet under one key. */
  lemma IdsApart(a: Payload, b: Payload)
    requires WellFormed(a) && WellFormed(b)
    ensures Value(a.id) == Value(b.id) <==> a.id == b.id
    ensures Value(a.id) < Value(b.id) <==> Below(a.id, b.id)
  {
    ValueOrders(a.id, b.id);
  }

  /** Each step of the consumer is an insert of the transition system, unless its id was removed before. */
  lemma StepIsInsert(cfg: Watcher.Config, s: World, steps: seq<Upserted>, log: seq<Payload>, i: nat)
    requires Honest(steps, log, |s.pcs|) && i < |steps| && s.store.rows == steps[i].before
    requires steps[i].row.id in s.born ==> steps[i].row.id in s.store.rows
    ensures Enabled(cfg, s, Insert(steps[i].row))
    ensures Apply(cfg, s, Insert(steps[i].row)).store.rows == steps[i].after
  {
    assert steps[i] in steps;
  }
}
