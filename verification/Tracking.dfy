/**
  Reorganisations are followed: after every error-free Tick the surviving active row's mined
  block is that of the receipt the Tick saw, or null when it saw none.
*/
module Tracking {
  import opened Types
  import opened Watcher
  import opened System
  import opened Rows

  /** The row's mined columns say what the receipt says. */
  predicate Tracks(row: Row, receipt: Option<Receipt>) {
    match receipt
    case None => row.minedNumber.None? && row.minedHash.None?
    case Some(r) => row.minedNumber == Some(r.number) && row.minedHash == Some(r.hash)
  }

  /** What a Tick under way has made of the receipt it saw. */
  ghost predicate TrackAt(rows: Table, row: Row, point: Point, seen: Option<Sighting>) {
    if point.ActiveHead? || point.ActiveReceipt? then seen.None?
    else if point.MinedPost? || point.ConfirmPost? then seen == Some(Sighting(row.id, Some(point.receipt)))
    else if point.MinedStore? then seen.Some? && seen.value.id == row.id && Tracks(row, seen.value.receipt)
    else if point.ConfirmDelete? then seen.Some? && seen.value.id == row.id
    else if point.FailPost? || point.FailDelete? then seen.Some? ==> seen.value.id == row.id || seen.value.id !in rows
    else if point.Sending() || point.SubmitStore? || point.SubmitPost? then seen.Some? ==> seen.value.id !in rows
    else seen == Some(Sighting(row.id, None)) && Tracks(row, None)
  }

  ghost predicate TrackInv(rows: Table, born: Table, w: nat, pc: Pc, seen: Option<Sighting>) {
    && (seen.Some? ==> InWallet(born, seen.value.id, w))
    && match pc
       case Idle(err) => !err && seen.Some? && seen.value.id in rows ==> Tracks(rows[seen.value.id], seen.value.receipt)
       case Picking => seen.Some? ==> seen.value.id !in rows
       case At(row, point) => TrackAt(rows, row, point, seen)
  }

  /** What the next point may rely on, given the table as it is before the call. */
  ghost predicate Follows(rows: Table, row: Row, point: Point, reply: Reply, pc': Pc, seen': Option<Sighting>) {
    && (pc'.At? ==> TrackAt(rows, pc'.row, pc'.point, seen'))
    && (seen'.Some? && seen'.value.id in rows ==> seen'.value.id == row.id)
    && (pc' == Idle(false) && seen'.Some? && seen'.value.id == row.id && row.id in rows ==>
          point.FailDelete? || Tracks(row, seen'.value.receipt))
    && (pc'.Picking? ==> point.ConfirmDelete? && reply.Done?)
    && (pc' == Idle(false) && (point.Unsaved() != {} || point.FailDelete?) ==> reply.Done?)
  }

  lemma TrackReceipt(cfg: Config, chain: seq<Block>, rows: Table, w: nat, row: Row, point: Point, reply: Reply)
    requires point.ActiveReceipt? && row.Submitted() && Consistent(cfg, row) && ValidChain(chain)
    requires reply.Included? ==>
      InBlock(chain, reply.receipt.number, row.hash.value) && chain[reply.receipt.number].hash == reply.receipt.hash
    ensures Follows(rows, row, point, reply, NextAt(cfg, w, row, point, reply), Sight(At(row, point), reply, None))
  {
  }

  lemma TrackNext(cfg: Config, rows: Table, w: nat, row: Row, point: Point, reply: Reply, seen: Option<Sighting>)
    requires TrackAt(rows, row, point, seen) && MemoryOk(cfg, row, point) && !point.ActiveReceipt?
    ensures Follows(rows, row, point, reply, NextAt(cfg, w, row, point, reply), Sight(At(row, point), reply, seen))
  {
  }

  lemma TrackStep(rows: Table, rows': Table, born: Table, w: nat, pc: Pc, pc': Pc, reply: Reply,
                  seen: Option<Sighting>, seen': Option<Sighting>)
    requires TrackInv(rows, born, w, pc, seen) && Moves(rows, rows', w, pc, pc', reply)
    requires pc.At? ==> Follows(rows, pc.row, pc.point, reply, pc', seen') && InWallet(born, pc.row.id, w)
    requires pc.Picking? ==> seen' == seen
    requires pc.Idle? ==> seen' == None
    requires seen'.Some? ==> seen' == seen || (pc.At? && seen'.value.id == pc.row.id)
    ensures TrackInv(rows', born, w, pc', seen')
  {
  }

  lemma TrackOther(rows: Table, rows': Table, born: Table, w: nat, pc: Pc, reply: Reply,
                   v: nat, other: Pc, seen: Option<Sighting>)
    requires TrackInv(rows, born, v, other, seen) && RowStep(rows, rows', pc, reply) && v != w
    requires pc.At? ==> InWallet(born, pc.row.id, w)
    ensures TrackInv(rows', born, v, other, seen)
  {
  }

  ghost predicate TracksOk(s: World) {
    |s.seen| == |s.pcs|
    && forall w :: 0 <= w < |s.pcs| ==> TrackInv(s.store.rows, s.born, w, s.pcs[w], s.seen[w])
  }

  lemma TrackOwn(cfg: Config, s: World, w: nat, reply: Reply)
    requires Inv(cfg, s) && TracksOk(s) && Enabled(cfg, s, Watch(w, reply))
    ensures
      var pc := s.pcs[w];
      TrackInv(Effect(s.store, w, Ask(cfg, w, pc), reply).rows, s.born, w, Next(cfg, w, pc, reply),
               Sight(pc, reply, s.seen[w]))
  {
    var pc, seen := s.pcs[w], s.seen[w];
    assert View(cfg, s.store.rows, s.born, w, pc) && TrackInv(s.store.rows, s.born, w, pc, seen);
    MovesWatch(cfg, s, w, reply);
    if pc.At? && pc.point.ActiveReceipt? {
      TrackReceipt(cfg, s.chain, s.store.rows, w, pc.row, pc.point, reply);
    } else if pc.At? {
      TrackNext(cfg, s.store.rows, w, pc.row, pc.point, reply, seen);
    }
    TrackStep(s.store.rows, Effect(s.store, w, Ask(cfg, w, pc), reply).rows, s.born, w, pc, Next(cfg, w, pc, reply),
              reply, seen, Sight(pc, reply, seen));
  }

  lemma TrackWatch(cfg: Config, s: World, w: nat, reply: Reply)
    requires Inv(cfg, s) && TracksOk(s) && Enabled(cfg, s, Watch(w, reply))
    ensures TracksOk(Apply(cfg, s, Watch(w, reply)))
  {
    var s' := Apply(cfg, s, Watch(w, reply));
    RetiredWatch(cfg, s, w, reply);
    TrackOwn(cfg, s, w, reply);
    MovesWatch(cfg, s, w, reply);
    assert View(cfg, s.store.rows, s.born, w, s.pcs[w]);
    forall v | 0 <= v < |s.pcs| ensures TrackInv(s'.store.rows, s'.born, v, s'.pcs[v], s'.seen[v]) {
      assert TrackInv(s.store.rows, s.born, v, s.pcs[v], s.seen[v]);
      if v != w {
        TrackOther(s.store.rows, s'.store.rows, s.born, w, s.pcs[w], reply, v, s.pcs[v], s.seen[v]);
      }
    }
  }

  lemma TrackRest(cfg: Config, s: World, a: Action)
    requires Inv(cfg, s) && TracksOk(s) && Enabled(cfg, s, a) && !a.Watch?
    ensures TracksOk(Apply(cfg, s, a))
  {
    var s' := Apply(cfg, s, a);
    forall v | 0 <= v < |s.pcs| ensures TrackInv(s'.store.rows, s'.born, v, s'.pcs[v], s'.seen[v]) {
      assert TrackInv(s.store.rows, s.born, v, s.pcs[v], s.seen[v]);
    }
  }

  lemma {:induction false} TracksHold(cfg: Config, t: Terms, run: seq<Action>)
    requires Legal(cfg, t, run)
    ensures TracksOk(After(cfg, run))
  {
    if run != [] {
      var s, a := After(cfg, run[..|run|-1]), run[|run|-1];
      TracksHold(cfg, t, run[..|run|-1]);
      Reachable(cfg, t, run[..|run|-1]);
      if a.Watch? {
        TrackWatch(cfg, s, a.w, a.reply);
      } else {
        TrackRest(cfg, s, a);
      }
    }
  }

  // ---------------------------------------------------------------- the Tick saw a receipt answer

  /** The row with which the wallet's current or last Tick opened, if its first query found one. */
  function Opened(cfg: Config, run: seq<Action>, w: nat): Option<Id> {
    if run == [] then None
    else
      var s, a := After(cfg, run[..|run|-1]), run[|run|-1];
      if a.Watch? && a.w == w && w < |s.pcs| && s.pcs[w].Idle?
      then if a.reply.Found? then Some(a.reply.row.id) else None
      else Opened(cfg, run[..|run|-1], w)
  }

  /** Once past the receipt query without an error, a Tick has a sighting of the row it opened with. */
  predicate SeesOpened(pc: Pc, seen: Option<Sighting>, target: Option<Id>) {
    target.Some? && pc != Idle(true) ==>
      if pc.At? && (pc.point.ActiveHead? || pc.point.ActiveReceipt?) then pc.row.id == target.value
      else seen.Some? && seen.value.id == target.value
  }

  lemma SeesStep(cfg: Config, w: nat, pc: Pc, reply: Reply, seen: Option<Sighting>, target: Option<Id>)
    requires SeesOpened(pc, seen, target)
    ensures
      var target' := if pc.Idle? then if reply.Found? then Some(reply.row.id) else None else target;
      SeesOpened(Next(cfg, w, pc, reply), Sight(pc, reply, seen), target')
  {
  }

  lemma {:induction false} SeesHold(cfg: Config, t: Terms, run: seq<Action>, w: nat)
    requires Legal(cfg, t, run) && w < |cfg.senders|
    ensures
      var s := After(cfg, run);
      |s.pcs| == |s.seen| == |cfg.senders| && SeesOpened(s.pcs[w], s.seen[w], Opened(cfg, run, w))
  {
    if run != [] {
      var before, a := run[..|run|-1], run[|run|-1];
      SeesHold(cfg, t, before, w);
      var s := After(cfg, before);
      if a.Watch? && a.w == w {
        SeesStep(cfg, w, s.pcs[w], a.reply, s.seen[w], Opened(cfg, before, w));
      }
    }
  }

  /**
    Over every run: a wallet's last Tick that ended without error and opened with a row has seen a receipt answer
    for that row, and if the row is still stored, its mined block is that of the receipt, or null for none.
  */
  lemma ReorgsAreTracked(cfg: Config, t: Terms, run: seq<Action>, w: nat)
    requires Legal(cfg, t, run) && w < |cfg.senders|
    ensures
      var s, target := After(cfg, run), Opened(cfg, run, w);
      && |s.pcs| == |s.seen| == |cfg.senders|
      && (s.pcs[w] == Idle(false) && target.Some? ==> s.seen[w].Some? && s.seen[w].value.id == target.value)
      && (s.pcs[w] == Idle(false) && s.seen[w].Some? && s.seen[w].value.id in s.store.rows ==>
            Tracks(s.store.rows[s.seen[w].value.id], s.seen[w].value.receipt))
  {
    TracksHold(cfg, t, run);
    SeesHold(cfg, t, run, w);
    Reachable(cfg, t, run);
    var s := After(cfg, run);
    assert TrackInv(s.store.rows, s.born, w, s.pcs[w], s.seen[w]);
  }
}
