/**
  At most one execution. When a successful first send is always stored and the node truly rejected
  what it said it rejected, everything the node ever accepted for one request carries one sender and nonce.
*/
module Once {
  import opened Types
  import opened Watcher
  import opened System
  import opened Rows
  import opened Sends
  import opened Boosts

  /** Nothing was kept for a request that is still pending. */
  ghost predicate Unsent(rows: Table, born: Table, sends: seq<Send>, pcs: seq<Pc>) {
    && (forall id: Id :: id !in born ==> Kept(sends, id) == [])
    && (forall id: Id | id in rows && !rows[id].Submitted() && rows[id].wallet < |pcs| ::
          Storing(pcs[rows[id].wallet], id) || Kept(sends, id) == [])
    && (forall w :: 0 <= w < |pcs| && pcs[w].At? && !pcs[w].row.Submitted() ==> Kept(sends, pcs[w].row.id) == [])
  }

  ghost predicate Storing(pc: Pc, id: Id) {
    pc.At? && pc.row.id == id && pc.point.SubmitStore?
  }

  /** What the node accepted for a request is among what is kept for it. */
  ghost predicate AcceptedKept(sends: seq<Send>) {
    forall i :: 0 <= i < |sends| && sends[i].accepted ==> sends[i].hash in Kept(sends, sends[i].id)
  }

  lemma AcceptedAppend(sends: seq<Send>, send: Send)
    requires AcceptedKept(sends)
    requires send.boost || (send.ok && Kept(sends, send.id) == []) || !(send.ok || send.accepted)
    ensures AcceptedKept(sends + [send])
  {
    var sends' := sends + [send];
    forall i | 0 <= i < |sends'| && sends'[i].accepted ensures sends'[i].hash in Kept(sends', sends'[i].id) {
      KeptAppend(sends, send, sends'[i].id);
      if i < |sends| {
        assert sends'[i] == sends[i];
      }
    }
  }

  lemma UnsentStep(rows: Table, rows': Table, born: Table, sends: seq<Send>, sends': seq<Send>,
                   pcs: seq<Pc>, w: nat, pc': Pc, reply: Reply)
    requires Unsent(rows, born, sends, pcs) && w < |pcs| && Versions(rows, born)
    requires forall v :: 0 <= v < |pcs| && pcs[v].At? ==>
      pcs[v].row.wallet == v && pcs[v].row.id in born && SameRequest(pcs[v].row, born[pcs[v].row.id])
    requires Moves(rows, rows', w, pcs[w], pc', reply)
    requires forall id: Id :: !(pcs[w].At? && id == pcs[w].row.id) ==> Kept(sends', id) == Kept(sends, id)
    requires pcs[w].At? ==>
      var pc := pcs[w];
      && (pc.point.SubmitStore? ==> reply.Wrote() && pc.row.Submitted() && !(pc'.At? && pc'.point.SubmitStore?))
      && (pc'.At? && !pc'.row.Submitted() ==> Kept(sends', pc.row.id) == [])
      && (!pc.row.Submitted() && !(pc'.At? && pc'.point.SubmitStore?) ==> Kept(sends', pc.row.id) == [])
      && (pc.row.id in rows && pc.row.Submitted() ==> rows[pc.row.id].Submitted() || pc.point.SubmitStore?)
    ensures Unsent(rows', born, sends', pcs[w := pc'])
  {
    var pcs' := pcs[w := pc'];
    forall id: Id | id in rows' && !rows'[id].Submitted() && rows'[id].wallet < |pcs|
      ensures Storing(pcs'[rows'[id].wallet], id) || Kept(sends', id) == []
    {
      if !(pcs[w].At? && id == pcs[w].row.id) {
        assert rows'[id] == rows[id];
      }
    }
  }

  /** Within a Tick: nothing is kept for a pending row until its first submission goes through. */
  lemma UnsentWatch(cfg: Config, w: nat, row: Row, point: Point, reply: Reply, txs: seq<TxHash>)
    requires MemoryOk(cfg, row, point) && (!row.Submitted() ==> txs == [])
    ensures
      var txs', pc' := KeptAfter(cfg, w, row, point, reply, txs), NextAt(cfg, w, row, point, reply);
      && (point.SubmitStore? ==> row.Submitted() && !(pc'.At? && pc'.point.SubmitStore?))
      && (pc'.At? && !pc'.row.Submitted() ==> txs' == [])
      && (!row.Submitted() && !(pc'.At? && pc'.point.SubmitStore?) ==> txs' == [])
  {
  }

  lemma StoredSubmitted(stored: Row, row: Row, point: Point)
    requires StoredLags(stored, row, point) && row.Submitted() && !point.SubmitStore?
    ensures stored.Submitted()
  {
  }

  lemma AcceptedWatch(cfg: Config, t: Terms, s: World, w: nat, reply: Reply)
    requires Inv(cfg, s) && Unsent(s.store.rows, s.born, s.store.sends, s.pcs) && AcceptedKept(s.store.sends)
    requires t.rejectionsTrue
    requires Enabled(cfg, s, Watch(w, reply)) && Honours(cfg, t, s, Watch(w, reply))
    ensures AcceptedKept(Effect(s.store, w, Ask(cfg, w, s.pcs[w]), reply).sends)
  {
    var pc := s.pcs[w];
    var request := Ask(cfg, w, pc);
    if request.Submit? {
      assert View(cfg, s.store.rows, s.born, w, pc);
      SubmitsAt(cfg, w, pc.row, pc.point);
      AcceptedAppend(s.store.sends, Send(w, request.id, request.hash, request.boost, reply.ok, reply.accepted));
    }
  }

  lemma SubmitsAt(cfg: Config, w: nat, row: Row, point: Point)
    requires AskAt(cfg, w, row, point).Submit?
    ensures
      var request := AskAt(cfg, w, row, point);
      request.id == row.id && (if request.boost then point.BoostSend? else point.SendSubmit?)
  {
  }

  lemma OnceWatch(cfg: Config, t: Terms, s: World, w: nat, reply: Reply)
    requires Inv(cfg, s) && Unsent(s.store.rows, s.born, s.store.sends, s.pcs)
    requires t.submitStored
    requires Enabled(cfg, s, Watch(w, reply)) && Honours(cfg, t, s, Watch(w, reply))
    ensures
      var store' := Effect(s.store, w, Ask(cfg, w, s.pcs[w]), reply);
      Unsent(store'.rows, s.born, store'.sends, s.pcs[w := Next(cfg, w, s.pcs[w], reply)])
  {
    var pc := s.pcs[w];
    var store', pc' := Effect(s.store, w, Ask(cfg, w, pc), reply), Next(cfg, w, pc, reply);
    assert forall v :: 0 <= v < |s.pcs| ==> View(cfg, s.store.rows, s.born, v, s.pcs[v]);
    MovesWatch(cfg, s, w, reply);
    forall id: Id {
      KeptWatch(cfg, s.store, w, pc, reply, id);
    }
    if pc.At? {
      SavesUnsaved(cfg, w, pc.row, pc.point);
      UnsentWatch(cfg, w, pc.row, pc.point, reply, Kept(s.store.sends, pc.row.id));
      if pc.row.id in s.store.rows && pc.row.Submitted() && !pc.point.SubmitStore? {
        StoredSubmitted(s.store.rows[pc.row.id], pc.row, pc.point);
      }
    }
    UnsentStep(s.store.rows, store'.rows, s.born, s.store.sends, store'.sends, s.pcs, w, pc', reply);
  }

  lemma {:induction false} OnceHolds(cfg: Config, t: Terms, run: seq<Action>)
    requires Legal(cfg, t, run) && t.submitStored
    ensures
      var s := After(cfg, run);
      Unsent(s.store.rows, s.born, s.store.sends, s.pcs) && (t.rejectionsTrue ==> AcceptedKept(s.store.sends))
  {
    if run != [] {
      var s, a := After(cfg, run[..|run|-1]), run[|run|-1];
      OnceHolds(cfg, t, run[..|run|-1]);
      Reachable(cfg, t, run[..|run|-1]);
      match a
      case Watch(w, reply) =>
        OnceWatch(cfg, t, s, w, reply);
        if t.rejectionsTrue {
          AcceptedWatch(cfg, t, s, w, reply);
        }
        RetiredWatch(cfg, s, w, reply);
      case Insert(_) =>
      case Clean(_) =>
      case Advance(_) =>
    }
  }

  /**
    Over every run, whatever reorgs, failed sends and boosts it has: two transactions the node
    accepted for one request have one sender and nonce, so no chain holds them both.
  */
  lemma AtMostOnce(cfg: Config, t: Terms, run: seq<Action>, i: nat, j: nat, chain: seq<Block>)
    requires Legal(cfg, t, run) && t.submitStored && t.rejectionsTrue && ValidChain(chain)
    requires i < |After(cfg, run).store.sends| && j < |After(cfg, run).store.sends|
    requires
      var a, b := After(cfg, run).store.sends[i], After(cfg, run).store.sends[j];
      a.id == b.id && a.accepted && b.accepted
    ensures
      var a, b := After(cfg, run).store.sends[i].hash, After(cfg, run).store.sends[j].hash;
      && a.tx.from == b.tx.from && a.tx.nonce == b.tx.nonce
      && (Canonical(chain, a) && Canonical(chain, b) ==> a == b)
  {
    OnceHolds(cfg, t, run);
    var sends := After(cfg, run).store.sends;
    var txs := Kept(sends, sends[i].id);
    KeptAlike(cfg, t, run, sends[i].id);
    assert sends[i].hash in txs && sends[j].hash in txs;
  }
}
