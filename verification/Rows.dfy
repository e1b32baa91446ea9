/**
  What every reachable table looks like, whatever fails and however steps interleave: rows are
  internally consistent, the row a watcher holds agrees with the stored one up to the columns it
  is about to write, and a wallet never has two submitted rows.
*/
module Rows {
  import opened Types
  import opened Watcher
  import opened System

  /** The columns set together are null together, and the hash is that of the row's own transaction. */
  ghost predicate Consistent(cfg: Config, row: Row) {
    && row.submittedNumber.Some? == row.submittedHash.Some? == row.nonce.Some?
    && row.submittedNumber.Some? == row.gasPrice.Some? == row.hash.Some?
    && row.minedNumber.Some? == row.minedHash.Some?
    && row.boostedNumber.Some? == row.boostedHash.Some?
    && (row.minedNumber.Some? ==> row.Submitted())
    && (row.boostedNumber.Some? ==> row.Submitted() && row.boostedHash == row.hash)
    && (row.minedNumber.Some? ==> row.minedHash.value.number == row.minedNumber.value)
    && (row.Submitted() ==>
          && Signs(cfg, row, row.hash.value.tx)
          && row.nonce.value == row.hash.value.tx.nonce
          && row.gasPrice.value == row.hash.value.tx.gasPrice)
  }

  /** `tx` carries the row's payload from the sender of the row's wallet. */
  predicate Signs(cfg: Config, row: Row, tx: Tx) {
    tx.from == SenderOf(cfg, row.wallet) && tx.to == row.to && tx.data == row.data
  }

  predicate SameRequest(a: Row, b: Row) {
    a.id == b.id && a.to == b.to && a.data == b.data && a.wallet == b.wallet && a.createdAt == b.createdAt
  }

  /** Every id ever inserted is in the table, or was removed once and by one party. */
  ghost predicate Accounted(s: World) {
    && s.born.Keys == s.store.rows.Keys + s.retired + s.cleaned
    && s.store.rows.Keys !! s.retired !! s.cleaned
  }

  /** A stored row is a version of the row inserted under its id. */
  ghost predicate Versions(rows: Table, born: Table) {
    forall id: Id :: id in rows ==> id in born && rows[id].id == id && SameRequest(rows[id], born[id])
  }

  ghost predicate AllConsistent(cfg: Config, rows: Table) {
    forall id: Id :: id in rows ==> Consistent(cfg, rows[id])
  }

  /** What the row in memory is known to be, point by point. */
  ghost predicate MemoryOk(cfg: Config, row: Row, point: Point) {
    match point
    case FailPost(_) => true
    case FailDelete => true
    case ActiveHead => row.Submitted()
    case ActiveReceipt(_) => row.Submitted()
    case MinedPost(receipt) => row.Submitted() && row.minedNumber.None? && receipt.hash.number == receipt.number
    case MinedStore => row.minedNumber.Some?
    case ConfirmPost(_) => row.minedNumber.Some?
    case ConfirmDelete => row.minedNumber.Some?
    case Unmine(_) => row.Submitted() && row.minedNumber.None?
    case BoostPrice(_) => row.Submitted() && row.minedNumber.None?
    case BoostGas(_, _) => row.Submitted() && row.minedNumber.None?
    case BoostSign(_, tx) =>
      row.Submitted() && row.minedNumber.None? && Signs(cfg, row, tx) && row.nonce == Some(tx.nonce)
    case BoostStore(hash) => row.Submitted() && row.minedNumber.None? && row.hash == Some(hash)
    case BoostSend(hash) => row.Submitted() && row.minedNumber.None? && row.hash == Some(hash)
    case SendHead => !row.Submitted()
    case SendNonce(_, _) => !row.Submitted()
    case SendPrice(_, _, _) => !row.Submitted()
    case SendGas(_, _, _, _) => !row.Submitted()
    case SendSign(_, _, tx) => !row.Submitted() && Signs(cfg, row, tx)
    case SendSubmit(_, _, tx, _) => !row.Submitted() && Signs(cfg, row, tx)
    case SubmitStore => row.Submitted() && row.minedNumber.None? && row.boostedNumber.None?
    case SubmitPost => row.Submitted() && row.minedNumber.None? && row.boostedNumber.None?
  }

  ghost predicate Local(cfg: Config, w: nat, pc: Pc) {
    pc.At? ==> pc.row.wallet == w && MemoryOk(cfg, pc.row, pc.point) && Consistent(cfg, pc.row)
  }

  /** The row in memory is a version of its request's row; the store lags by the unsaved columns at most. */
  ghost predicate Held(rows: Table, born: Table, pc: Pc) {
    pc.At? ==>
      && pc.row.id in born && SameRequest(pc.row, born[pc.row.id])
      && (pc.row.id in rows ==> StoredLags(rows[pc.row.id], pc.row, pc.point))
  }

  ghost predicate StoredLags(stored: Row, row: Row, point: Point) {
    Overlay(stored, row, point.Unsaved()) == row && (point.SubmitStore? ==> !stored.Submitted())
  }

  /** A submitted row is the only one of its wallet, and the one the watcher holds if it holds any. */
  ghost predicate Alone(rows: Table, w: nat, pc: Pc) {
    && (pc.Picking? ==> forall id: Id :: InWallet(rows, id, w) ==> !rows[id].Submitted())
    && (pc.At? ==> forall id: Id :: InWallet(rows, id, w) && rows[id].Submitted() ==> id == pc.row.id)
    && (forall a: Id, b: Id ::
          InWallet(rows, a, w) && InWallet(rows, b, w) && rows[a].Submitted() && rows[b].Submitted() ==> a == b)
  }

  ghost predicate View(cfg: Config, rows: Table, born: Table, w: nat, pc: Pc) {
    Local(cfg, w, pc) && Held(rows, born, pc) && Alone(rows, w, pc)
  }

  predicate Holds(pc: Pc, id: Id) {
    pc.At? && pc.row.id == id
  }

  /** Each row a watcher holds is of that watcher's wallet. */
  ghost predicate Owned(pcs: seq<Pc>, born: Table) {
    forall v :: 0 <= v < |pcs| && pcs[v].At? ==>
      pcs[v].row.wallet == v && pcs[v].row.id in born && SameRequest(pcs[v].row, born[pcs[v].row.id])
  }

  ghost predicate BornOk(s: World) {
    forall id: Id :: id in s.born ==> s.born[id].id == id && s.born[id].Pending() && s.born[id].wallet < |s.pcs|
  }

  ghost predicate Inv(cfg: Config, s: World) {
    && |s.pcs| == |cfg.senders| == |s.seen|
    && ValidChain(s.chain)
    && Accounted(s)
    && BornOk(s)
    && Versions(s.store.rows, s.born)
    && AllConsistent(cfg, s.store.rows)
    && forall w :: 0 <= w < |s.pcs| ==> View(cfg, s.store.rows, s.born, w, s.pcs[w])
  }

  /**
    A watcher's call changes at most the row it holds: it makes the stored row equal the one in
    memory, or removes it.
  */
  ghost predicate RowStep(rows: Table, rows': Table, pc: Pc, reply: Reply) {
    if pc.At? && reply.Wrote() && pc.point.Unsaved() != {} then
      rows' == if pc.row.id in rows then rows[pc.row.id := pc.row] else rows
    else if pc.At? && reply.Wrote() && (pc.point.ConfirmDelete? || pc.point.FailDelete?) then
      rows' == rows - {pc.row.id}
    else rows' == rows
  }

  /** A point saves the columns named as unsaved there, of the row it holds; only two points delete. */
  lemma SavesUnsaved(cfg: Config, w: nat, row: Row, point: Point)
    ensures
      var request := AskAt(cfg, w, row, point);
      && (if point.Unsaved() == {} then !request.Save? else request == Save(row, point.Unsaved()))
      && (if point.ConfirmDelete? || point.FailDelete? then request == Remove(row.id) else !request.Remove?)
  {
  }

  lemma RowsAfterWatch(cfg: Config, store: Store, born: Table, w: nat, pc: Pc, reply: Reply)
    requires Held(store.rows, born, pc)
    ensures RowStep(store.rows, Effect(store, w, Ask(cfg, w, pc), reply).rows, pc, reply)
  {
    if pc.At? {
      SavesUnsaved(cfg, w, pc.row, pc.point);
    }
  }

  lemma MemoryAfterWatch(cfg: Config, store: Store, chain: seq<Block>, w: nat, row: Row, point: Point, reply: Reply)
    requires MemoryOk(cfg, row, point) && Consistent(cfg, row) && row.wallet == w
    requires Answers(store, chain, w, AskAt(cfg, w, row, point), reply) && ValidChain(chain)
    ensures
      var pc' := NextAt(cfg, w, row, point, reply);
      pc'.At? ==> MemoryOk(cfg, pc'.row, pc'.point)
  {
  }

  /** The assignments of a Tick keep the row's columns together. */
  lemma AssignsConsistent(cfg: Config, row: Row, head: nat, headHash: BlockHash, tx: Tx, signature: Bytes, receipt: Receipt)
    requires Consistent(cfg, row)
    ensures Consistent(cfg, ClearMined(row))
    ensures row.Submitted() && receipt.hash.number == receipt.number ==> Consistent(cfg, SetMined(row, receipt))
    ensures row.Submitted() && Signs(cfg, row, tx) ==> Consistent(cfg, SetBoosted(row, head, tx, signature))
    ensures !row.Submitted() && Signs(cfg, row, tx) ==> Consistent(cfg, SetSubmitted(row, head, headHash, tx, signature))
  {
  }

  /** Apart from these assignments the row in memory stays what it is. */
  lemma RowAssigned(cfg: Config, w: nat, row: Row, point: Point, reply: Reply)
    ensures
      var pc' := NextAt(cfg, w, row, point, reply);
      pc'.At? ==>
        || pc'.row == row
        || (pc'.row == ClearMined(row) && point.ActiveReceipt?)
        || (point.ActiveReceipt? && reply.Included? && row.minedNumber.Some? && pc'.row == SetMined(row, reply.receipt))
        || (point.MinedPost? && pc'.row == SetMined(row, point.receipt))
        || (point.BoostSign? && reply.Signature? && pc'.row == SetBoosted(row, point.head, point.tx, reply.signature))
        || (point.SendSubmit? && pc'.row == SetSubmitted(row, point.head, point.headHash, point.tx, point.signature))
  {
  }

  lemma ConsistentAfterWatch(cfg: Config, store: Store, chain: seq<Block>, w: nat, row: Row, point: Point, reply: Reply)
    requires MemoryOk(cfg, row, point) && Consistent(cfg, row) && row.wallet == w
    requires Answers(store, chain, w, AskAt(cfg, w, row, point), reply) && ValidChain(chain)
    ensures
      var pc' := NextAt(cfg, w, row, point, reply);
      pc'.At? ==> Consistent(cfg, pc'.row)
  {
    var nowhere := GENESIS.hash;
    RowAssigned(cfg, w, row, point, reply);
    if point.ActiveReceipt? {
      AssignsConsistent(cfg, row, 0, nowhere, Tx(0, 0, 0, 0, [], []), [],
                        if reply.Included? then reply.receipt else Receipt(0, nowhere, false, []));
    } else if point.MinedPost? {
      AssignsConsistent(cfg, row, 0, nowhere, Tx(0, 0, 0, 0, [], []), [], point.receipt);
    } else if point.BoostSign? && reply.Signature? {
      AssignsConsistent(cfg, row, point.head, nowhere, point.tx, reply.signature, Receipt(0, nowhere, false, []));
    } else if point.SendSubmit? {
      AssignsConsistent(cfg, row, point.head, point.headHash, point.tx, point.signature, Receipt(0, nowhere, false, []));
    }
  }

  lemma LocalAfterWatch(cfg: Config, store: Store, chain: seq<Block>, w: nat, pc: Pc, reply: Reply)
    requires Local(cfg, w, pc) && Alone(store.rows, w, pc)
    requires Answers(store, chain, w, Ask(cfg, w, pc), reply) && ValidChain(chain)
    requires AllConsistent(cfg, store.rows)
    ensures Local(cfg, w, Next(cfg, w, pc, reply))
  {
    if pc.At? {
      MemoryAfterWatch(cfg, store, chain, w, pc.row, pc.point, reply);
      ConsistentAfterWatch(cfg, store, chain, w, pc.row, pc.point, reply);
      RowInMemory(cfg, w, pc.row, pc.point, reply);
    }
  }

  /** Between calls the row in memory changes only when the next call saves the change. */
  lemma RowInMemory(cfg: Config, w: nat, row: Row, point: Point, reply: Reply)
    ensures
      var pc' := NextAt(cfg, w, row, point, reply);
      pc'.At? ==>
        && SameRequest(pc'.row, row)
        && (pc'.point.Unsaved() == {} ==> pc'.row == row)
        && (point.Unsaved() != {} ==> reply.Done? && pc'.point.Unsaved() == {})
        && (pc'.point.SubmitStore? ==> point.SendSubmit?)
  {
  }

  /** What is assigned between two calls lies within the columns the second one saves. */
  lemma AssignedIsSaved(cfg: Config, w: nat, row: Row, point: Point, reply: Reply)
    ensures
      var pc' := NextAt(cfg, w, row, point, reply);
      pc'.At? && pc'.point.Unsaved() != {} ==> Overlay(row, pc'.row, pc'.point.Unsaved()) == pc'.row
  {
    var pc' := NextAt(cfg, w, row, point, reply);
    if pc'.At? && (pc'.point.Unmine? || pc'.point.MinedStore?) {
      assert pc'.row == row.(minedNumber := pc'.row.minedNumber, minedHash := pc'.row.minedHash);
    } else if pc'.At? && pc'.point.BoostStore? {
      assert pc'.row == SetBoosted(row, point.head, point.tx, reply.signature);
    } else if pc'.At? && pc'.point.SubmitStore? {
      assert pc'.row == SetSubmitted(row, point.head, point.headHash, point.tx, point.signature);
    }
  }

  /** Within a Tick, a new row is chosen only once the active one is deleted. */
  lemma PicksAfterDelete(cfg: Config, w: nat, row: Row, point: Point, reply: Reply)
    ensures NextAt(cfg, w, row, point, reply).Picking? ==> point.ConfirmDelete? && reply.Done?
  {
  }

  lemma HeldAfterWatch(cfg: Config, store: Store, born: Table, w: nat, row: Row, point: Point, reply: Reply)
    requires Held(store.rows, born, At(row, point)) && MemoryOk(cfg, row, point)
    ensures Held(Effect(store, w, AskAt(cfg, w, row, point), reply).rows, born, NextAt(cfg, w, row, point, reply))
  {
    RowsAfterWatch(cfg, store, born, w, At(row, point), reply);
    RowInMemory(cfg, w, row, point, reply);
    AssignedIsSaved(cfg, w, row, point, reply);
    HeldStep(store.rows, Effect(store, w, AskAt(cfg, w, row, point), reply).rows, born, row, point,
             NextAt(cfg, w, row, point, reply), reply);
  }

  lemma HeldStep(rows: Table, rows': Table, born: Table, row: Row, point: Point, pc': Pc, reply: Reply)
    requires Held(rows, born, At(row, point)) && RowStep(rows, rows', At(row, point), reply)
    requires pc'.At? ==>
      && SameRequest(pc'.row, row)
      && (if pc'.point.Unsaved() == {} then pc'.row == row else Overlay(row, pc'.row, pc'.point.Unsaved()) == pc'.row)
      && (point.Unsaved() != {} ==> reply.Done? && pc'.point.Unsaved() == {})
      && (pc'.point.SubmitStore? ==> point.SendSubmit?)
    requires point.SendSubmit? ==> !row.Submitted()
    ensures Held(rows', born, pc')
  {
  }

  lemma AloneStep(rows: Table, rows': Table, w: nat, pc: Pc, pc': Pc, reply: Reply)
    requires pc.At? && Alone(rows, w, pc) && RowStep(rows, rows', pc, reply)
    requires pc.row.id in rows ==> SameRequest(rows[pc.row.id], pc.row)
    requires pc'.At? ==> pc'.row.id == pc.row.id
    requires pc'.Picking? ==> pc.point.ConfirmDelete? && reply.Done?
    ensures Alone(rows', w, pc')
  {
  }

  lemma ViewAfterWatch(cfg: Config, store: Store, chain: seq<Block>, born: Table, w: nat, pc: Pc, reply: Reply)
    requires View(cfg, store.rows, born, w, pc)
    requires Answers(store, chain, w, Ask(cfg, w, pc), reply) && ValidChain(chain)
    requires AllConsistent(cfg, store.rows) && Versions(store.rows, born)
    ensures View(cfg, Effect(store, w, Ask(cfg, w, pc), reply).rows, born, w, Next(cfg, w, pc, reply))
  {
    var rows', pc' := Effect(store, w, Ask(cfg, w, pc), reply).rows, Next(cfg, w, pc, reply);
    LocalAfterWatch(cfg, store, chain, w, pc, reply);
    if pc.At? {
      HeldAfterWatch(cfg, store, born, w, pc.row, pc.point, reply);
      RowsAfterWatch(cfg, store, born, w, pc, reply);
      RowInMemory(cfg, w, pc.row, pc.point, reply);
      PicksAfterDelete(cfg, w, pc.row, pc.point, reply);
      AloneStep(store.rows, rows', w, pc, pc', reply);
    } else {
      ViewOfQuery(cfg, store, chain, born, w, pc, reply);
    }
  }

  /** The two queries: the active one finds the wallet's only submitted row, the unfiltered one a pending row. */
  lemma ViewOfQuery(cfg: Config, store: Store, chain: seq<Block>, born: Table, w: nat, pc: Pc, reply: Reply)
    requires !pc.At? && Alone(store.rows, w, pc) && Versions(store.rows, born)
    requires Answers(store, chain, w, Ask(cfg, w, pc), reply)
    ensures
      var pc' := Next(cfg, w, pc, reply);
      Held(store.rows, born, pc') && Alone(store.rows, w, pc')
    ensures pc.Picking? && reply.Found? ==> !reply.row.Submitted()
  {
  }

  /** A watcher's call leaves what the other watchers hold and see of their own wallets alone. */
  lemma OthersAfterWatch(rows: Table, rows': Table, born: Table, pc: Pc, reply: Reply, v: nat, other: Pc)
    requires RowStep(rows, rows', pc, reply) && Versions(rows, born)
    requires Held(rows, born, pc) && Held(rows, born, other) && Alone(rows, v, other)
    requires pc.At? ==> pc.row.wallet != v
    requires other.At? ==> other.row.wallet == v
    ensures Held(rows', born, other) && Alone(rows', v, other)
  {
  }

  lemma TableAfterWatch(cfg: Config, rows: Table, rows': Table, born: Table, pc: Pc, reply: Reply)
    requires RowStep(rows, rows', pc, reply) && Held(rows, born, pc)
    requires Versions(rows, born) && AllConsistent(cfg, rows)
    requires pc.At? ==> Consistent(cfg, pc.row)
    ensures Versions(rows', born) && AllConsistent(cfg, rows')
  {
  }

  /** What a watcher's step means for the table and for what it holds. */
  ghost predicate Moves(rows: Table, rows': Table, w: nat, pc: Pc, pc': Pc, reply: Reply) {
    && RowStep(rows, rows', pc, reply)
    && (pc.At? ==>
          && pc.row.wallet == w
          && (pc.row.id in rows && pc.point.Unsaved() == {} ==> rows[pc.row.id] == pc.row)
          && (pc'.At? ==> SameRequest(pc'.row, pc.row))
          && (pc'.Picking? ==> pc.point.ConfirmDelete? && reply.Done?))
    && (!pc.At? && pc'.At? ==>
          && reply.Found? && pc'.row == reply.row
          && InWallet(rows, pc'.row.id, w) && rows[pc'.row.id] == pc'.row
          && (if pc.Picking? then pc'.point.SendHead? && !pc'.row.Submitted()
              else pc'.point.ActiveHead? && pc'.row.Submitted()))
  }

  lemma MovesWatch(cfg: Config, s: World, w: nat, reply: Reply)
    requires Inv(cfg, s) && Enabled(cfg, s, Watch(w, reply))
    ensures
      var pc := s.pcs[w];
      Moves(s.store.rows, Effect(s.store, w, Ask(cfg, w, pc), reply).rows, w, pc, Next(cfg, w, pc, reply), reply)
  {
    var pc := s.pcs[w];
    assert View(cfg, s.store.rows, s.born, w, pc);
    RowsAfterWatch(cfg, s.store, s.born, w, pc, reply);
    if pc.At? {
      RowInMemory(cfg, w, pc.row, pc.point, reply);
      PicksAfterDelete(cfg, w, pc.row, pc.point, reply);
      UnsavedNothing(pc.row);
    } else {
      ViewOfQuery(cfg, s.store, s.chain, s.born, w, pc, reply);
    }
  }

  lemma UnsavedNothing(row: Row)
    ensures forall stored: Row {:trigger Overlay(stored, row, {})} :: Overlay(stored, row, {}) == stored
  {
  }

  /** A watcher retires what it deletes. */
  lemma RetiredWatch(cfg: Config, s: World, w: nat, reply: Reply)
    requires Inv(cfg, s) && w < |s.pcs|
    ensures
      var s', store' := Apply(cfg, s, Watch(w, reply)), Effect(s.store, w, Ask(cfg, w, s.pcs[w]), reply);
      && s'.store == store' && s'.pcs == s.pcs[w := Next(cfg, w, s.pcs[w], reply)]
      && s'.born == s.born && s'.chain == s.chain
      && s'.retired == s.retired + set id | id in s.store.rows && id !in store'.rows
  {
    var pc := s.pcs[w];
    assert View(cfg, s.store.rows, s.born, w, pc);
    RowsAfterWatch(cfg, s.store, s.born, w, pc, reply);
    if pc.At? {
      SavesUnsaved(cfg, w, pc.row, pc.point);
    }
  }

  lemma ViewsWatch(cfg: Config, s: World, w: nat, reply: Reply, v: nat)
    requires Inv(cfg, s) && Enabled(cfg, s, Watch(w, reply)) && v < |s.pcs|
    ensures View(cfg, Effect(s.store, w, Ask(cfg, w, s.pcs[w]), reply).rows, s.born, v,
                 if v == w then Next(cfg, w, s.pcs[w], reply) else s.pcs[v])
  {
    var pc := s.pcs[w];
    assert View(cfg, s.store.rows, s.born, w, pc) && View(cfg, s.store.rows, s.born, v, s.pcs[v]);
    if v == w {
      ViewAfterWatch(cfg, s.store, s.chain, s.born, w, pc, reply);
    } else {
      RowsAfterWatch(cfg, s.store, s.born, w, pc, reply);
      OthersAfterWatch(s.store.rows, Effect(s.store, w, Ask(cfg, w, pc), reply).rows, s.born, pc, reply, v, s.pcs[v]);
    }
  }

  lemma TableWatch(cfg: Config, s: World, w: nat, reply: Reply)
    requires Inv(cfg, s) && Enabled(cfg, s, Watch(w, reply))
    ensures
      var rows' := Effect(s.store, w, Ask(cfg, w, s.pcs[w]), reply).rows;
      && Versions(rows', s.born) && AllConsistent(cfg, rows') && rows'.Keys <= s.store.rows.Keys
  {
    var pc := s.pcs[w];
    assert View(cfg, s.store.rows, s.born, w, pc);
    RowsAfterWatch(cfg, s.store, s.born, w, pc, reply);
    TableAfterWatch(cfg, s.store.rows, Effect(s.store, w, Ask(cfg, w, pc), reply).rows, s.born, pc, reply);
  }

  lemma InvWatch(cfg: Config, s: World, w: nat, reply: Reply)
    requires Inv(cfg, s) && Enabled(cfg, s, Watch(w, reply))
    ensures Inv(cfg, Apply(cfg, s, Watch(w, reply)))
  {
    RetiredWatch(cfg, s, w, reply);
    TableWatch(cfg, s, w, reply);
    forall v | 0 <= v < |s.pcs|
      ensures View(cfg, Effect(s.store, w, Ask(cfg, w, s.pcs[w]), reply).rows, s.born, v,
                   if v == w then Next(cfg, w, s.pcs[w], reply) else s.pcs[v])
    {
      ViewsWatch(cfg, s, w, reply, v);
    }
  }

  lemma ViewAfterInsert(rows: Table, born: Table, row: Row, w: nat, pc: Pc)
    requires Held(rows, born, pc) && Alone(rows, w, pc) && Versions(rows, born)
    requires row.Pending() && row.id !in born
    ensures Held(rows[row.id := row], born[row.id := row], pc) && Alone(rows[row.id := row], w, pc)
  {
  }

  lemma TableInsert(cfg: Config, s: World, row: Row)
    requires Inv(cfg, s) && row.Pending() && row.wallet < |s.pcs| && row.id !in s.born
    ensures
      var s' := Apply(cfg, s, Insert(row));
      Accounted(s') && BornOk(s') && Versions(s'.store.rows, s'.born) && AllConsistent(cfg, s'.store.rows)
  {
  }

  lemma InvInsert(cfg: Config, s: World, row: Row)
    requires Inv(cfg, s) && Enabled(cfg, s, Insert(row))
    ensures Inv(cfg, Apply(cfg, s, Insert(row)))
  {
    if row.id !in s.store.rows {
      TableInsert(cfg, s, row);
      forall w | 0 <= w < |s.pcs|
        ensures View(cfg, s.store.rows[row.id := row], s.born[row.id := row], w, s.pcs[w])
      {
        assert View(cfg, s.store.rows, s.born, w, s.pcs[w]);
        ViewAfterInsert(s.store.rows, s.born, row, w, s.pcs[w]);
      }
    }
  }

  lemma InvClean(cfg: Config, s: World, id: Id)
    requires Inv(cfg, s) && Enabled(cfg, s, Clean(id))
    ensures Inv(cfg, Apply(cfg, s, Clean(id)))
  {
    forall w | 0 <= w < |s.pcs| ensures View(cfg, s.store.rows - {id}, s.born, w, s.pcs[w]) {
      assert View(cfg, s.store.rows, s.born, w, s.pcs[w]);
    }
  }

  lemma InvStep(cfg: Config, s: World, a: Action)
    requires Inv(cfg, s) && Enabled(cfg, s, a)
    ensures Inv(cfg, Apply(cfg, s, a))
  {
    match a
    case Watch(w, reply) => InvWatch(cfg, s, w, reply);
    case Insert(row) => InvInsert(cfg, s, row);
    case Clean(id) => InvClean(cfg, s, id);
    case Advance(_) =>
  }

  /** The invariant holds in every reachable state: no assumption on failures, timing or the chain. */
  lemma {:induction false} Reachable(cfg: Config, t: Terms, run: seq<Action>)
    requires Legal(cfg, t, run)
    ensures Inv(cfg, After(cfg, run))
  {
    if run != [] {
      Reachable(cfg, t, run[..|run|-1]);
      InvStep(cfg, After(cfg, run[..|run|-1]), run[|run|-1]);
    }
  }

  /** In every reachable state a wallet has at most one submitted row. */
  lemma OneSubmittedPerWallet(cfg: Config, t: Terms, run: seq<Action>, a: Id, b: Id)
    requires Legal(cfg, t, run)
    requires
      var rows := After(cfg, run).store.rows;
      a in rows && b in rows && rows[a].Submitted() && rows[b].Submitted() && rows[a].wallet == rows[b].wallet
    ensures a == b
  {
    Reachable(cfg, t, run);
    var s := After(cfg, run);
    var w := s.store.rows[a].wallet;
    assert s.born[a].wallet < |s.pcs|;
    assert View(cfg, s.store.rows, s.born, w, s.pcs[w]);
    assert InWallet(s.store.rows, a, w) && InWallet(s.store.rows, b, w);
  }

  /** Hence the row the unfiltered submit query picks was never submitted, although the query does not say so. */
  lemma PickedIsPending(cfg: Config, t: Terms, run: seq<Action>, w: nat, reply: Reply)
    requires Legal(cfg, t, run) && w < |After(cfg, run).pcs| && After(cfg, run).pcs[w].Picking?
    requires Enabled(cfg, After(cfg, run), Watch(w, reply)) && reply.Found?
    ensures !reply.row.Submitted() && reply.row.hash.None? && reply.row.nonce.None?
    ensures forall id: Id :: InWallet(After(cfg, run).store.rows, id, w) ==> !After(cfg, run).store.rows[id].Submitted()
  {
    Reachable(cfg, t, run);
    var s := After(cfg, run);
    assert View(cfg, s.store.rows, s.born, w, s.pcs[w]);
  }

  /**
    In every reachable state the columns set together are null together, the hash is that of the
    row's own transaction, and the payload is that inserted.
  */
  lemma StoredRowsAreConsistent(cfg: Config, t: Terms, run: seq<Action>, id: Id)
    requires Legal(cfg, t, run) && id in After(cfg, run).store.rows
    ensures
      var s := After(cfg, run);
      Consistent(cfg, s.store.rows[id]) && id in s.born && SameRequest(s.store.rows[id], s.born[id])
  {
    Reachable(cfg, t, run);
  }

  /** A successful Update leaves the stored row equal to the one in memory, column lists notwithstanding. */
  lemma UpdateStoresMemory(cfg: Config, t: Terms, run: seq<Action>, w: nat)
    requires Legal(cfg, t, run) && w < |After(cfg, run).pcs|
    requires
      var s := After(cfg, run);
      Ask(cfg, w, s.pcs[w]).Save? && s.pcs[w].row.id in s.store.rows
    ensures
      var s := After(cfg, run);
      Apply(cfg, s, Watch(w, Done)).store.rows == s.store.rows[s.pcs[w].row.id := s.pcs[w].row]
  {
    Reachable(cfg, t, run);
    var s := After(cfg, run);
    assert View(cfg, s.store.rows, s.born, w, s.pcs[w]);
    RowsAfterWatch(cfg, s.store, s.born, w, s.pcs[w], Done);
    SavesUnsaved(cfg, w, s.pcs[w].row, s.pcs[w].point);
  }

  /** What is inserted under an id stays so for the whole run, duplicates notwithstanding, wallet included. */
  lemma {:induction false} BornIsForEver(cfg: Config, t: Terms, run: seq<Action>, k: nat, id: Id)
    requires Legal(cfg, t, run) && k <= |run| && id in After(cfg, run[..k]).born
    ensures
      var s, before := After(cfg, run), After(cfg, run[..k]);
      && id in s.born && s.born[id] == before.born[id]
      && (id in s.store.rows ==> SameRequest(s.store.rows[id], before.born[id]))
  {
    Reachable(cfg, t, run);
    if k == |run| {
      assert run[..k] == run;
    } else {
      assert run[..|run|-1][..k] == run[..k];
      BornIsForEver(cfg, t, run[..|run|-1], k, id);
    }
  }

  // ---------------------------------------------------------------- the column lists

  const BLANK := Row(0, [], [], 0, 0, None, None, None, None, None, None, None, None, None)

  /** The two rows differ in the column. */
  predicate Differ(a: Row, b: Row, c: Column) {
    Overlay(a, b, {c}) != a
  }

  lemma MinedListExact(c: Column, receipt: Receipt)
    ensures c in MINED_COLUMNS && c != UpdatedAt <==>
      exists r: Row :: Differ(r, ClearMined(r), c) || Differ(r, SetMined(r, receipt), c)
  {
    if c in MINED_COLUMNS && c != UpdatedAt {
      assert Differ(BLANK, SetMined(BLANK, receipt), c);
    }
  }

  lemma BoostedListExact(c: Column, head: nat, tx: Tx, signature: Bytes)
    ensures c in BOOSTED_COLUMNS && c != UpdatedAt <==> exists r: Row :: Differ(r, SetBoosted(r, head, tx, signature), c)
  {
    if c in BOOSTED_COLUMNS && c != UpdatedAt {
      assert Differ(BLANK, SetBoosted(BLANK, head, tx, signature), c);
    }
  }

  lemma SubmittedListExact(c: Column, head: nat, headHash: BlockHash, tx: Tx, signature: Bytes)
    ensures c in SUBMITTED_COLUMNS && c != UpdatedAt <==>
      exists r: Row :: Differ(r, SetSubmitted(r, head, headHash, tx, signature), c)
  {
    if c in SUBMITTED_COLUMNS && c != UpdatedAt {
      assert Differ(BLANK, SetSubmitted(BLANK, head, headHash, tx, signature), c);
    }
  }

  /**
    Apart from updated_at, each Update lists exactly the columns that the assignment before it can change:
    none is missing, and none is listed for nothing.
  */
  lemma ListsAreExact(c: Column, receipt: Receipt, head: nat, headHash: BlockHash, tx: Tx, signature: Bytes)
    ensures c in MINED_COLUMNS && c != UpdatedAt <==>
      exists r: Row :: Differ(r, ClearMined(r), c) || Differ(r, SetMined(r, receipt), c)
    ensures c in BOOSTED_COLUMNS && c != UpdatedAt <==> exists r: Row :: Differ(r, SetBoosted(r, head, tx, signature), c)
    ensures c in SUBMITTED_COLUMNS && c != UpdatedAt <==>
      exists r: Row :: Differ(r, SetSubmitted(r, head, headHash, tx, signature), c)
  {
    MinedListExact(c, receipt);
    BoostedListExact(c, head, tx, signature);
    SubmittedListExact(c, head, headHash, tx, signature);
  }
}
