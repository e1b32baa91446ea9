/**
  How long a wallet needs to empty: when its calls meet no error and no reorg, the head rises from Tick
  to Tick and every transaction is included in the block after its submission head, n rows take at most
  1 + n * max(2, confirmationBlocks + 1) Ticks, whatever the other wallets do.
*/
module Drain {
  import opened Types
  import opened Watcher
  import opened System
  import opened Rows
  import opened Solo

  /**
    A call without an error on an undisturbed chain. A reverted gas estimation is allowed: it fails the request.
    `seal` gives the block hash at each height.
  */
  ghost predicate Smooth(seal: nat -> BlockHash, low: nat, high: nat, row: Row, request: Request, reply: Reply) {
    match request
    case QueryActive => !reply.Fault?
    case QueryNext => !reply.Fault?
    case GetHead => reply.Head? && low <= reply.number <= high
    case GetReceipt(_) =>
      reply.Included? && reply.receipt.number == row.submittedNumber.Or(0) + 1
      && reply.receipt.hash == seal(reply.receipt.number)
    case GetNonce(_) => reply.NonceIs?
    case GetPrice => reply.PriceIs?
    case GetGas(_, _, _, _) => reply.GasIs? || reply.Reverted?
    case GetSignature(_) => reply.Signature?
    case Submit(_, _, _) => reply.Sent? && reply.ok
    case Save(_, _) => reply.Done?
    case Remove(_) => reply.Done?
    case Post(_) => reply.Done?
  }

  function Memory(pc: Pc): Row {
    if pc.At? then pc.row else BLANK
  }

  function WalletIds(rows: Table, w: nat): set<Id> {
    set id | id in rows && rows[id].wallet == w
  }

  /** Ticks a request takes from its submission to its confirmation, at most. */
  function Period(cfg: Config): nat {
    if cfg.confirmationBlocks + 1 > 2 then cfg.confirmationBlocks + 1 else 2
  }

  // ---------------------------------------------------------------- the measure

  /** Ticks until a submitted row is confirmed, at most, when the head was last seen at `last`. */
  function Due(cfg: Config, row: Row, last: nat): nat {
    var depth := row.submittedNumber.Or(0) + 1 + cfg.confirmationBlocks - last;
    var least := if row.minedNumber.Some? then 1 else 2;
    if depth > least then depth else least
  }

  /** A row as an undisturbed run leaves it: sent at a head already seen, mined right after it. */
  ghost predicate Undisturbed(seal: nat -> BlockHash, row: Row, last: nat) {
    && (row.Submitted() ==> row.submittedNumber.value <= last)
    && (row.minedNumber.Some? ==>
          && row.Submitted() && row.minedNumber.value == row.submittedNumber.value + 1
          && row.minedHash == Some(seal(row.minedNumber.value)))
  }

  ghost predicate NoneSubmitted(rows: Table, w: nat) {
    forall id: Id :: InWallet(rows, id, w) ==> !rows[id].Submitted()
  }

  ghost predicate OnlySubmitted(rows: Table, w: nat, id: Id) {
    forall other: Id :: InWallet(rows, other, w) && rows[other].Submitted() ==> other == id
  }

  /** The wallet between Ticks: rows under their ids, at most one of them submitted. */
  ghost predicate AtRest(seal: nat -> BlockHash, rows: Table, w: nat, last: nat) {
    && (forall id: Id :: InWallet(rows, id, w) ==> rows[id].id == id && Undisturbed(seal, rows[id], last))
    && (forall a: Id, b: Id ::
          InWallet(rows, a, w) && InWallet(rows, b, w) && rows[a].Submitted() && rows[b].Submitted() ==> a == b)
  }

  /** At most `budget` more Ticks are needed, `period` each for a row not yet submitted. */
  ghost predicate Within(cfg: Config, rows: Table, w: nat, last: nat, period: nat, budget: nat) {
    && (WalletIds(rows, w) != {} && NoneSubmitted(rows, w) ==> |WalletIds(rows, w)| * period + 1 <= budget)
    && (forall id: Id :: InWallet(rows, id, w) && rows[id].Submitted() ==>
          (|WalletIds(rows, w)| - 1) * period + Due(cfg, rows[id], last) <= budget)
  }

  /** The wallet after the row in memory is stored. */
  ghost predicate Saved(cfg: Config, seal: nat -> BlockHash, rows: Table, w: nat, row: Row, high: nat, budget: nat) {
    AtRest(seal, rows[row.id := row], w, high) && Within(cfg, rows[row.id := row], w, high, Period(cfg), budget)
  }

  /** The submitted row is in memory, and needs `budget` Ticks after this one. */
  ghost predicate Active(cfg: Config, rows: Table, w: nat, row: Row, last: nat, budget: nat) {
    && row.id in rows && rows[row.id] == row && row.Submitted() && OnlySubmitted(rows, w, row.id)
    && (|WalletIds(rows, w)| - 1) * Period(cfg) + Due(cfg, row, last) <= budget + 1
  }

  ghost predicate Sendable(cfg: Config, rows: Table, w: nat, row: Row, budget: nat) {
    row.id in rows && rows[row.id] == row && NoneSubmitted(rows, w) && |WalletIds(rows, w)| * Period(cfg) <= budget
  }

  /**
    Inside a Tick whose heads lie between `low` and `high`, the head last seen before it being `last`:
    once the Tick is over, `budget` more are enough.
  */
  ghost predicate Midway(cfg: Config, seal: nat -> BlockHash, rows: Table, w: nat, pc: Pc, last: nat, high: nat, budget: nat) {
    && last < high
    && match pc
       case Idle(_) => AtRest(seal, rows, w, high) && Within(cfg, rows, w, high, Period(cfg), budget)
       case Picking =>
         && AtRest(seal, rows, w, high) && NoneSubmitted(rows, w)
         && (WalletIds(rows, w) == {} || |WalletIds(rows, w)| * Period(cfg) <= budget)
       case At(row, point) =>
         && InWallet(rows, row.id, w) && row.wallet == w
         && AtRest(seal, rows, w, high)
         && PointOk(cfg, seal, rows, w, row, point, last, high, budget)
  }

  ghost predicate PointOk(cfg: Config, seal: nat -> BlockHash, rows: Table, w: nat, row: Row, point: Point,
                          last: nat, high: nat, budget: nat)
    requires InWallet(rows, row.id, w)
  {
    var rest := |WalletIds(rows, w)| - 1;
    match point
    case ActiveHead => Active(cfg, rows, w, row, last, budget)
    case ActiveReceipt(head) => Active(cfg, rows, w, row, last, budget) && last < head <= high
    case MinedPost(receipt) =>
      && Active(cfg, rows, w, row, last, budget) && row.minedNumber.None?
      && receipt.number == row.submittedNumber.value + 1 && receipt.hash == seal(receipt.number)
    case MinedStore => Overlay(rows[row.id], row, MINED_COLUMNS) == row && Saved(cfg, seal, rows, w, row, high, budget)
    case ConfirmPost(_) => OnlySubmitted(rows, w, row.id) && rest * Period(cfg) <= budget
    case ConfirmDelete => OnlySubmitted(rows, w, row.id) && rest * Period(cfg) <= budget
    case SubmitStore => Overlay(rows[row.id], row, SUBMITTED_COLUMNS) == row && Saved(cfg, seal, rows, w, row, high, budget)
    case SubmitPost => Within(cfg, rows, w, high, Period(cfg), budget)
    case SendHead => Sendable(cfg, rows, w, row, budget)
    case SendNonce(head, _) => Sendable(cfg, rows, w, row, budget) && last < head <= high
    case SendPrice(head, _, _) => Sendable(cfg, rows, w, row, budget) && last < head <= high
    case SendGas(head, _, _, _) => Sendable(cfg, rows, w, row, budget) && last < head <= high
    case SendSign(head, _, _) => Sendable(cfg, rows, w, row, budget) && last < head <= high
    case SendSubmit(head, _, _, _) => Sendable(cfg, rows, w, row, budget) && last < head <= high
    case FailPost(_) => Sendable(cfg, rows, w, row, budget)
    case FailDelete => Sendable(cfg, rows, w, row, budget)
    case _ => false
  }

  // ---------------------------------------------------------------- counting

  lemma IdsReplaced(rows: Table, w: nat, row: Row)
    requires InWallet(rows, row.id, w) && row.wallet == w
    ensures WalletIds(rows[row.id := row], w) == WalletIds(rows, w)
  {
  }

  lemma IdsRemoved(rows: Table, w: nat, id: Id)
    requires InWallet(rows, id, w)
    ensures WalletIds(rows - {id}, w) == WalletIds(rows, w) - {id}
    ensures |WalletIds(rows - {id}, w)| == |WalletIds(rows, w)| - 1
  {
    assert WalletIds(rows - {id}, w) == WalletIds(rows, w) - {id};
  }

  lemma IdsSome(rows: Table, w: nat, id: Id)
    requires InWallet(rows, id, w)
    ensures |WalletIds(rows, w)| >= 1
  {
    assert id in WalletIds(rows, w);
  }

  lemma OneFewer(n: nat, period: nat)
    requires n >= 1
    ensures n * period == (n - 1) * period + period
  {
  }

  // ---------------------------------------------------------------- single steps

  lemma RemoveRests(seal: nat -> BlockHash, rows: Table, w: nat, id: Id, last: nat)
    requires AtRest(seal, rows, w, last) && InWallet(rows, id, w) && OnlySubmitted(rows, w, id)
    ensures AtRest(seal, rows - {id}, w, last) && NoneSubmitted(rows - {id}, w)
  {
    forall other: Id | InWallet(rows - {id}, other, w) ensures InWallet(rows, other, w) && other != id {
    }
  }

  /** Storing a submitted row: the wallet needs its remaining Ticks and a period for each other row. */
  lemma StoreRests(cfg: Config, seal: nat -> BlockHash, rows: Table, w: nat, row: Row, high: nat, budget: nat)
    requires AtRest(seal, rows, w, high) && InWallet(rows, row.id, w) && row.wallet == w && OnlySubmitted(rows, w, row.id)
    requires row.Submitted() && Undisturbed(seal, row, high)
    requires (|WalletIds(rows, w)| - 1) * Period(cfg) + Due(cfg, row, high) <= budget
    ensures Saved(cfg, seal, rows, w, row, high, budget)
  {
    var rows' := rows[row.id := row];
    IdsReplaced(rows, w, row);
    forall id: Id | InWallet(rows', id, w) ensures InWallet(rows, id, w) && (rows'[id].Submitted() ==> id == row.id) {
    }
    assert InWallet(rows', row.id, w);
  }

  /** The wait gets shorter by one when the head has risen and the row is mined, or waits for depth alone. */
  lemma DueFalls(cfg: Config, row: Row, last: nat, head: nat, high: nat, receipt: Receipt)
    requires last < head <= high && row.Submitted()
    ensures row.minedNumber.None? ==> Due(cfg, SetMined(row, receipt), high) + 1 <= Due(cfg, row, last)
    ensures row.minedNumber.Some? && head < row.submittedNumber.value + 1 + cfg.confirmationBlocks ==>
      Due(cfg, row, high) + 1 <= Due(cfg, row, last)
  {
  }

  lemma RestLater(seal: nat -> BlockHash, rows: Table, w: nat, last: nat, high: nat)
    requires AtRest(seal, rows, w, last) && last <= high
    ensures AtRest(seal, rows, w, high)
  {
    forall id: Id | InWallet(rows, id, w) ensures rows[id].id == id && Undisturbed(seal, rows[id], high) {
    }
  }

  lemma NobodyHome(rows: Table, w: nat)
    requires forall id: Id :: !InWallet(rows, id, w)
    ensures WalletIds(rows, w) == {}
  {
    forall id: Id ensures id !in WalletIds(rows, w) {
      assert !InWallet(rows, id, w);
    }
  }

  /** The query for the active row opens the Tick. */
  lemma FirstCall(cfg: Config, seal: nat -> BlockHash, store: Store, w: nat, reply: Reply, last: nat, high: nat, budget: nat)
    requires AtRest(seal, store.rows, w, last) && Within(cfg, store.rows, w, last, Period(cfg), budget + 1) && last < high
    requires Answered(store, w, QueryActive, reply) && !reply.Fault?
    ensures Midway(cfg, seal, store.rows, w, Next(cfg, w, Idle(false), reply), last, high, budget)
  {
    RestLater(seal, store.rows, w, last, high);
    if reply.Found? {
      assert InWallet(store.rows, reply.row.id, w);
    }
  }

  lemma PickCall(cfg: Config, seal: nat -> BlockHash, store: Store, w: nat, reply: Reply, last: nat, high: nat, budget: nat)
    requires Midway(cfg, seal, store.rows, w, Picking, last, high, budget)
    requires Answered(store, w, QueryNext, reply) && !reply.Fault?
    ensures Midway(cfg, seal, store.rows, w, Next(cfg, w, Picking, reply), last, high, budget)
  {
    if reply.Found? {
      assert InWallet(store.rows, reply.row.id, w);
      IdsSome(store.rows, w, reply.row.id);
    } else {
      NobodyHome(store.rows, w);
    }
  }

  /** The receipt is there: the row is noted as mined, waits for depth, or is confirmed. */
  lemma ReceiptCall(cfg: Config, seal: nat -> BlockHash, rows: Table, w: nat, row: Row, head: nat, receipt: Receipt,
                    last: nat, high: nat, budget: nat)
    requires Midway(cfg, seal, rows, w, At(row, ActiveReceipt(head)), last, high, budget)
    requires receipt.number == row.submittedNumber.Or(0) + 1 && receipt.hash == seal(receipt.number)
    ensures Midway(cfg, seal, rows, w, AfterReceipt(cfg, row, head, receipt), last, high, budget)
  {
    assert Undisturbed(seal, row, high);
    IdsSome(rows, w, row.id);
    if row.minedNumber.Some? && head - receipt.number < cfg.confirmationBlocks {
      DueFalls(cfg, row, last, head, high, receipt);
    }
  }

  lemma MinedCall(cfg: Config, seal: nat -> BlockHash, rows: Table, w: nat, row: Row, receipt: Receipt,
                  last: nat, high: nat, budget: nat)
    requires Midway(cfg, seal, rows, w, At(row, MinedPost(receipt)), last, high, budget)
    ensures Midway(cfg, seal, rows, w, At(SetMined(row, receipt), MinedStore), last, high, budget)
  {
    assert Undisturbed(seal, row, high);
    DueFalls(cfg, row, last, high, high, receipt);
    StoreRests(cfg, seal, rows, w, SetMined(row, receipt), high, budget);
  }

  lemma SubmitCall(cfg: Config, seal: nat -> BlockHash, rows: Table, w: nat, row: Row, head: nat, headHash: BlockHash,
                   tx: Tx, signature: Bytes, last: nat, high: nat, budget: nat)
    requires Midway(cfg, seal, rows, w, At(row, SendSubmit(head, headHash, tx, signature)), last, high, budget)
    ensures Midway(cfg, seal, rows, w, At(SetSubmitted(row, head, headHash, tx, signature), SubmitStore), last, high, budget)
  {
    var row' := SetSubmitted(row, head, headHash, tx, signature);
    assert Undisturbed(seal, row, high);
    IdsSome(rows, w, row.id);
    OneFewer(|WalletIds(rows, w)|, Period(cfg));
    assert Due(cfg, row', high) <= Period(cfg);
    StoreRests(cfg, seal, rows, w, row', high, budget);
  }

  lemma RemoveCall(cfg: Config, seal: nat -> BlockHash, rows: Table, w: nat, row: Row, point: Point,
                   last: nat, high: nat, budget: nat)
    requires point.ConfirmDelete? || point.FailDelete?
    requires Midway(cfg, seal, rows, w, At(row, point), last, high, budget)
    ensures Midway(cfg, seal, rows - {row.id}, w, NextAt(cfg, w, row, point, Done), last, high, budget)
  {
    RemoveRests(seal, rows, w, row.id, high);
    IdsRemoved(rows, w, row.id);
    OneFewer(|WalletIds(rows, w)|, Period(cfg));
    assert NoneSubmitted(rows - {row.id}, w);
  }

  /** The calls towards a submission before the send. */
  lemma SendingCall(cfg: Config, seal: nat -> BlockHash, rows: Table, w: nat, row: Row, point: Point, reply: Reply,
                    last: nat, low: nat, high: nat, budget: nat)
    requires point.Sending() && !point.SendSubmit?
    requires Midway(cfg, seal, rows, w, At(row, point), last, high, budget) && last < low
    requires Smooth(seal, low, high, row, AskAt(cfg, w, row, point), reply)
    ensures Midway(cfg, seal, rows, w, NextAt(cfg, w, row, point, reply), last, high, budget)
  {
    var next := NextAt(cfg, w, row, point, reply);
    assert next.At? && next.row == row;
    assert PointOk(cfg, seal, rows, w, row, next.point, last, high, budget);
  }

  lemma PostCall(cfg: Config, seal: nat -> BlockHash, rows: Table, w: nat, row: Row, point: Point,
                 last: nat, high: nat, budget: nat)
    requires point.FailPost? || point.SubmitPost? || point.ConfirmPost?
    requires Midway(cfg, seal, rows, w, At(row, point), last, high, budget)
    ensures Midway(cfg, seal, rows, w, NextAt(cfg, w, row, point, Done), last, high, budget)
  {
  }

  /** What the call leaves of the table. */
  function RowsAfter(rows: Table, row: Row, point: Point): Table {
    if point.MinedStore? || point.SubmitStore? then rows[row.id := row]
    else if point.ConfirmDelete? || point.FailDelete? then rows - {row.id}
    else rows
  }

  lemma EffectOnRows(cfg: Config, seal: nat -> BlockHash, store: Store, w: nat, row: Row, point: Point, reply: Reply,
                     last: nat, low: nat, high: nat, budget: nat)
    requires Midway(cfg, seal, store.rows, w, At(row, point), last, high, budget)
    requires Smooth(seal, low, high, row, AskAt(cfg, w, row, point), reply)
    ensures Effect(store, w, AskAt(cfg, w, row, point), reply).rows == RowsAfter(store.rows, row, point)
  {
    SavesUnsaved(cfg, w, row, point);
  }

  lemma HeldCall(cfg: Config, seal: nat -> BlockHash, rows: Table, w: nat, row: Row, point: Point, reply: Reply,
                 last: nat, low: nat, high: nat, budget: nat)
    requires Midway(cfg, seal, rows, w, At(row, point), last, high, budget) && last < low
    requires Smooth(seal, low, high, row, AskAt(cfg, w, row, point), reply)
    ensures Midway(cfg, seal, RowsAfter(rows, row, point), w, NextAt(cfg, w, row, point, reply), last, high, budget)
  {
    if point.Sending() && !point.SendSubmit? {
      SendingCall(cfg, seal, rows, w, row, point, reply, last, low, high, budget);
    } else if point.FailPost? || point.SubmitPost? || point.ConfirmPost? {
      PostCall(cfg, seal, rows, w, row, point, last, high, budget);
    } else if point.ConfirmDelete? || point.FailDelete? {
      RemoveCall(cfg, seal, rows, w, row, point, last, high, budget);
    } else if point.ActiveReceipt? {
      ReceiptCall(cfg, seal, rows, w, row, point.head, reply.receipt, last, high, budget);
    } else if point.MinedPost? {
      MinedCall(cfg, seal, rows, w, row, point.receipt, last, high, budget);
    } else if point.SendSubmit? {
      SubmitCall(cfg, seal, rows, w, row, point.head, point.headHash, point.tx, point.signature, last, high, budget);
    } else if point.MinedStore? || point.SubmitStore? {
      assert InWallet(rows[row.id := row], row.id, w);
    }
  }

  lemma StepMidway(cfg: Config, seal: nat -> BlockHash, store: Store, w: nat, pc: Pc, reply: Reply,
                   last: nat, low: nat, high: nat, budget: nat)
    requires !pc.Idle? && Midway(cfg, seal, store.rows, w, pc, last, high, budget) && last < low
    requires Answered(store, w, Ask(cfg, w, pc), reply)
    requires Smooth(seal, low, high, Memory(pc), Ask(cfg, w, pc), reply)
    ensures Midway(cfg, seal, Effect(store, w, Ask(cfg, w, pc), reply).rows, w, Next(cfg, w, pc, reply), last, high, budget)
  {
    if pc.Picking? {
      PickCall(cfg, seal, store, w, reply, last, high, budget);
    } else {
      EffectOnRows(cfg, seal, store, w, pc.row, pc.point, reply, last, low, high, budget);
      HeldCall(cfg, seal, store.rows, w, pc.row, pc.point, reply, last, low, high, budget);
    }
  }

  // ---------------------------------------------------------------- the other wallets

  lemma SameIds(a: Table, b: Table, w: nat)
    requires SameRows(a, b, w)
    ensures WalletIds(a, w) == WalletIds(b, w)
  {
    forall id: Id ensures id in WalletIds(a, w) <==> id in WalletIds(b, w) {
      assert InWallet(a, id, w) <==> InWallet(b, id, w);
    }
  }

  lemma RestFrame(seal: nat -> BlockHash, a: Table, b: Table, w: nat, last: nat)
    requires SameRows(a, b, w) && AtRest(seal, a, w, last)
    ensures AtRest(seal, b, w, last)
  {
  }

  lemma WithinFrame(cfg: Config, a: Table, b: Table, w: nat, last: nat, period: nat, budget: nat)
    requires SameRows(a, b, w) && Within(cfg, a, w, last, period, budget)
    ensures Within(cfg, b, w, last, period, budget)
  {
    SameIds(a, b, w);
    if NoneSubmitted(b, w) {
      assert NoneSubmitted(a, w);
    }
  }

  lemma SavedFrame(cfg: Config, seal: nat -> BlockHash, a: Table, b: Table, w: nat, row: Row, high: nat, budget: nat)
    requires SameRows(a, b, w) && row.wallet == w && Saved(cfg, seal, a, w, row, high, budget)
    ensures Saved(cfg, seal, b, w, row, high, budget)
  {
    var a', b' := a[row.id := row], b[row.id := row];
    forall id: Id ensures InWallet(a', id, w) <==> InWallet(b', id, w) {
      assert InWallet(a, id, w) <==> InWallet(b, id, w);
    }
    forall id: Id | InWallet(a', id, w) ensures a'[id] == b'[id] {
      assert id != row.id ==> InWallet(a, id, w);
    }
    RestFrame(seal, a', b', w, high);
    WithinFrame(cfg, a', b', w, high, Period(cfg), budget);
  }

  lemma MidwayFrame(cfg: Config, seal: nat -> BlockHash, a: Table, b: Table, w: nat, pc: Pc, last: nat, high: nat, budget: nat)
    requires SameRows(a, b, w) && Midway(cfg, seal, a, w, pc, last, high, budget)
    ensures Midway(cfg, seal, b, w, pc, last, high, budget)
  {
    SameIds(a, b, w);
    RestFrame(seal, a, b, w, high);
    if pc.Idle? {
      WithinFrame(cfg, a, b, w, high, Period(cfg), budget);
    } else if pc.At? {
      assert InWallet(b, pc.row.id, w) && a[pc.row.id] == b[pc.row.id];
      if pc.point.SubmitPost? {
        WithinFrame(cfg, a, b, w, high, Period(cfg), budget);
      } else if pc.point.MinedStore? || pc.point.SubmitStore? {
        SavedFrame(cfg, seal, a, b, w, pc.row, high, budget);
      }
    }
  }

  // ---------------------------------------------------------------- whole runs

  /** The Ticks of wallet w that ended in the run after its first `from` steps. */
  function Ticks(cfg: Config, w: nat, run: seq<Action>, from: nat): nat
    requires from <= |run|
  {
    if |run| == from then 0
    else
      var before := run[..|run|-1];
      Ticks(cfg, w, before, from) + if Ends(cfg, w, After(cfg, before), run[|run|-1]) then 1 else 0
  }

  predicate Ends(cfg: Config, w: nat, s: World, a: Action) {
    a.Watch? && a.w == w && w < |s.pcs| && Next(cfg, w, s.pcs[w], a.reply).Idle?
  }

  /** The wallet's own calls go smoothly, at heads from `low` to `high`; nothing arrives for it and none of its rows is cleaned. */
  ghost predicate Calm(cfg: Config, w: nat, seal: nat -> BlockHash, low: nat, high: nat, s: World, a: Action) {
    match a
    case Watch(v, reply) =>
      v == w && w < |s.pcs| ==> Smooth(seal, low, high, Memory(s.pcs[w]), Ask(cfg, w, s.pcs[w]), reply)
    case Insert(row) => row.id in s.store.rows || row.wallet != w
    case Clean(id) => !InWallet(s.store.rows, id, w)
    case Advance(_) => true
  }

  /** The heads rise by at least one from Tick to Tick: those of the k-th lie above tops(k), up to tops(k + 1). */
  ghost predicate Rising(tops: nat -> nat) {
    forall k: nat :: tops(k) < tops(k + 1)
  }

  ghost predicate CalmFrom(cfg: Config, w: nat, seal: nat -> BlockHash, tops: nat -> nat, run: seq<Action>, from: nat)
    requires from <= |run|
  {
    |run| > from ==>
      var before := run[..|run|-1];
      var k := Ticks(cfg, w, before, from);
      && CalmFrom(cfg, w, seal, tops, before, from)
      && Calm(cfg, w, seal, tops(k) + 1, tops(k + 1), After(cfg, before), run[|run|-1])
  }

  /** What is left of a budget after `k` Ticks. */
  function Left(budget: nat, k: nat): nat {
    if k < budget then budget - k else 0
  }

  lemma EmptyWithin(cfg: Config, rows: Table, w: nat, last: nat, budget: nat)
    requires Within(cfg, rows, w, last, Period(cfg), 0)
    ensures Within(cfg, rows, w, last, Period(cfg), budget) && WalletIds(rows, w) == {}
  {
    if id: Id :| InWallet(rows, id, w) && rows[id].Submitted() {
      IdsSome(rows, w, id);
    }
  }

  /** After k of the wallet's Ticks: between Ticks or inside the next one, with what is left of the budget. */
  ghost predicate Draining(cfg: Config, seal: nat -> BlockHash, tops: nat -> nat, rows: Table, w: nat, pc: Pc, k: nat, budget: nat) {
    && (k >= budget ==> WalletIds(rows, w) == {})
    && if pc.Idle? then
         AtRest(seal, rows, w, tops(k)) && Within(cfg, rows, w, tops(k), Period(cfg), Left(budget, k))
       else Midway(cfg, seal, rows, w, pc, tops(k), tops(k + 1), Left(budget, k + 1))
  }

  lemma DrainFrame(cfg: Config, seal: nat -> BlockHash, tops: nat -> nat, a: Table, b: Table, w: nat, pc: Pc, k: nat, budget: nat)
    requires SameRows(a, b, w) && Draining(cfg, seal, tops, a, w, pc, k, budget)
    ensures Draining(cfg, seal, tops, b, w, pc, k, budget)
  {
    SameIds(a, b, w);
    if pc.Idle? {
      RestFrame(seal, a, b, w, tops(k));
      WithinFrame(cfg, a, b, w, tops(k), Period(cfg), Left(budget, k));
    } else {
      MidwayFrame(cfg, seal, a, b, w, pc, tops(k), tops(k + 1), Left(budget, k + 1));
    }
  }

  /** The wallet's own call. */
  lemma DrainOwn(cfg: Config, seal: nat -> BlockHash, tops: nat -> nat, store: Store, w: nat, pc: Pc, reply: Reply, k: nat, budget: nat)
    requires Rising(tops) && Draining(cfg, seal, tops, store.rows, w, pc, k, budget)
    requires Answered(store, w, Ask(cfg, w, pc), reply)
    requires Smooth(seal, tops(k) + 1, tops(k + 1), Memory(pc), Ask(cfg, w, pc), reply)
    ensures
      var pc' := Next(cfg, w, pc, reply);
      Draining(cfg, seal, tops, Effect(store, w, Ask(cfg, w, pc), reply).rows, w, pc', if pc'.Idle? then k + 1 else k, budget)
  {
    var left, pc' := Left(budget, k + 1), Next(cfg, w, pc, reply);
    assert tops(k) < tops(k + 1);
    if pc.Idle? {
      if k >= budget {
        EmptyWithin(cfg, store.rows, w, tops(k), left + 1);
      }
      FirstCall(cfg, seal, store, w, reply, tops(k), tops(k + 1), left);
    } else {
      StepMidway(cfg, seal, store, w, pc, reply, tops(k), tops(k) + 1, tops(k + 1), left);
      if pc.At? {
        IdsSome(store.rows, w, pc.row.id);
      }
      if pc'.Idle? && k + 1 >= budget {
        EmptyWithin(cfg, Effect(store, w, Ask(cfg, w, pc), reply).rows, w, tops(k + 1), 0);
      }
    }
  }

  /** What everyone else does leaves the wallet's rows as they are. */
  lemma CalmElsewhere(cfg: Config, w: nat, seal: nat -> BlockHash, low: nat, high: nat, s: World, a: Action)
    requires Inv(cfg, s) && Enabled(cfg, s, a) && Calm(cfg, w, seal, low, high, s, a) && w < |s.pcs|
    requires !(a.Watch? && a.w == w)
    ensures SameRows(s.store.rows, Apply(cfg, s, a).store.rows, w) && Apply(cfg, s, a).pcs[w] == s.pcs[w]
  {
    if a.Watch? {
      WorldTyped(cfg, s, a.w);
      StepElsewhere(cfg, a.w, s.born, s.store, s.pcs[a.w], a.reply, w);
    } else {
      var rows, rows' := s.store.rows, Apply(cfg, s, a).store.rows;
      forall id: Id ensures InWallet(rows, id, w) <==> InWallet(rows', id, w) {
      }
    }
  }

  lemma DrainStepOwn(cfg: Config, seal: nat -> BlockHash, tops: nat -> nat, s: World, w: nat, reply: Reply, k: nat, budget: nat)
    requires Inv(cfg, s) && Enabled(cfg, s, Watch(w, reply)) && Rising(tops)
    requires Smooth(seal, tops(k) + 1, tops(k + 1), Memory(s.pcs[w]), Ask(cfg, w, s.pcs[w]), reply)
    requires Draining(cfg, seal, tops, s.store.rows, w, s.pcs[w], k, budget)
    ensures
      var s', pc' := Apply(cfg, s, Watch(w, reply)), Next(cfg, w, s.pcs[w], reply);
      && w < |s'.pcs| && s'.pcs[w] == pc'
      && Draining(cfg, seal, tops, s'.store.rows, w, pc', if pc'.Idle? then k + 1 else k, budget)
  {
    AnsweredIfEnabled(s.store, s.chain, w, Ask(cfg, w, s.pcs[w]), reply);
    DrainOwn(cfg, seal, tops, s.store, w, s.pcs[w], reply, k, budget);
    RetiredWatch(cfg, s, w, reply);
  }

  lemma DrainStepElse(cfg: Config, seal: nat -> BlockHash, tops: nat -> nat, s: World, w: nat, a: Action, k: nat, budget: nat)
    requires Inv(cfg, s) && Enabled(cfg, s, a) && w < |s.pcs| && !(a.Watch? && a.w == w)
    requires Calm(cfg, w, seal, tops(k) + 1, tops(k + 1), s, a)
    requires Draining(cfg, seal, tops, s.store.rows, w, s.pcs[w], k, budget)
    ensures
      var s' := Apply(cfg, s, a);
      w < |s'.pcs| && s'.pcs[w] == s.pcs[w] && Draining(cfg, seal, tops, s'.store.rows, w, s.pcs[w], k, budget)
  {
    CalmElsewhere(cfg, w, seal, tops(k) + 1, tops(k + 1), s, a);
    DrainFrame(cfg, seal, tops, s.store.rows, Apply(cfg, s, a).store.rows, w, s.pcs[w], k, budget);
  }

  lemma DrainStep(cfg: Config, seal: nat -> BlockHash, tops: nat -> nat, s: World, w: nat, a: Action, k: nat, budget: nat)
    requires Inv(cfg, s) && Enabled(cfg, s, a) && w < |s.pcs| && Rising(tops)
    requires Calm(cfg, w, seal, tops(k) + 1, tops(k + 1), s, a)
    requires Draining(cfg, seal, tops, s.store.rows, w, s.pcs[w], k, budget)
    ensures
      var s' := Apply(cfg, s, a);
      && w < |s'.pcs|
      && Draining(cfg, seal, tops, s'.store.rows, w, s'.pcs[w], if Ends(cfg, w, s, a) then k + 1 else k, budget)
  {
    if a.Watch? && a.w == w {
      DrainStepOwn(cfg, seal, tops, s, w, a.reply, k, budget);
    } else {
      DrainStepElse(cfg, seal, tops, s, w, a, k, budget);
    }
  }

  /** Every Tick of an undisturbed wallet uses up one of the Ticks it needs, whatever the other wallets do. */
  lemma {:induction false} TicksDrain(cfg: Config, t: Terms, seal: nat -> BlockHash, tops: nat -> nat, w: nat,
                                      run: seq<Action>, from: nat, start: World, budget: nat)
    requires Legal(cfg, t, run) && from <= |run| && Rising(tops) && CalmFrom(cfg, w, seal, tops, run, from)
    requires start == After(cfg, run[..from]) && w < |start.pcs|
    requires Draining(cfg, seal, tops, start.store.rows, w, start.pcs[w], 0, budget)
    ensures w < |After(cfg, run).pcs|
    ensures
      var s := After(cfg, run);
      Draining(cfg, seal, tops, s.store.rows, w, s.pcs[w], Ticks(cfg, w, run, from), budget)
  {
    if |run| == from {
      assert run[..from] == run;
    } else {
      var before := run[..|run|-1];
      assert before[..from] == run[..from];
      TicksDrain(cfg, t, seal, tops, w, before, from, start, budget);
      Reachable(cfg, t, before);
      DrainStep(cfg, seal, tops, After(cfg, before), w, run[|run|-1], Ticks(cfg, w, before, from), budget);
    }
  }

  /** The Ticks that n rows may take. */
  function Allowance(cfg: Config, rows: Table, w: nat): nat {
    1 + |WalletIds(rows, w)| * Period(cfg)
  }

  lemma AtMostAPeriodEach(cfg: Config, seal: nat -> BlockHash, rows: Table, w: nat, last: nat)
    requires AtRest(seal, rows, w, last)
    ensures Within(cfg, rows, w, last, Period(cfg), Allowance(cfg, rows, w))
  {
    forall id: Id | InWallet(rows, id, w) && rows[id].Submitted()
      ensures (|WalletIds(rows, w)| - 1) * Period(cfg) + Due(cfg, rows[id], last) <= 1 + |WalletIds(rows, w)| * Period(cfg)
    {
      IdsSome(rows, w, id);
      OneFewer(|WalletIds(rows, w)|, Period(cfg));
    }
  }

  ghost predicate AllUndisturbed(seal: nat -> BlockHash, rows: Table, w: nat, last: nat) {
    forall id: Id :: InWallet(rows, id, w) ==> Undisturbed(seal, rows[id], last)
  }

  lemma RestsAt(cfg: Config, s: World, seal: nat -> BlockHash, w: nat, last: nat)
    requires Inv(cfg, s) && w < |s.pcs| && AllUndisturbed(seal, s.store.rows, w, last)
    ensures AtRest(seal, s.store.rows, w, last)
  {
    assert View(cfg, s.store.rows, s.born, w, s.pcs[w]);
  }

  lemma PrefixInv(cfg: Config, t: Terms, run: seq<Action>, from: nat)
    requires Legal(cfg, t, run) && from <= |run|
    ensures Inv(cfg, After(cfg, run[..from]))
  {
    LegalPrefix(cfg, t, run, from);
    Reachable(cfg, t, run[..from]);
  }

  lemma StartsDraining(cfg: Config, seal: nat -> BlockHash, tops: nat -> nat, s: World, w: nat)
    requires Inv(cfg, s) && w < |s.pcs| && s.pcs[w].Idle? && AllUndisturbed(seal, s.store.rows, w, tops(0))
    ensures Draining(cfg, seal, tops, s.store.rows, w, s.pcs[w], 0, Allowance(cfg, s.store.rows, w))
  {
    RestsAt(cfg, s, seal, w, tops(0));
    AtMostAPeriodEach(cfg, seal, s.store.rows, w, tops(0));
  }

  /**
    In every run, from a moment between two Ticks of a wallet that has n rows then: if its own calls go
    smoothly, nothing more arrives for it, none of its rows is cleaned and the head rises from Tick to Tick,
    the wallet is empty once 1 + n * max(2, confirmationBlocks + 1) more of its Ticks have ended, whatever
    the other wallets, the consumer and the cleaner do meanwhile.
  */
  lemma Drains(cfg: Config, t: Terms, seal: nat -> BlockHash, tops: nat -> nat, w: nat, run: seq<Action>, from: nat, start: World)
    requires Legal(cfg, t, run) && from <= |run| && start == After(cfg, run[..from])
    requires w < |start.pcs| && start.pcs[w].Idle? && AllUndisturbed(seal, start.store.rows, w, tops(0))
    requires Rising(tops) && CalmFrom(cfg, w, seal, tops, run, from)
    requires Ticks(cfg, w, run, from)
             >= 1 + |WalletIds(start.store.rows, w)| * (if cfg.confirmationBlocks < 1 then 2 else cfg.confirmationBlocks + 1)
    ensures WalletIds(After(cfg, run).store.rows, w) == {}
  {
    PrefixInv(cfg, t, run, from);
    StartsDraining(cfg, seal, tops, start, w);
    TicksDrain(cfg, t, seal, tops, w, run, from, start, Allowance(cfg, start.store.rows, w));
  }
}
