/**
  Watcher.Tick as a program of calls: `Ask` is the database, node, signer or producer call a
  program point makes, `Next` the point its reply leads to. Each program point names one call
  of internal/ticker/loop.go and carries the local variables that are still needed there.
*/
module Watcher {
  import opened Types

  datatype Config = Config(
    confirmationBlocks: int,
    boostAfterBlocks: int,
    disableBoosting: bool,
    senders: seq<Address>)

  // The replacement bar, floor(120 p / 100): a node takes a replacement only at 10% more.
  function Bar(price: nat): nat {
    price * 120 / 100
  }

  function BoostedPrice(previous: nat, suggested: nat): nat {
    if Bar(previous) > 2 * suggested then Bar(previous) else 2 * suggested
  }

  // The head at which the row's current transaction was sent.
  function LastSend(row: Row): nat {
    row.boostedNumber.Or(row.submittedNumber.Or(0))
  }

  function ClearMined(row: Row): Row {
    row.(minedNumber := None, minedHash := None)
  }

  function SetMined(row: Row, receipt: Receipt): Row {
    row.(minedNumber := Some(receipt.number), minedHash := Some(receipt.hash))
  }

  // The "boosted block hash" column receives the transaction hash, as in the code.
  function SetBoosted(row: Row, head: nat, tx: Tx, signature: Bytes): Row {
    row.(boostedNumber := Some(head),
         boostedHash := Some(TxHash(tx, signature)),
         nonce := Some(tx.nonce),
         gasPrice := Some(tx.gasPrice),
         hash := Some(TxHash(tx, signature)))
  }

  function SetSubmitted(row: Row, head: nat, headHash: BlockHash, tx: Tx, signature: Bytes): Row {
    row.(submittedNumber := Some(head),
         submittedHash := Some(headHash),
         nonce := Some(tx.nonce),
         gasPrice := Some(tx.gasPrice),
         hash := Some(TxHash(tx, signature)))
  }

  const MINED_COLUMNS: set<Column> := {MinedBlockNumber, MinedBlockHash, UpdatedAt}
  const BOOSTED_COLUMNS: set<Column> := {BoostedBlockHash, BoostedBlockNumber, Nonce, GasPrice, UpdatedAt, Hash}
  const SUBMITTED_COLUMNS: set<Column> := {SubmittedBlockHash, Hash, SubmittedBlockNumber, Nonce, GasPrice, UpdatedAt}

  datatype Request =
    | QueryActive
    | QueryNext
    | GetHead
    | GetReceipt(txHash: Option<TxHash>)
    | GetNonce(account: Address)
    | GetPrice
    | GetGas(account: Address, to: Bytes, price: nat, data: Bytes)
    | GetSignature(tx: Tx)
    | Submit(id: Id, hash: TxHash, boost: bool)
    | Save(row: Row, cols: set<Column>)
    | Remove(id: Id)
    | Post(message: Message)

  datatype Reply =
    | Fault                                   // any error but the two the code tells apart
    | Found(row: Row)
    | NoRows
    | Head(number: nat, hash: BlockHash)
    | Included(receipt: Receipt)
    | NotIncluded                             // ethereum.NotFound
    | NonceIs(nonce: nat)
    | PriceIs(price: nat)
    | GasIs(gas: nat)
    | Reverted(reason: Bytes)                 // a JSON-RPC error from gas estimation
    | Signature(signature: Bytes)
    | Sent(ok: bool, accepted: bool)          // the caller sees only `ok`
    | Done
    | DoneButFailed                           // a write that took effect and then reported an error
  {
    /** The write took effect, whatever was reported. */
    predicate Wrote() {
      Done? || DoneButFailed?
    }
  }

  /** The calls of a Tick that holds a row, in the order of the source. */
  datatype Point =
    | ActiveHead
    | ActiveReceipt(head: nat)
    | Unmine(head: nat)
    | BoostPrice(head: nat)
    | BoostGas(head: nat, price: nat)
    | BoostSign(head: nat, tx: Tx)
    | BoostStore(hash: TxHash)
    | BoostSend(hash: TxHash)
    | MinedPost(receipt: Receipt)
    | MinedStore
    | ConfirmPost(receipt: Receipt)
    | ConfirmDelete
    | FailPost(reason: Bytes)
    | FailDelete
    | SendHead
    | SendNonce(head: nat, headHash: BlockHash)
    | SendPrice(head: nat, headHash: BlockHash, nonce: nat)
    | SendGas(head: nat, headHash: BlockHash, nonce: nat, price: nat)
    | SendSign(head: nat, headHash: BlockHash, tx: Tx)
    | SendSubmit(head: nat, headHash: BlockHash, tx: Tx, signature: Bytes)
    | SubmitStore
    | SubmitPost
  {
    /** Working towards a first submission: the row in memory is still unsubmitted. */
    predicate Sending() {
      SendHead? || SendNonce? || SendPrice? || SendGas? || SendSign? || SendSubmit?
    }

    /** Columns assigned in memory that this call writes to the store. */
    function Unsaved(): set<Column> {
      if Unmine? || MinedStore? then MINED_COLUMNS
      else if BoostStore? then BOOSTED_COLUMNS
      else if SubmitStore? then SUBMITTED_COLUMNS
      else {}
    }
  }

  /** Where a watcher is: between Ticks, choosing a row to send, or at a point with a row in memory. */
  datatype Pc = Idle(err: bool) | Picking | At(row: Row, point: Point)

  function SenderOf(cfg: Config, w: nat): Address {
    if w < |cfg.senders| then cfg.senders[w] else 0
  }

  // Reached with no receipt: boost when the last send is old enough.
  function AfterMissing(cfg: Config, row: Row, head: nat): Pc {
    if head - LastSend(row) >= cfg.boostAfterBlocks && !cfg.disableBoosting
    then At(row, BoostPrice(head))
    else Idle(false)
  }

  function AfterReceipt(cfg: Config, row: Row, head: nat, receipt: Receipt): Pc {
    if row.minedNumber.None? then At(row, MinedPost(receipt))
    else if head - receipt.number >= cfg.confirmationBlocks then At(row, ConfirmPost(receipt))
    else if row.minedHash != Some(receipt.hash) then At(SetMined(row, receipt), MinedStore)
    else Idle(false)
  }

  function Ask(cfg: Config, w: nat, pc: Pc): Request {
    match pc
    case Idle(_) => QueryActive
    case Picking => QueryNext
    case At(row, point) => AskAt(cfg, w, row, point)
  }

  function AskAt(cfg: Config, w: nat, row: Row, point: Point): Request {
    match point
    case ActiveHead => GetHead
    case ActiveReceipt(_) => GetReceipt(row.hash)
    case Unmine(_) => Save(row, MINED_COLUMNS)
    case BoostPrice(_) => GetPrice
    case BoostGas(_, price) => GetGas(SenderOf(cfg, w), row.to, price, row.data)
    case BoostSign(_, tx) => GetSignature(tx)
    case BoostStore(_) => Save(row, BOOSTED_COLUMNS)
    case BoostSend(hash) => Submit(row.id, hash, true)
    case MinedPost(_) => Post(Mined(row.id, row.hash))
    case MinedStore => Save(row, MINED_COLUMNS)
    case ConfirmPost(receipt) => Post(Confirmed(row.id, row.hash, receipt.successful, receipt.logs))
    case ConfirmDelete => Remove(row.id)
    case FailPost(reason) => Post(Failed(row.id, reason))
    case FailDelete => Remove(row.id)
    case SendHead => GetHead
    case SendNonce(_, _) => GetNonce(SenderOf(cfg, w))
    case SendPrice(_, _, _) => GetPrice
    case SendGas(_, _, _, price) => GetGas(SenderOf(cfg, w), row.to, price, row.data)
    case SendSign(_, _, tx) => GetSignature(tx)
    case SendSubmit(_, _, tx, signature) => Submit(row.id, TxHash(tx, signature), false)
    case SubmitStore => Save(row, SUBMITTED_COLUMNS)
    case SubmitPost => Post(Submitted(row.id, row.hash))
  }

  function Next(cfg: Config, w: nat, pc: Pc, reply: Reply): Pc {
    match pc
    case Idle(_) =>
      if reply.Found? then At(reply.row, ActiveHead) else if reply.NoRows? then Picking else Idle(true)
    case Picking =>
      if reply.Found? then At(reply.row, SendHead) else Idle(!reply.NoRows?)
    case At(row, point) => NextAt(cfg, w, row, point, reply)
  }

  function NextAt(cfg: Config, w: nat, row: Row, point: Point, reply: Reply): Pc {
    match point
    case ActiveHead =>
      if reply.Head? then At(row, ActiveReceipt(reply.number)) else Idle(true)
    case ActiveReceipt(head) =>
      if reply.Included? then AfterReceipt(cfg, row, head, reply.receipt)
      else if !reply.NotIncluded? then Idle(true)
      else if row.minedNumber.Some? then At(ClearMined(row), Unmine(head))
      else AfterMissing(cfg, row, head)
    case Unmine(head) =>
      if reply.Done? then AfterMissing(cfg, row, head) else Idle(true)
    case BoostPrice(head) =>
      if reply.PriceIs? then At(row, BoostGas(head, BoostedPrice(row.gasPrice.Or(0), reply.price))) else Idle(true)
    case BoostGas(head, price) =>
      if reply.GasIs? then
        At(row, BoostSign(head, Tx(SenderOf(cfg, w), row.nonce.Or(0), price, 2 * reply.gas, row.to, row.data)))
      else if reply.Reverted? then At(row, FailPost(reply.reason))
      else Idle(true)
    case BoostSign(head, tx) =>
      if reply.Signature? then
        At(SetBoosted(row, head, tx, reply.signature), BoostStore(TxHash(tx, reply.signature)))
      else Idle(true)
    case BoostStore(hash) =>
      if reply.Done? then At(row, BoostSend(hash)) else Idle(true)
    case BoostSend(_) =>
      Idle(!(reply.Sent? && reply.ok))
    case MinedPost(receipt) =>
      At(SetMined(row, receipt), MinedStore)
    case MinedStore =>
      Idle(!reply.Done?)
    case ConfirmPost(_) =>
      At(row, ConfirmDelete)
    case ConfirmDelete =>
      if reply.Done? then Picking else Idle(true)
    case FailPost(_) =>
      At(row, FailDelete)
    case FailDelete =>
      Idle(!reply.Done?)
    case SendHead =>
      if reply.Head? then At(row, SendNonce(reply.number, reply.hash)) else Idle(true)
    case SendNonce(head, headHash) =>
      if reply.NonceIs? then At(row, SendPrice(head, headHash, reply.nonce)) else Idle(true)
    case SendPrice(head, headHash, nonce) =>
      if reply.PriceIs? then At(row, SendGas(head, headHash, nonce, 2 * reply.price)) else Idle(true)
    case SendGas(head, headHash, nonce, price) =>
      if reply.GasIs? then
        At(row, SendSign(head, headHash, Tx(SenderOf(cfg, w), nonce, price, 2 * reply.gas, row.to, row.data)))
      else if reply.Reverted? then At(row, FailPost(reply.reason))
      else Idle(true)
    case SendSign(head, headHash, tx) =>
      if reply.Signature? then At(row, SendSubmit(head, headHash, tx, reply.signature)) else Idle(true)
    case SendSubmit(head, headHash, tx, signature) =>
      if reply.Sent? && reply.ok then At(SetSubmitted(row, head, headHash, tx, signature), SubmitStore)
      else Idle(true)
    case SubmitStore =>
      if reply.Done? then At(row, SubmitPost) else Idle(true)
    case SubmitPost =>
      Idle(false)
  }
}
