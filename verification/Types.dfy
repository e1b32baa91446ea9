/** The entities of the processor: table rows, transactions, blocks, receipts and status messages. */
module Types {

  datatype Option<+T> = None | Some(value: T) {
    function Or(default: T): T {
      if Some? then value else default
    }
  }

  newtype byte = b: int | 0 <= b < 256

  type Bytes = seq<byte>

  // A request id is 27 bytes; here it is their big-endian value, which orders ids
  // of that length exactly as comparing them byte by byte does.
  type Id = nat

  type Address = nat

  /** A legacy transaction as the sender signs it. */
  datatype Tx = Tx(from: Address, nonce: nat, gasPrice: nat, gas: nat, to: Bytes, data: Bytes)

  /** Hash of a signed transaction. Hashing is taken to be injective, so the hash carries what it commits to. */
  datatype TxHash = TxHash(tx: Tx, signature: Bytes)

  /** A block hash commits to the number of its block. */
  datatype BlockHash = BlockHash(number: nat, seal: nat)

  datatype Block = Block(hash: BlockHash, txs: seq<TxHash>)

  datatype Receipt = Receipt(number: nat, hash: BlockHash, successful: bool, logs: seq<Bytes>)

  /** The columns of the table, in the order of the generated model. */
  datatype Column =
    | Id | Nonce | GasPrice | To | Data | Hash
    | SubmittedBlockNumber | SubmittedBlockHash
    | MinedBlockNumber | MinedBlockHash
    | CreatedAt | UpdatedAt
    | BoostedBlockNumber | BoostedBlockHash
    | WalletIndex

  /** A row of meta_transaction_requests; a column that may be null is an Option. */
  datatype Row = Row(
    id: Id,
    to: Bytes,
    data: Bytes,
    wallet: nat,
    createdAt: int,
    nonce: Option<nat>,
    gasPrice: Option<nat>,
    hash: Option<TxHash>,
    submittedNumber: Option<nat>,
    submittedHash: Option<BlockHash>,
    minedNumber: Option<nat>,
    minedHash: Option<BlockHash>,
    boostedNumber: Option<nat>,
    boostedHash: Option<TxHash>)
  {
    /** The `submitted_block_number IS NOT NULL` filter of the active-row query. */
    predicate Submitted() {
      submittedNumber.Some?
    }

    /** A row as the consumer inserts it. */
    predicate Pending() {
      && nonce.None? && gasPrice.None? && hash.None?
      && submittedNumber.None? && submittedHash.None?
      && minedNumber.None? && minedHash.None?
      && boostedNumber.None? && boostedHash.None?
    }
  }

  type Table = map<Id, Row>

  /** `stored` with the columns `cols` replaced by those of `row`: what a whitelisted UPDATE leaves behind. */
  function Overlay(stored: Row, row: Row, cols: set<Column>): Row {
    Row(
      if Column.Id in cols then row.id else stored.id,
      if To in cols then row.to else stored.to,
      if Data in cols then row.data else stored.data,
      if WalletIndex in cols then row.wallet else stored.wallet,
      if CreatedAt in cols then row.createdAt else stored.createdAt,
      if Nonce in cols then row.nonce else stored.nonce,
      if GasPrice in cols then row.gasPrice else stored.gasPrice,
      if Hash in cols then row.hash else stored.hash,
      if SubmittedBlockNumber in cols then row.submittedNumber else stored.submittedNumber,
      if SubmittedBlockHash in cols then row.submittedHash else stored.submittedHash,
      if MinedBlockNumber in cols then row.minedNumber else stored.minedNumber,
      if MinedBlockHash in cols then row.minedHash else stored.minedHash,
      if BoostedBlockNumber in cols then row.boostedNumber else stored.boostedNumber,
      if BoostedBlockHash in cols then row.boostedHash else stored.boostedHash)
  }

  /** UPDATE ... WHERE id = row.id: touches one row, or none when it is gone. */
  function Write(rows: Table, row: Row, cols: set<Column>): Table {
    if row.id in rows then rows[row.id := Overlay(rows[row.id], row, cols)] else rows
  }

  /** A status message; `id` names the request it is about. */
  datatype Message =
    | Submitted(id: Id, hash: Option<TxHash>)
    | Mined(id: Id, hash: Option<TxHash>)
    | Confirmed(id: Id, hash: Option<TxHash>, successful: bool, logs: seq<Bytes>)
    | Failed(id: Id, reason: Bytes)
}
