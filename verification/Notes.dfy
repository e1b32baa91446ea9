/**
  What a watcher has heard since it read the row in hand, reply by reply, and what it makes of it:
  every call of a Tick, and how the Tick ends, in terms of those replies alone.
*/
module Notes {
  import opened Types
  import opened Watcher
  import opened System
  import opened Rows
  import opened Prices

  /** The replies since the last query, as they were given; `signed` goes with the transaction that was signed. */
  datatype Notes = Notes(
    active: bool,
    read: Option<Row>,
    head: Option<nat>,
    headHash: Option<BlockHash>,
    receipt: Option<Receipt>,
    nonce: Option<nat>,
    suggested: Option<nat>,
    gas: Option<nat>,
    signed: Option<TxHash>,
    reason: Option<Bytes>)

  const NOTHING := Notes(false, None, None, None, None, None, None, None, None, None)

  function Note(n: Notes, request: Request, reply: Reply): Notes {
    match request
    case QueryActive => if reply.Found? then NOTHING.(active := true, read := Some(reply.row)) else NOTHING
    case QueryNext => if reply.Found? then NOTHING.(read := Some(reply.row)) else NOTHING
    case GetHead => if reply.Head? then n.(head := Some(reply.number), headHash := Some(reply.hash)) else n
    case GetReceipt(_) => if reply.Included? then n.(receipt := Some(reply.receipt)) else n
    case GetNonce(_) => if reply.NonceIs? then n.(nonce := Some(reply.nonce)) else n
    case GetPrice => if reply.PriceIs? then n.(suggested := Some(reply.price)) else n
    case GetGas(_, _, _, _) =>
      if reply.GasIs? then n.(gas := Some(reply.gas)) else if reply.Reverted? then n.(reason := Some(reply.reason)) else n
    case GetSignature(tx) => if reply.Signature? then n.(signed := Some(TxHash(tx, reply.signature))) else n
    case _ => n
  }

  /** The call that the watcher of wallet w makes next. */
  function Now(cfg: Config, run: seq<Action>, w: nat): Request
    requires w < |After(cfg, run).pcs|
  {
    Ask(cfg, w, After(cfg, run).pcs[w])
  }

  function NotesOf(cfg: Config, run: seq<Action>, w: nat): Notes {
    if run == [] then NOTHING
    else
      var before, a := run[..|run|-1], run[|run|-1];
      if a.Watch? && a.w == w && w < |After(cfg, before).pcs|
      then Note(NotesOf(cfg, before, w), Now(cfg, before, w), a.reply)
      else NotesOf(cfg, before, w)
  }

  // ---------------------------------------------------------------- what a point knows

  /** The head at which the row's transaction was last sent. */
  function SentAt(row: Row): nat {
    if row.boostedNumber.Some? then row.boostedNumber.value else row.submittedNumber.Or(0)
  }

  /** The row as read, not mined any more. */
  function Unmined(row: Row): Row {
    if row.minedNumber.Some? then row.(minedNumber := None, minedHash := None) else row
  }

  predicate BoostTx(cfg: Config, w: nat, n: Notes, tx: Tx) {
    && n.read.Some? && n.suggested.Some? && n.gas.Some?
    && tx.from == SenderOf(cfg, w) && tx.nonce == n.read.value.nonce.Or(0) && tx.gas == 2 * n.gas.value
    && tx.to == n.read.value.to && tx.data == n.read.value.data
    && Offers(tx.gasPrice, n.read.value.gasPrice.Or(0), n.suggested.value)
  }

  predicate FirstTx(cfg: Config, w: nat, n: Notes, tx: Tx) {
    && n.read.Some? && n.suggested.Some? && n.gas.Some? && n.nonce.Some?
    && tx.from == SenderOf(cfg, w) && tx.nonce == n.nonce.value && tx.gas == 2 * n.gas.value
    && tx.to == n.read.value.to && tx.data == n.read.value.data && tx.gasPrice == 2 * n.suggested.value
  }

  /** Boosting is on, and the last send is old enough. */
  predicate BoostDue(cfg: Config, n: Notes) {
    && n.active && n.read.Some? && n.head.Some?
    && !cfg.disableBoosting && n.head.value - SentAt(n.read.value) >= cfg.boostAfterBlocks
  }

  ghost predicate Knows(cfg: Config, w: nat, pc: Pc, n: Notes) {
    pc.At? ==>
      && n.read.Some? && pc.row.id == n.read.value.id && KnowsAt(cfg, w, pc.row, pc.point, n, n.read.value)
      && (n.receipt.Some? <==> pc.point.MinedPost? || pc.point.MinedStore? || pc.point.ConfirmPost? || pc.point.ConfirmDelete?)
      && (n.signed.Some? <==> pc.point.BoostStore? || pc.point.BoostSend? || pc.point.SendSubmit? || pc.point.SubmitStore?
                              || pc.point.SubmitPost?)
  }

  ghost predicate KnowsAt(cfg: Config, w: nat, row: Row, point: Point, n: Notes, read: Row)
    requires n.read == Some(read)
  {
    match point
    case ActiveHead => n.active && row == read
    case ActiveReceipt(head) => n.active && row == read && n.head == Some(head)
    case Unmine(head) => n.active && row == Unmined(read) && n.head == Some(head) && read.minedNumber.Some?
    case BoostPrice(head) => BoostDue(cfg, n) && row == Unmined(read) && n.head == Some(head)
    case BoostGas(head, price) =>
      && BoostDue(cfg, n) && row == Unmined(read) && n.head == Some(head)
      && n.suggested.Some? && Offers(price, read.gasPrice.Or(0), n.suggested.value)
    case BoostSign(head, tx) => BoostDue(cfg, n) && row == Unmined(read) && n.head == Some(head) && BoostTx(cfg, w, n, tx)
    case BoostStore(hash) => Boosted(cfg, w, row, hash, n, read)
    case BoostSend(hash) => Boosted(cfg, w, row, hash, n, read)
    case MinedPost(receipt) => n.active && row == read && n.head.Some? && n.receipt == Some(receipt) && read.minedNumber.None?
    case MinedStore =>
      && n.active && n.head.Some? && n.receipt.Some?
      && row == read.(minedNumber := Some(n.receipt.value.number), minedHash := Some(n.receipt.value.hash))
    case ConfirmPost(receipt) => DeepEnough(cfg, row, receipt, n, read)
    case ConfirmDelete => n.receipt.Some? && DeepEnough(cfg, row, n.receipt.value, n, read)
    case FailPost(reason) => n.reason == Some(reason) && row == Unmined(read)
    case FailDelete => n.reason.Some? && row == Unmined(read)
    case SendHead => !n.active && row == read
    case SendNonce(head, headHash) => !n.active && row == read && n.head == Some(head) && n.headHash == Some(headHash)
    case SendPrice(head, headHash, nonce) =>
      !n.active && row == read && n.head == Some(head) && n.headHash == Some(headHash) && n.nonce == Some(nonce)
    case SendGas(head, headHash, nonce, price) =>
      && !n.active && row == read && n.head == Some(head) && n.headHash == Some(headHash) && n.nonce == Some(nonce)
      && n.suggested.Some? && price == 2 * n.suggested.value
    case SendSign(head, headHash, tx) =>
      !n.active && row == read && n.head == Some(head) && n.headHash == Some(headHash) && FirstTx(cfg, w, n, tx)
    case SendSubmit(head, headHash, tx, signature) =>
      && !n.active && row == read && n.head == Some(head) && n.headHash == Some(headHash) && FirstTx(cfg, w, n, tx)
      && n.signed == Some(TxHash(tx, signature))
    case SubmitStore => Submitted(cfg, w, row, n, read)
    case SubmitPost => Submitted(cfg, w, row, n, read)
  }

  predicate Boosted(cfg: Config, w: nat, row: Row, hash: TxHash, n: Notes, read: Row) {
    && BoostDue(cfg, n) && n.signed == Some(hash) && BoostTx(cfg, w, n, hash.tx)
    && row == Unmined(read).(boostedNumber := n.head, boostedHash := Some(hash), nonce := Some(hash.tx.nonce),
                             gasPrice := Some(hash.tx.gasPrice), hash := Some(hash))
  }

  predicate Submitted(cfg: Config, w: nat, row: Row, n: Notes, read: Row) {
    && !n.active && n.head.Some? && n.headHash.Some? && n.signed.Some? && FirstTx(cfg, w, n, n.signed.value.tx)
    && row == read.(submittedNumber := n.head, submittedHash := n.headHash, nonce := Some(n.signed.value.tx.nonce),
                    gasPrice := Some(n.signed.value.tx.gasPrice), hash := n.signed)
  }

  predicate DeepEnough(cfg: Config, row: Row, receipt: Receipt, n: Notes, read: Row) {
    && n.active && row == read && n.receipt == Some(receipt) && n.head.Some? && read.minedNumber.Some?
    && n.head.value - receipt.number >= cfg.confirmationBlocks
  }

  // ---------------------------------------------------------------- one call

  lemma KnowsBoost(cfg: Config, w: nat, row: Row, point: Point, n: Notes, reply: Reply)
    requires Knows(cfg, w, At(row, point), n)
    requires point.BoostPrice? || point.BoostGas? || point.BoostSign? || point.BoostStore? || point.BoostSend?
    ensures Knows(cfg, w, NextAt(cfg, w, row, point, reply), Note(n, AskAt(cfg, w, row, point), reply))
  {
    if point.BoostPrice? && reply.PriceIs? {
      BoostStalls(n.read.value.gasPrice.Or(0), reply.price);
    }
  }

  lemma KnowsAsking(cfg: Config, w: nat, row: Row, point: Point, n: Notes, reply: Reply)
    requires Knows(cfg, w, At(row, point), n) && (point.SendHead? || point.SendNonce? || point.SendPrice?)
    ensures Knows(cfg, w, NextAt(cfg, w, row, point, reply), Note(n, AskAt(cfg, w, row, point), reply))
  {
  }

  lemma KnowsSending(cfg: Config, w: nat, row: Row, point: Point, n: Notes, reply: Reply)
    requires Knows(cfg, w, At(row, point), n) && (point.SendGas? || point.SendSign? || point.SendSubmit?)
    requires row.minedNumber.None?
    ensures Knows(cfg, w, NextAt(cfg, w, row, point, reply), Note(n, AskAt(cfg, w, row, point), reply))
  {
  }

  lemma KnowsLast(cfg: Config, w: nat, row: Row, point: Point, n: Notes, reply: Reply)
    requires Knows(cfg, w, At(row, point), n)
    requires point.SubmitStore? || point.SubmitPost? || point.FailPost? || point.FailDelete?
    ensures Knows(cfg, w, NextAt(cfg, w, row, point, reply), Note(n, AskAt(cfg, w, row, point), reply))
  {
  }

  lemma KnowsActive(cfg: Config, w: nat, row: Row, point: Point, n: Notes, reply: Reply)
    requires Knows(cfg, w, At(row, point), n)
    requires point.ActiveHead? || point.ActiveReceipt? || point.Unmine? || point.MinedPost? || point.MinedStore?
      || point.ConfirmPost? || point.ConfirmDelete?
    ensures Knows(cfg, w, NextAt(cfg, w, row, point, reply), Note(n, AskAt(cfg, w, row, point), reply))
  {
  }

  lemma KnowsHeld(cfg: Config, w: nat, row: Row, point: Point, n: Notes, reply: Reply)
    requires Knows(cfg, w, At(row, point), n) && (point.Sending() ==> row.minedNumber.None?)
    ensures Knows(cfg, w, NextAt(cfg, w, row, point, reply), Note(n, AskAt(cfg, w, row, point), reply))
  {
    if point.SendHead? || point.SendNonce? || point.SendPrice? {
      KnowsAsking(cfg, w, row, point, n, reply);
    } else if point.Sending() {
      KnowsSending(cfg, w, row, point, n, reply);
    } else if point.SubmitStore? || point.SubmitPost? || point.FailPost? || point.FailDelete? {
      KnowsLast(cfg, w, row, point, n, reply);
    } else if point.BoostPrice? || point.BoostGas? || point.BoostSign? || point.BoostStore? || point.BoostSend? {
      KnowsBoost(cfg, w, row, point, n, reply);
    } else {
      KnowsActive(cfg, w, row, point, n, reply);
    }
  }

  lemma KnowsCall(cfg: Config, w: nat, pc: Pc, n: Notes, reply: Reply)
    requires Knows(cfg, w, pc, n) && (pc.At? && pc.point.Sending() ==> pc.row.minedNumber.None?)
    ensures Knows(cfg, w, Next(cfg, w, pc, reply), Note(n, Ask(cfg, w, pc), reply))
  {
    if pc.At? {
      KnowsHeld(cfg, w, pc.row, pc.point, n, reply);
    }
  }

  lemma SendingUnmined(cfg: Config, s: World, w: nat)
    requires Inv(cfg, s) && w < |s.pcs| && s.pcs[w].At? && s.pcs[w].point.Sending()
    ensures s.pcs[w].row.minedNumber.None?
  {
    assert View(cfg, s.store.rows, s.born, w, s.pcs[w]);
  }

  lemma {:induction false} KnowsHold(cfg: Config, t: Terms, run: seq<Action>, w: nat)
    requires Legal(cfg, t, run) && w < |After(cfg, run).pcs|
    ensures Knows(cfg, w, After(cfg, run).pcs[w], NotesOf(cfg, run, w))
  {
    if run != [] {
      var before, a := run[..|run|-1], run[|run|-1];
      var s := After(cfg, before);
      KnowsHold(cfg, t, before, w);
      if a.Watch? && a.w == w {
        Reachable(cfg, t, before);
        if s.pcs[w].At? && s.pcs[w].point.Sending() {
          SendingUnmined(cfg, s, w);
        }
        KnowsCall(cfg, w, s.pcs[w], NotesOf(cfg, before, w), a.reply);
      }
    }
  }

  // ---------------------------------------------------------------- the rules of a Tick

  /** The Tick goes on with this call. */
  predicate Calls(cfg: Config, w: nat, pc: Pc, request: Request) {
    !pc.Idle? && Ask(cfg, w, pc) == request
  }

  /** After the two queries and the head. */
  predicate OpeningRule(cfg: Config, w: nat, n: Notes, asked: Request, reply: Reply, next: Pc) {
    match asked
    case QueryActive =>
      if reply.Found? then Calls(cfg, w, next, GetHead)
      else if reply.NoRows? then Calls(cfg, w, next, QueryNext)
      else next == Idle(true)
    case QueryNext =>
      if reply.Found? then Calls(cfg, w, next, GetHead) else next == Idle(!reply.NoRows?)
    case _ =>
      && n.read.Some?
      && if !reply.Head? then next == Idle(true)
         else Calls(cfg, w, next, if n.active then GetReceipt(n.read.value.hash) else GetNonce(SenderOf(cfg, w)))
  }

  /** A boost is tried exactly when boosting is on and the last send, `sent`, is old enough at the head. */
  predicate BoostRule(cfg: Config, w: nat, head: nat, sent: nat, next: Pc) {
    if !cfg.disableBoosting && head - sent >= cfg.boostAfterBlocks then Calls(cfg, w, next, GetPrice)
    else next == Idle(false)
  }

  /** The receipt decides: mined, deep enough, moved, or to be waited for; or gone, and maybe to be boosted. */
  predicate ReceiptRule(cfg: Config, w: nat, n: Notes, reply: Reply, next: Pc) {
    && n.read.Some? && n.head.Some?
    && var row, head := n.read.value, n.head.value;
       if reply.Included? then
         var receipt := reply.receipt;
         if row.minedNumber.None? then Calls(cfg, w, next, Post(Mined(row.id, row.hash)))
         else if head - receipt.number >= cfg.confirmationBlocks then
           Calls(cfg, w, next, Post(Confirmed(row.id, row.hash, receipt.successful, receipt.logs)))
         else if row.minedHash != Some(receipt.hash) then
           Calls(cfg, w, next, Save(row.(minedNumber := Some(receipt.number), minedHash := Some(receipt.hash)),
                                    {MinedBlockNumber, MinedBlockHash, UpdatedAt}))
         else next == Idle(false)
       else if !reply.NotIncluded? then next == Idle(true)
       else if row.minedNumber.Some? then
         Calls(cfg, w, next, Save(row.(minedNumber := None, minedHash := None), {MinedBlockNumber, MinedBlockHash, UpdatedAt}))
       else BoostRule(cfg, w, head, SentAt(row), next)
  }

  /** The price asked about: a first submission offers twice the suggestion, a boost that or a fifth more, whichever is more. */
  predicate PriceRule(cfg: Config, w: nat, n: Notes, reply: Reply, next: Pc) {
    && n.read.Some?
    && if !reply.PriceIs? then next == Idle(true)
       else
         var asked, row, s := Ask(cfg, w, next), n.read.value, reply.price;
         && !next.Idle? && asked.GetGas?
         && asked.account == SenderOf(cfg, w) && asked.to == row.to && asked.data == row.data
         && if n.active then
              var p := row.gasPrice.Or(0);
              asked.price >= p + p / 5 && asked.price >= 2 * s && (asked.price == p + p / 5 || asked.price == 2 * s)
            else asked.price == 2 * s
  }

  /** What is signed: the payload asked about, at the price asked about, with twice the gas estimated. */
  predicate GasRule(cfg: Config, w: nat, n: Notes, asked: Request, reply: Reply, next: Pc)
    requires asked.GetGas?
  {
    && n.read.Some?
    && if reply.GasIs? then
         var nonce := if n.active then n.read.value.nonce.Or(0) else n.nonce.Or(0);
         Calls(cfg, w, next, GetSignature(Tx(asked.account, nonce, asked.price, 2 * reply.gas, asked.to, asked.data)))
       else if reply.Reverted? then Calls(cfg, w, next, Post(Failed(n.read.value.id, reply.reason)))
       else next == Idle(true)
  }

  /** A boost is stored first, with the head, the signed hash, its nonce and price; a first submission is sent first. */
  predicate SignatureRule(cfg: Config, w: nat, n: Notes, tx: Tx, reply: Reply, next: Pc) {
    && n.read.Some?
    && if !reply.Signature? then next == Idle(true)
       else
         var row, hash := Unmined(n.read.value), TxHash(tx, reply.signature);
         Calls(cfg, w, next,
               if n.active then
                 Save(row.(boostedNumber := n.head, boostedHash := Some(hash), nonce := Some(tx.nonce),
                           gasPrice := Some(tx.gasPrice), hash := Some(hash)),
                      {BoostedBlockHash, BoostedBlockNumber, Nonce, GasPrice, UpdatedAt, Hash})
               else Submit(row.id, hash, false))
  }

  /** What is sent is what was signed. A refusal ends the Tick with an error; a first send is stored, with its hash. */
  predicate SubmitRule(cfg: Config, w: nat, n: Notes, asked: Request, reply: Reply, next: Pc)
    requires asked.Submit?
  {
    && reply.Sent? && n.read.Some? && asked.id == n.read.value.id && n.signed == Some(asked.hash) && asked.boost == n.active
    && if n.active || !reply.ok then next == Idle(!reply.ok)
       else
         var tx := asked.hash.tx;
         Calls(cfg, w, next,
               Save(n.read.value.(submittedNumber := n.head, submittedHash := n.headHash, nonce := Some(tx.nonce),
                                  gasPrice := Some(tx.gasPrice), hash := Some(asked.hash)),
                    {SubmittedBlockHash, Hash, SubmittedBlockNumber, Nonce, GasPrice, UpdatedAt}))
  }

  /** After a write: a boost is sent, a first submission announced, an unmined row maybe boosted; an error ends the Tick. */
  predicate WriteRule(cfg: Config, w: nat, n: Notes, reply: Reply, next: Pc) {
    && n.read.Some? && n.head.Some?
    && var row := n.read.value;
       if !reply.Done? then next == Idle(true)
       else if n.receipt.Some? then next == Idle(false)
       else if n.signed.Some? then
         Calls(cfg, w, next,
               if n.active then Submit(row.id, n.signed.value, true) else Post(Message.Submitted(row.id, n.signed)))
       else BoostRule(cfg, w, n.head.value, SentAt(row), next)
  }

  /** After a message: the mined block is stored, the confirmed or failed request removed, or the Tick is over. */
  predicate PostRule(cfg: Config, w: nat, n: Notes, message: Message, next: Pc) {
    && n.read.Some?
    && match message
       case Submitted(_, _) => next == Idle(false)
       case Mined(_, _) =>
         && n.receipt.Some?
         && Calls(cfg, w, next, Save(n.read.value.(minedNumber := Some(n.receipt.value.number),
                                                   minedHash := Some(n.receipt.value.hash)),
                                     {MinedBlockNumber, MinedBlockHash, UpdatedAt}))
       case _ => Calls(cfg, w, next, Remove(n.read.value.id))
  }

  /** After a deletion: a confirmed request makes room for the next, a failed one ends the Tick. */
  predicate RemoveRule(cfg: Config, w: nat, n: Notes, id: Id, reply: Reply, next: Pc) {
    && n.read.Some? && id == n.read.value.id
    && if !reply.Done? then next == Idle(true)
       else if n.receipt.Some? then Calls(cfg, w, next, QueryNext)
       else next == Idle(false)
  }

  /** What a Tick does next, in terms of what it has heard. */
  predicate Rule(cfg: Config, w: nat, n: Notes, asked: Request, reply: Reply, next: Pc) {
    match asked
    case GetReceipt(_) => ReceiptRule(cfg, w, n, reply, next)
    case GetNonce(_) => if reply.NonceIs? then Calls(cfg, w, next, GetPrice) else next == Idle(true)
    case GetPrice => PriceRule(cfg, w, n, reply, next)
    case GetGas(_, _, _, _) => GasRule(cfg, w, n, asked, reply, next)
    case GetSignature(tx) => SignatureRule(cfg, w, n, tx, reply, next)
    case Submit(_, _, _) => SubmitRule(cfg, w, n, asked, reply, next)
    case Save(_, _) => WriteRule(cfg, w, n, reply, next)
    case Remove(id) => RemoveRule(cfg, w, n, id, reply, next)
    case Post(message) => PostRule(cfg, w, n, message, next)
    case _ => OpeningRule(cfg, w, n, asked, reply, next)
  }

  // ---------------------------------------------------------------- the step program keeps them

  lemma RuleOfOffer(cfg: Config, w: nat, row: Row, point: Point, n: Notes, reply: Reply)
    requires Knows(cfg, w, At(row, point), n) && (point.BoostPrice? || point.BoostGas?)
    ensures Rule(cfg, w, n, AskAt(cfg, w, row, point), reply, NextAt(cfg, w, row, point, reply))
  {
    if point.BoostPrice? && reply.PriceIs? {
      BoostStalls(n.read.value.gasPrice.Or(0), reply.price);
    }
  }

  lemma RuleOfBoost(cfg: Config, w: nat, row: Row, point: Point, n: Notes, reply: Reply)
    requires Knows(cfg, w, At(row, point), n) && (point.BoostSign? || point.BoostStore? || point.BoostSend?)
    requires point.BoostSend? ==> reply.Sent?
    ensures Rule(cfg, w, n, AskAt(cfg, w, row, point), reply, NextAt(cfg, w, row, point, reply))
  {
  }

  lemma RuleOfReceipt(cfg: Config, w: nat, row: Row, point: Point, n: Notes, reply: Reply)
    requires Knows(cfg, w, At(row, point), n) && (point.ActiveReceipt? || point.Unmine?)
    ensures Rule(cfg, w, n, AskAt(cfg, w, row, point), reply, NextAt(cfg, w, row, point, reply))
  {
  }

  lemma RuleOfActive(cfg: Config, w: nat, row: Row, point: Point, n: Notes, reply: Reply)
    requires Knows(cfg, w, At(row, point), n)
    requires point.ActiveHead? || point.MinedPost? || point.MinedStore? || point.ConfirmPost? || point.ConfirmDelete?
    ensures Rule(cfg, w, n, AskAt(cfg, w, row, point), reply, NextAt(cfg, w, row, point, reply))
  {
  }

  lemma RuleOfAsking(cfg: Config, w: nat, row: Row, point: Point, n: Notes, reply: Reply)
    requires Knows(cfg, w, At(row, point), n) && (point.SendHead? || point.SendNonce? || point.SendPrice?)
    ensures Rule(cfg, w, n, AskAt(cfg, w, row, point), reply, NextAt(cfg, w, row, point, reply))
  {
  }

  lemma RuleOfSigning(cfg: Config, w: nat, row: Row, point: Point, n: Notes, reply: Reply)
    requires Knows(cfg, w, At(row, point), n) && (point.SendGas? || point.SendSign?) && row.minedNumber.None?
    ensures Rule(cfg, w, n, AskAt(cfg, w, row, point), reply, NextAt(cfg, w, row, point, reply))
  {
  }

  lemma RuleOfSending(cfg: Config, w: nat, row: Row, point: Point, n: Notes, reply: Reply)
    requires Knows(cfg, w, At(row, point), n) && point.SendSubmit? && reply.Sent?
    ensures Rule(cfg, w, n, AskAt(cfg, w, row, point), reply, NextAt(cfg, w, row, point, reply))
  {
  }

  lemma RuleOfLast(cfg: Config, w: nat, row: Row, point: Point, n: Notes, reply: Reply)
    requires Knows(cfg, w, At(row, point), n)
    requires point.SubmitStore? || point.SubmitPost? || point.FailPost? || point.FailDelete?
    ensures Rule(cfg, w, n, AskAt(cfg, w, row, point), reply, NextAt(cfg, w, row, point, reply))
  {
  }

  lemma RuleOfHeld(cfg: Config, w: nat, row: Row, point: Point, n: Notes, reply: Reply)
    requires Knows(cfg, w, At(row, point), n) && (point.Sending() ==> row.minedNumber.None?)
    requires AskAt(cfg, w, row, point).Submit? ==> reply.Sent?
    ensures Rule(cfg, w, n, AskAt(cfg, w, row, point), reply, NextAt(cfg, w, row, point, reply))
  {
    if point.SendHead? || point.SendNonce? || point.SendPrice? {
      RuleOfAsking(cfg, w, row, point, n, reply);
    } else if point.SendGas? || point.SendSign? {
      RuleOfSigning(cfg, w, row, point, n, reply);
    } else if point.Sending() {
      RuleOfSending(cfg, w, row, point, n, reply);
    } else if point.SubmitStore? || point.SubmitPost? || point.FailPost? || point.FailDelete? {
      RuleOfLast(cfg, w, row, point, n, reply);
    } else if point.BoostPrice? || point.BoostGas? {
      RuleOfOffer(cfg, w, row, point, n, reply);
    } else if point.BoostSign? || point.BoostStore? || point.BoostSend? {
      RuleOfBoost(cfg, w, row, point, n, reply);
    } else if point.ActiveReceipt? || point.Unmine? {
      RuleOfReceipt(cfg, w, row, point, n, reply);
    } else {
      RuleOfActive(cfg, w, row, point, n, reply);
    }
  }

  lemma RuleOfCall(cfg: Config, w: nat, pc: Pc, n: Notes, reply: Reply)
    requires Knows(cfg, w, pc, n) && (pc.At? && pc.point.Sending() ==> pc.row.minedNumber.None?)
    requires Ask(cfg, w, pc).Submit? ==> reply.Sent?
    requires !pc.At? ==> reply.Found? || reply.NoRows? || reply.Fault?
    ensures Rule(cfg, w, n, Ask(cfg, w, pc), reply, Next(cfg, w, pc, reply))
  {
    if pc.At? {
      RuleOfHeld(cfg, w, pc.row, pc.point, n, reply);
    }
  }

  lemma FitsCall(store: Store, chain: seq<Block>, w: nat, request: Request, reply: Reply)
    requires Answers(store, chain, w, request, reply)
    ensures request.Submit? ==> reply.Sent?
    ensures request.QueryActive? || request.QueryNext? ==> reply.Found? || reply.NoRows? || reply.Fault?
  {
  }

  /**
    Over every run, whatever fails and whoever interferes: what a watcher does after any reply is what the rules
    say of the replies it got since it read the row in hand.
  */
  lemma TicksFollowRules(cfg: Config, t: Terms, run: seq<Action>, w: nat, reply: Reply)
    requires Legal(cfg, t, run) && w < |After(cfg, run).pcs| == |After(cfg, run).seen|
    requires Enabled(cfg, After(cfg, run), Watch(w, reply))
    ensures Rule(cfg, w, NotesOf(cfg, run, w), Now(cfg, run, w), reply, Apply(cfg, After(cfg, run), Watch(w, reply)).pcs[w])
    ensures w < |cfg.senders| && SenderOf(cfg, w) == cfg.senders[w]
  {
    var s := After(cfg, run);
    KnowsHold(cfg, t, run, w);
    Reachable(cfg, t, run);
    RuleInWorld(cfg, s, w, reply, NotesOf(cfg, run, w));
  }

  lemma RuleInWorld(cfg: Config, s: World, w: nat, reply: Reply, n: Notes)
    requires Inv(cfg, s) && w < |s.pcs| && Knows(cfg, w, s.pcs[w], n)
    requires Answers(s.store, s.chain, w, Ask(cfg, w, s.pcs[w]), reply)
    ensures Rule(cfg, w, n, Ask(cfg, w, s.pcs[w]), reply, Next(cfg, w, s.pcs[w], reply))
  {
    if s.pcs[w].At? && s.pcs[w].point.Sending() {
      SendingUnmined(cfg, s, w);
    }
    FitsCall(s.store, s.chain, w, Ask(cfg, w, s.pcs[w]), reply);
    RuleOfCall(cfg, w, s.pcs[w], n, reply);
  }
}
