/**
  Tick as the source writes it, over services that anyone else may change between two calls,
  proved to be an execution of the watcher's step program: every call it makes is the one
  `Ask` names at that point, with a reply the services may give, and it returns where `Next` ends.
*/
module Tick {
  import opened Types
  import Steps = Watcher
  import opened System

  /** A call made, with the shared store and chain it met and the store it left. */
  datatype Call = Call(store: Store, chain: seq<Block>, request: Steps.Request, reply: Steps.Reply, after: Store)

  function PcAfter(cfg: Steps.Config, w: nat, start: Steps.Pc, calls: seq<Call>): Steps.Pc {
    if calls == [] then start
    else Steps.Next(cfg, w, PcAfter(cfg, w, start, calls[..|calls|-1]), calls[|calls|-1].reply)
  }

  /** The k-th call is the one the step program makes there, answered and served as the system does. */
  ghost predicate CallOk(cfg: Steps.Config, w: nat, start: Steps.Pc, calls: seq<Call>, k: nat)
    requires k < |calls|
  {
    var call := calls[k];
    && call.request == Steps.Ask(cfg, w, PcAfter(cfg, w, start, calls[..k]))
    && Answers(call.store, call.chain, w, call.request, call.reply)
    && call.after == Effect(call.store, w, call.request, call.reply)
  }

  ghost predicate Executes(cfg: Steps.Config, w: nat, start: Steps.Pc, calls: seq<Call>) {
    forall k: nat :: k < |calls| ==> CallOk(cfg, w, start, calls, k)
  }

  /** A call met in some state of the system is a step the system can take there, with the same outcome. */
  lemma CallIsStep(cfg: Steps.Config, s: World, w: nat, start: Steps.Pc, calls: seq<Call>, k: nat)
    requires Executes(cfg, w, start, calls) && k < |calls|
    requires w < |s.pcs| == |s.seen| && s.pcs[w] == PcAfter(cfg, w, start, calls[..k])
    requires s.store == calls[k].store && s.chain == calls[k].chain
    ensures Enabled(cfg, s, Watch(w, calls[k].reply))
    ensures
      var s' := Apply(cfg, s, Watch(w, calls[k].reply));
      s'.store == calls[k].after && s'.pcs[w] == PcAfter(cfg, w, start, calls[..k+1])
  {
    assert CallOk(cfg, w, start, calls, k);
    assert calls[..k+1][..k] == calls[..k];
  }

  lemma ExecutesAppend(cfg: Steps.Config, w: nat, start: Steps.Pc, calls: seq<Call>, call: Call)
    requires Executes(cfg, w, start, calls)
    requires call.request == Steps.Ask(cfg, w, PcAfter(cfg, w, start, calls))
    requires Answers(call.store, call.chain, w, call.request, call.reply)
    requires call.after == Effect(call.store, w, call.request, call.reply)
    ensures Executes(cfg, w, start, calls + [call])
    ensures PcAfter(cfg, w, start, calls + [call]) == Steps.Next(cfg, w, PcAfter(cfg, w, start, calls), call.reply)
  {
    var all := calls + [call];
    assert all[..|calls|] == calls;
    forall k: nat | k < |all| ensures CallOk(cfg, w, start, all, k) {
      if k < |calls| {
        assert CallOk(cfg, w, start, calls, k);
        assert all[..k] == calls[..k];
      }
    }
  }

  /** The kinds of reply a request can get. */
  predicate Fits(request: Steps.Request, reply: Steps.Reply) {
    match request
    case QueryActive => reply.Found? || reply.NoRows? || reply.Fault?
    case QueryNext => reply.Found? || reply.NoRows? || reply.Fault?
    case GetHead => reply.Head? || reply.Fault?
    case GetReceipt(_) => reply.Included? || reply.NotIncluded? || reply.Fault?
    case GetNonce(_) => reply.NonceIs? || reply.Fault?
    case GetPrice => reply.PriceIs? || reply.Fault?
    case GetGas(_, _, _, _) => reply.GasIs? || reply.Reverted? || reply.Fault?
    case GetSignature(_) => reply.Signature? || reply.Fault?
    case Submit(_, _, _) => reply.Sent?
    case Save(_, _) => reply.Wrote() || reply.Fault?
    case Remove(_) => reply.Wrote() || reply.Fault?
    case Post(_) => reply.Done?
  }

  /** Database, node, signer and status producer, shared with everyone else. */
  class Services {
    const cfg: Steps.Config
    const w: nat

    var rows: Table
    var posts: seq<Posted>
    var sends: seq<Send>
    var chain: seq<Block>

    ghost const start: Steps.Pc
    ghost var calls: seq<Call>
    ghost var pc: Steps.Pc

    constructor (cfg: Steps.Config, w: nat)
      ensures this.cfg == cfg && this.w == w && start == Steps.Idle(false) && pc == start && Traced()
    {
      this.cfg, this.w, this.start := cfg, w, Steps.Idle(false);
      rows, posts, sends, chain := map[], [], [], [GENESIS];
      calls, pc := [], Steps.Idle(false);
    }

    ghost function Now(): Store
      reads this
    {
      Store(rows, posts, sends)
    }

    /** All calls so far execute the step program, which is now at `pc`. */
    ghost predicate Traced()
      reads this
    {
      Executes(cfg, w, start, calls) && pc == PcAfter(cfg, w, start, calls)
    }

    ghost predicate Expects(request: Steps.Request)
      reads this
    {
      Traced() && Steps.Ask(cfg, w, pc) == request
    }

    /** The request was the next call of the program; it is on record with its reply. */
    twostate predicate Made(request: Steps.Request, reply: Steps.Reply)
      reads this
    {
      && Traced() && pc == Steps.Next(cfg, w, old(pc), reply)
      && |calls| == |old(calls)| + 1 && old(calls) <= calls
      && Fits(request, reply)
    }

    /** The table's primary key, and a chain that has begun. */
    ghost predicate Valid()
      reads this
    {
      |chain| > 0 && forall id: Id :: id in rows ==> rows[id].id == id
    }

    /** Others run: the consumer, the cleaner, the other watchers and the chain may have done anything. */
    method Interfere()
      modifies this`rows, this`posts, this`sends, this`chain
      ensures Valid()
    {
      var table: Table, head: Block, tail: seq<Block> := *, *, *;
      rows := map id | id in table :: table[id].(id := id);
      chain := [head] + tail;
      posts, sends := *, *;
    }

    ghost method Record(before: Store, request: Steps.Request, reply: Steps.Reply)
      requires Expects(request) && Answers(before, chain, w, request, reply)
      requires Now() == Effect(before, w, request, reply)
      modifies this`calls, this`pc
      ensures Made(request, reply)
      ensures Now() == old(Now())
    {
      ExecutesAppend(cfg, w, start, calls, Call(before, chain, request, reply, Now()));
      calls := calls + [Call(before, chain, request, reply, Now())];
      pc := Steps.Next(cfg, w, pc, reply);
    }

    // SELECT ... WHERE submitted_block_number IS NOT NULL AND wallet_index = w
    method ActiveRow() returns (reply: Steps.Reply)
      requires Expects(Steps.QueryActive)
      modifies this
      ensures Made(Steps.QueryActive, reply)
    {
      Interfere();
      if * {
        reply := Steps.Fault;
      } else if id :| id in rows && rows[id].wallet == w && rows[id].Submitted() {
        reply := Steps.Found(rows[id]);
      } else {
        reply := Steps.NoRows;
      }
      Record(Now(), Steps.QueryActive, reply);
    }

    // SELECT ... WHERE wallet_index = w ORDER BY id ASC LIMIT 1
    method NextRow() returns (reply: Steps.Reply)
      requires Expects(Steps.QueryNext)
      modifies this
      ensures Made(Steps.QueryNext, reply)
    {
      Interfere();
      var ids := set id | id in rows && rows[id].wallet == w;
      assert forall id: Id :: InWallet(rows, id, w) <==> id in ids;
      if * {
        reply := Steps.Fault;
      } else if ids == {} {
        reply := Steps.NoRows;
      } else {
        var least := Least(ids);
        reply := Steps.Found(rows[least]);
      }
      Record(Now(), Steps.QueryNext, reply);
    }

    method HeaderByNumber() returns (reply: Steps.Reply)
      requires Expects(Steps.GetHead)
      modifies this
      ensures Made(Steps.GetHead, reply)
    {
      Interfere();
      if * {
        reply := Steps.Fault;
      } else {
        reply := Steps.Head(|chain| - 1, chain[|chain|-1].hash);
      }
      Record(Now(), Steps.GetHead, reply);
    }

    method TransactionReceipt(hash: Option<TxHash>) returns (reply: Steps.Reply)
      requires Expects(Steps.GetReceipt(hash))
      modifies this
      ensures Made(Steps.GetReceipt(hash), reply)
    {
      Interfere();
      if * {
        reply := Steps.Fault;
      } else if n :| 0 <= n < |chain| && hash.Some? && hash.value in chain[n].txs {
        var successful, logs := *, *;
        reply := Steps.Included(Receipt(n, chain[n].hash, successful, logs));
        assert InBlock(chain, n, hash.value);
      } else {
        reply := Steps.NotIncluded;
      }
      Record(Now(), Steps.GetReceipt(hash), reply);
    }

    method PendingNonceAt(account: Address) returns (reply: Steps.Reply)
      requires Expects(Steps.GetNonce(account))
      modifies this
      ensures Made(Steps.GetNonce(account), reply)
    {
      Interfere();
      var least := NonceAbove(chain, account);
      reply := *;
      if !reply.Fault? && !(reply.NonceIs? && reply.nonce >= least) {
        reply := Steps.NonceIs(least);
      }
      Record(Now(), Steps.GetNonce(account), reply);
    }

    method SuggestGasPrice() returns (reply: Steps.Reply)
      requires Expects(Steps.GetPrice)
      modifies this
      ensures Made(Steps.GetPrice, reply)
    {
      Interfere();
      var price: nat := *;
      reply := *;
      if !reply.Fault? {
        reply := Steps.PriceIs(price);
      }
      Record(Now(), Steps.GetPrice, reply);
    }

    method EstimateGas(account: Address, to: Bytes, price: nat, data: Bytes) returns (reply: Steps.Reply)
      requires Expects(Steps.GetGas(account, to, price, data))
      modifies this
      ensures Made(Steps.GetGas(account, to, price, data), reply)
    {
      Interfere();
      var gas: nat := *;
      reply := *;
      if !reply.Fault? && !reply.Reverted? {
        reply := Steps.GasIs(gas);
      }
      Record(Now(), Steps.GetGas(account, to, price, data), reply);
    }

    method Sign(tx: Tx) returns (reply: Steps.Reply)
      requires Expects(Steps.GetSignature(tx))
      modifies this
      ensures Made(Steps.GetSignature(tx), reply)
    {
      Interfere();
      var signature: Bytes := *;
      reply := *;
      if !reply.Fault? {
        reply := Steps.Signature(signature);
      }
      Record(Now(), Steps.GetSignature(tx), reply);
    }

    method SendTransaction(id: Id, hash: TxHash, boost: bool) returns (reply: Steps.Reply)
      requires Expects(Steps.Submit(id, hash, boost))
      modifies this
      ensures Made(Steps.Submit(id, hash, boost), reply)
    {
      Interfere();
      ghost var before := Now();
      var ok: bool, accepted: bool := *, *;
      sends := sends + [Send(w, id, hash, boost, ok, accepted)];
      reply := Steps.Sent(ok, accepted);
      Record(before, Steps.Submit(id, hash, boost), reply);
    }

    // UPDATE ... SET cols WHERE id = row.id
    method Update(row: Row, cols: set<Column>) returns (reply: Steps.Reply)
      requires Expects(Steps.Save(row, cols))
      modifies this
      ensures Made(Steps.Save(row, cols), reply)
    {
      Interfere();
      ghost var before := Now();
      if * {
        reply := Steps.Fault;
      } else {
        if row.id in rows {
          rows := rows[row.id := Overlay(rows[row.id], row, cols)];
        }
        var reported: bool := *;
        reply := if reported then Steps.Done else Steps.DoneButFailed;
      }
      Record(before, Steps.Save(row, cols), reply);
    }

    // DELETE ... WHERE id = id
    method Delete(id: Id) returns (reply: Steps.Reply)
      requires Expects(Steps.Remove(id))
      modifies this
      ensures Made(Steps.Remove(id), reply)
    {
      Interfere();
      ghost var before := Now();
      if * {
        reply := Steps.Fault;
      } else {
        rows := rows - {id};
        var reported: bool := *;
        reply := if reported then Steps.Done else Steps.DoneButFailed;
      }
      Record(before, Steps.Remove(id), reply);
    }

    method Report(message: Message)
      requires Expects(Steps.Post(message))
      modifies this
      ensures Made(Steps.Post(message), Steps.Done)
    {
      Interfere();
      ghost var before := Now();
      posts := posts + [Posted(w, message)];
      Record(before, Steps.Post(message), Steps.Done);
    }
  }

  method Least(ids: set<Id>) returns (least: Id)
    requires ids != {}
    ensures least in ids && forall id :: id in ids ==> least <= id
  {
    least :| least in ids;
    var rest := ids - {least};
    while rest != {}
      invariant least in ids && rest <= ids
      invariant forall id :: id in ids && id !in rest ==> least <= id
      decreases rest
    {
      var id :| id in rest;
      rest := rest - {id};
      if id < least {
        least := id;
      }
    }
  }

  /** Some nonce above every one the account has in the chain. */
  method NonceAbove(chain: seq<Block>, account: Address) returns (nonce: nat)
    ensures forall h :: Canonical(chain, h) && h.tx.from == account ==> h.tx.nonce < nonce
  {
    nonce := 0;
    for n := 0 to |chain|
      invariant forall m: nat, h :: m < n && InBlock(chain, m, h) && h.tx.from == account ==> h.tx.nonce < nonce
    {
      for k := 0 to |chain[n].txs|
        invariant forall m: nat, h :: m < n && InBlock(chain, m, h) && h.tx.from == account ==> h.tx.nonce < nonce
        invariant forall i :: 0 <= i < k && chain[n].txs[i].tx.from == account ==> chain[n].txs[i].tx.nonce < nonce
      {
        var tx := chain[n].txs[k].tx;
        if tx.from == account && tx.nonce >= nonce {
          nonce := tx.nonce + 1;
        }
      }
    }
    forall h | Canonical(chain, h) && h.tx.from == account ensures h.tx.nonce < nonce {
      var n: nat :| InBlock(chain, n, h);
    }
  }

  /** One wallet's watcher. `Tick` follows the source branch by branch. */
  class Watcher {
    const cfg: Steps.Config
    const w: nat
    const services: Services

    constructor (services: Services)
      ensures this.services == services && cfg == services.cfg && w == services.w
    {
      this.services, cfg, w := services, services.cfg, services.w;
    }

    ghost predicate Valid()
      reads services
    {
      services.cfg == cfg && services.w == w && services.Traced()
    }

    /** A Tick's calls execute the step program from rest to rest, and it reports an error just when that does. */
    method Tick() returns (err: bool)
      requires Valid() && services.pc.Idle?
      modifies services
      ensures Valid() && services.pc == Steps.Idle(err)
      ensures old(services.calls) < services.calls
    {
      var reply := services.ActiveRow();
      if reply.Fault? {
        return true;
      }
      if reply.Found? {
        var over: bool;
        err, over := Follow(reply.row);
        if over {
          return;
        }
      }
      err := SubmitNext();
    }

    /** The submitted row: follow its transaction; `over` unless it was confirmed, which leaves room for another. */
    method Follow(activeTx: Row) returns (err: bool, over: bool)
      requires Valid() && services.pc == Steps.At(activeTx, Steps.ActiveHead)
      modifies services
      ensures Valid() && services.pc == if over then Steps.Idle(err) else Steps.Picking
      ensures old(services.calls) <= services.calls
    {
      var head := services.HeaderByNumber();
      if head.Fault? {
        return true, true;
      }
      var rec := services.TransactionReceipt(activeTx.hash);
      if rec.Fault? {
        return true, true;
      }
      if rec.NotIncluded? {
        err := Missing(activeTx, head.number);
        over := true;
      } else {
        err, over := Included(activeTx, head.number, rec.receipt);
      }
    }

    /** Not in the chain: forget where it was mined, and boost it if its last send is old enough. */
    method Missing(active: Row, head: nat) returns (err: bool)
      requires Valid()
      requires services.pc == if active.minedNumber.Some? then Steps.At(Steps.ClearMined(active), Steps.Unmine(head))
                              else Steps.AfterMissing(cfg, active, head)
      modifies services
      ensures Valid() && services.pc == Steps.Idle(err)
      ensures old(services.calls) <= services.calls
    {
      var activeTx := active;
      if activeTx.minedNumber.Some? {
        activeTx := activeTx.(minedNumber := None, minedHash := None);
        var saved := services.Update(activeTx, Steps.MINED_COLUMNS);
        if !saved.Done? {
          return true;
        }
      }
      var lastSend := activeTx.submittedNumber.Or(0);
      if activeTx.boostedNumber.Some? {
        lastSend := activeTx.boostedNumber.value;
      }
      if head - lastSend >= cfg.boostAfterBlocks {
        if cfg.disableBoosting {
          return false;
        }
        err := Boost(activeTx, head);
      } else {
        err := false;
      }
    }

    /** In the chain: say so the first time, follow it when it moves, confirm it when it is deep enough. */
    method Included(active: Row, head: nat, receipt: Receipt) returns (err: bool, over: bool)
      requires Valid() && services.pc == Steps.AfterReceipt(cfg, active, head, receipt)
      modifies services
      ensures Valid() && services.pc == if over then Steps.Idle(err) else Steps.Picking
      ensures old(services.calls) <= services.calls
    {
      var activeTx := active;
      if activeTx.minedNumber.None? {
        services.Report(Mined(activeTx.id, activeTx.hash));
        activeTx := activeTx.(minedNumber := Some(receipt.number), minedHash := Some(receipt.hash));
        var saved := services.Update(activeTx, Steps.MINED_COLUMNS);
        return !saved.Done?, true;
      }
      var conf := head - receipt.number;
      if conf >= cfg.confirmationBlocks {
        services.Report(Confirmed(activeTx.id, activeTx.hash, receipt.successful, receipt.logs));
        var deleted := services.Delete(activeTx.id);
        return !deleted.Done?, !deleted.Done?;
      }
      if activeTx.minedHash != Some(receipt.hash) {
        activeTx := activeTx.(minedNumber := Some(receipt.number), minedHash := Some(receipt.hash));
        var saved := services.Update(activeTx, Steps.MINED_COLUMNS);
        return !saved.Done?, true;
      }
      return false, true;
    }

    /** Replace a transaction that was not included for too long by a better paid one. */
    method Boost(activeTx: Row, head: nat) returns (err: bool)
      requires Valid() && services.pc == Steps.At(activeTx, Steps.BoostPrice(head))
      modifies services
      ensures Valid() && services.pc == Steps.Idle(err)
      ensures old(services.calls) <= services.calls
    {
      var suggested := services.SuggestGasPrice();
      if suggested.Fault? {
        return true;
      }
      var gasPrice := 2 * suggested.price;
      var newBar := activeTx.gasPrice.Or(0) * 120;
      newBar := newBar / 100;
      if newBar > gasPrice {
        gasPrice := newBar;
      }
      var from := Steps.SenderOf(cfg, w);
      var gas := services.EstimateGas(from, activeTx.to, gasPrice, activeTx.data);
      if gas.Fault? {
        return true;
      }
      if gas.Reverted? {
        err := Abandon(activeTx, gas.reason);
        return;
      }
      err := Replace(activeTx, head, Tx(from, activeTx.nonce.Or(0), gasPrice, 2 * gas.gas, activeTx.to, activeTx.data));
    }

    /** Sign the replacement, store it, and only then send it. */
    method Replace(active: Row, head: nat, tx: Tx) returns (err: bool)
      requires Valid() && services.pc == Steps.At(active, Steps.BoostSign(head, tx))
      modifies services
      ensures Valid() && services.pc == Steps.Idle(err)
      ensures old(services.calls) <= services.calls
    {
      var activeTx := active;
      var signed := services.Sign(tx);
      if signed.Fault? {
        return true;
      }
      var hash := TxHash(tx, signed.signature);
      activeTx := activeTx.(boostedNumber := Some(head), boostedHash := Some(hash), nonce := Some(tx.nonce),
                            gasPrice := Some(tx.gasPrice), hash := Some(hash));
      var saved := services.Update(activeTx, Steps.BOOSTED_COLUMNS);
      if !saved.Done? {
        return true;
      }
      var sent := services.SendTransaction(activeTx.id, hash, true);
      return !sent.ok;
    }

    /** A request whose gas cannot be estimated fails for good. */
    method Abandon(row: Row, reason: Bytes) returns (err: bool)
      requires Valid() && services.pc == Steps.At(row, Steps.FailPost(reason))
      modifies services
      ensures Valid() && services.pc == Steps.Idle(err)
      ensures old(services.calls) <= services.calls
    {
      services.Report(Failed(row.id, reason));
      var deleted := services.Delete(row.id);
      return !deleted.Done?;
    }

    /** Nothing of this wallet is submitted: submit its first row. */
    method SubmitNext() returns (err: bool)
      requires Valid() && services.pc == Steps.Picking
      modifies services
      ensures Valid() && services.pc == Steps.Idle(err)
      ensures old(services.calls) <= services.calls
    {
      var next := services.NextRow();
      if next.NoRows? {
        return false;
      }
      if next.Fault? {
        return true;
      }
      err := Prepare(next.row);
    }

    /** Ask the node for head, nonce and price. */
    method Prepare(sendTx: Row) returns (err: bool)
      requires Valid() && services.pc == Steps.At(sendTx, Steps.SendHead)
      modifies services
      ensures Valid() && services.pc == Steps.Idle(err)
      ensures old(services.calls) <= services.calls
    {
      var head := services.HeaderByNumber();
      if head.Fault? {
        return true;
      }
      var from := Steps.SenderOf(cfg, w);
      var nonce := services.PendingNonceAt(from);
      if nonce.Fault? {
        return true;
      }
      var suggested := services.SuggestGasPrice();
      if suggested.Fault? {
        return true;
      }
      var gasPrice := 2 * suggested.price;
      err := Dispatch(sendTx, head.number, head.hash, nonce.nonce, gasPrice);
    }

    /** Estimate and sign. */
    method Dispatch(sendTx: Row, head: nat, headHash: BlockHash, nonce: nat, gasPrice: nat) returns (err: bool)
      requires Valid() && services.pc == Steps.At(sendTx, Steps.SendGas(head, headHash, nonce, gasPrice))
      modifies services
      ensures Valid() && services.pc == Steps.Idle(err)
      ensures old(services.calls) <= services.calls
    {
      var from := Steps.SenderOf(cfg, w);
      var gas := services.EstimateGas(from, sendTx.to, gasPrice, sendTx.data);
      if gas.Fault? {
        return true;
      }
      if gas.Reverted? {
        err := Abandon(sendTx, gas.reason);
        return;
      }
      var tx := Tx(from, nonce, gasPrice, 2 * gas.gas, sendTx.to, sendTx.data);
      var signed := services.Sign(tx);
      if signed.Fault? {
        return true;
      }
      err := Deliver(sendTx, head, headHash, tx, signed.signature);
    }

    /** Send, and store the submission only once the node took it. */
    method Deliver(next: Row, head: nat, headHash: BlockHash, tx: Tx, signature: Bytes) returns (err: bool)
      requires Valid() && services.pc == Steps.At(next, Steps.SendSubmit(head, headHash, tx, signature))
      modifies services
      ensures Valid() && services.pc == Steps.Idle(err)
      ensures old(services.calls) <= services.calls
    {
      var sendTx := next;
      var hash := TxHash(tx, signature);
      var sent := services.SendTransaction(sendTx.id, hash, false);
      if !sent.ok {
        return true;
      }
      sendTx := sendTx.(submittedNumber := Some(head), submittedHash := Some(headHash),
                        nonce := Some(tx.nonce), gasPrice := Some(tx.gasPrice), hash := Some(hash));
      var saved := services.Update(sendTx, Steps.SUBMITTED_COLUMNS);
      if !saved.Done? {
        return true;
      }
      services.Report(Submitted(sendTx.id, Some(hash)));
      return false;
    }
  }
}
