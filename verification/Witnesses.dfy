/**
  Runs of one wallet and one request that show what the assumptions are for: a Mined without a
  Submitted when an Update takes effect and then reports an error, and one request accepted under two
  nonces when the update after a first send is lost or a rejection is not true.
*/
module Witnesses {
  import opened Types
  import opened Watcher
  import opened System
  import opened Orders

  const CFG := Config(3, 10, false, [7])
  const ROW := Row(5, [], [], 0, 0, None, None, None, None, None, None, None, None, None)
  const BORN: Table := map[5 := ROW]
  const MINING := Block(BlockHash(1, 0), [HashOf(0)])

  function TxOf(nonce: nat): Tx {
    Tx(7, nonce, 2, 2, [], [])
  }

  function HashOf(nonce: nat): TxHash {
    TxHash(TxOf(nonce), [])
  }

  function SendOf(nonce: nat, ok: bool): Send {
    Send(0, 5, HashOf(nonce), false, ok, true)
  }

  function Sent(nonce: nat): Row {
    SetSubmitted(ROW, 0, GENESIS.hash, TxOf(nonce), [])
  }

  /** The world with the request inserted. */
  function Scene(rows: Table, posts: seq<Posted>, sends: seq<Send>, chain: seq<Block>, pc: Pc, seen: Option<Sighting>): World {
    World(Store(rows, posts, sends), chain, [pc], [seen], BORN, {}, {})
  }

  ghost predicate Leads(t: Terms, run: seq<Action>, s: World) {
    Legal(CFG, t, run) && After(CFG, run) == s
  }

  lemma Take(t: Terms, run: seq<Action>, s: World, a: Action)
    requires Leads(t, run, s) && Enabled(CFG, s, a) && Honours(CFG, t, s, a)
    ensures Leads(t, run + [a], Apply(CFG, s, a))
  {
    assert (run + [a])[..|run|] == run;
  }

  lemma Empty(hash: TxHash)
    ensures !Canonical([GENESIS], hash)
  {
    forall n: nat ensures !InBlock([GENESIS], n, hash) {
    }
  }

  lemma Arrive(t: Terms) returns (run: seq<Action>)
    ensures Leads(t, run, Scene(BORN, [], [], [GENESIS], Idle(false), None))
  {
    var start := Start(CFG);
    assert start.pcs == [Idle(false)] && start.seen == [None];
    assert Leads(t, [], start);
    Take(t, [], start, Insert(ROW));
    run := [] + [Insert(ROW)];
  }

  /** One call of the wallet's Tick that leaves the store alone. */
  lemma Ask1(t: Terms, run: seq<Action>, rows: Table, posts: seq<Posted>, sends: seq<Send>, chain: seq<Block>, pc: Pc,
             seen: Option<Sighting>, reply: Reply) returns (run': seq<Action>)
    requires Leads(t, run, Scene(rows, posts, sends, chain, pc, seen))
    requires Answers(Store(rows, posts, sends), chain, 0, Ask(CFG, 0, pc), reply)
    requires
      var request := Ask(CFG, 0, pc);
      !request.Save? && !request.Remove? && !request.Post? && !request.Submit?
    requires t.priceCap.Some? && reply.PriceIs? ==> reply.price <= t.priceCap.value
    ensures Leads(t, run', Scene(rows, posts, sends, chain, Next(CFG, 0, pc, reply), Sight(pc, reply, seen)))
  {
    var s := Scene(rows, posts, sends, chain, pc, seen);
    Take(t, run, s, Watch(0, reply));
    assert s.pcs[0 := Next(CFG, 0, pc, reply)] == [Next(CFG, 0, pc, reply)];
    assert s.seen[0 := Sight(pc, reply, seen)] == [Sight(pc, reply, seen)];
    run' := run + [Watch(0, reply)];
  }

  /** The request is picked. */
  lemma Pick(t: Terms, run: seq<Action>, sends: seq<Send>, err: bool) returns (run': seq<Action>)
    requires Leads(t, run, Scene(BORN, [], sends, [GENESIS], Idle(err), None))
    ensures Leads(t, run', Scene(BORN, [], sends, [GENESIS], At(ROW, SendHead), None))
  {
    run' := Ask1(t, run, BORN, [], sends, [GENESIS], Idle(err), None, NoRows);
    assert InWallet(BORN, 5, 0);
    run' := Ask1(t, run', BORN, [], sends, [GENESIS], Picking, None, Found(ROW));
  }

  lemma AnyNonce(rows: Table, sends: seq<Send>, nonce: nat)
    ensures Answers(Store(rows, [], sends), [GENESIS], 0, GetNonce(7), NonceIs(nonce))
  {
    forall hash ensures !Canonical([GENESIS], hash) {
      Empty(hash);
    }
  }

  lemma Number(t: Terms, run: seq<Action>, sends: seq<Send>, nonce: nat) returns (run': seq<Action>)
    requires Leads(t, run, Scene(BORN, [], sends, [GENESIS], At(ROW, SendHead), None))
    ensures Leads(t, run', Scene(BORN, [], sends, [GENESIS], At(ROW, SendPrice(0, GENESIS.hash, nonce)), None))
  {
    run' := Ask1(t, run, BORN, [], sends, [GENESIS], At(ROW, SendHead), None, Head(0, GENESIS.hash));
    AnyNonce(BORN, sends, nonce);
    run' := Ask1(t, run', BORN, [], sends, [GENESIS], At(ROW, SendNonce(0, GENESIS.hash)), None, NonceIs(nonce));
  }

  lemma Signing(nonce: nat)
    ensures
      var h := GENESIS.hash;
      var price, gas, sign := SendPrice(0, h, nonce), SendGas(0, h, nonce, 2), SendSign(0, h, TxOf(nonce));
      && Next(CFG, 0, At(ROW, price), PriceIs(1)) == At(ROW, gas)
      && Next(CFG, 0, At(ROW, gas), GasIs(1)) == At(ROW, sign)
      && Next(CFG, 0, At(ROW, sign), Signature([])) == At(ROW, SendSubmit(0, h, TxOf(nonce), []))
  {
  }

  lemma Price(t: Terms, run: seq<Action>, sends: seq<Send>, nonce: nat) returns (run': seq<Action>)
    requires Leads(t, run, Scene(BORN, [], sends, [GENESIS], At(ROW, SendPrice(0, GENESIS.hash, nonce)), None))
    requires t.priceCap.Some? ==> t.priceCap.value >= 1
    ensures Leads(t, run', Scene(BORN, [], sends, [GENESIS], At(ROW, SendGas(0, GENESIS.hash, nonce, 2)), None))
  {
    Signing(nonce);
    run' := Ask1(t, run, BORN, [], sends, [GENESIS], At(ROW, SendPrice(0, GENESIS.hash, nonce)), None, PriceIs(1));
  }

  lemma Sign(t: Terms, run: seq<Action>, sends: seq<Send>, nonce: nat) returns (run': seq<Action>)
    requires Leads(t, run, Scene(BORN, [], sends, [GENESIS], At(ROW, SendGas(0, GENESIS.hash, nonce, 2)), None))
    ensures Leads(t, run', Scene(BORN, [], sends, [GENESIS], At(ROW, SendSubmit(0, GENESIS.hash, TxOf(nonce), [])), None))
  {
    Signing(nonce);
    run' := Ask1(t, run, BORN, [], sends, [GENESIS], At(ROW, SendGas(0, GENESIS.hash, nonce, 2)), None, GasIs(1));
    run' := Ask1(t, run', BORN, [], sends, [GENESIS], At(ROW, SendSign(0, GENESIS.hash, TxOf(nonce))), None, Signature([]));
  }

  /** A transaction with the nonce is ready to be sent. */
  lemma Prepare(t: Terms, run: seq<Action>, sends: seq<Send>, err: bool, nonce: nat) returns (run': seq<Action>)
    requires Leads(t, run, Scene(BORN, [], sends, [GENESIS], Idle(err), None))
    requires t.priceCap.Some? ==> t.priceCap.value >= 1
    ensures Leads(t, run', Scene(BORN, [], sends, [GENESIS], At(ROW, SendSubmit(0, GENESIS.hash, TxOf(nonce), [])), None))
  {
    run' := Pick(t, run, sends, err);
    run' := Number(t, run', sends, nonce);
    run' := Price(t, run', sends, nonce);
    run' := Sign(t, run', sends, nonce);
  }

  lemma Delivered(sends: seq<Send>, nonce: nat, ok: bool)
    ensures
      var pc := At(ROW, SendSubmit(0, GENESIS.hash, TxOf(nonce), []));
      Apply(CFG, Scene(BORN, [], sends, [GENESIS], pc, None), Watch(0, Reply.Sent(ok, true)))
      == Scene(BORN, [], sends + [SendOf(nonce, ok)], [GENESIS], if ok then At(Sent(nonce), SubmitStore) else Idle(true), None)
  {
    var pc := At(ROW, SendSubmit(0, GENESIS.hash, TxOf(nonce), []));
    var s, pc' := Scene(BORN, [], sends, [GENESIS], pc, None), Next(CFG, 0, pc, Reply.Sent(ok, true));
    assert s.pcs[0 := pc'] == [pc'] && s.seen[0 := None] == [None];
  }

  /** The node accepts it, and says so or not. */
  lemma Deliver(t: Terms, run: seq<Action>, sends: seq<Send>, nonce: nat, ok: bool) returns (run': seq<Action>)
    requires Leads(t, run, Scene(BORN, [], sends, [GENESIS], At(ROW, SendSubmit(0, GENESIS.hash, TxOf(nonce), [])), None))
    requires t.rejectionsTrue ==> ok
    ensures Leads(t, run', Scene(BORN, [], sends + [SendOf(nonce, ok)], [GENESIS],
                                 if ok then At(Sent(nonce), SubmitStore) else Idle(true), None))
  {
    var pc := At(ROW, SendSubmit(0, GENESIS.hash, TxOf(nonce), []));
    Delivered(sends, nonce, ok);
    Take(t, run, Scene(BORN, [], sends, [GENESIS], pc, None), Watch(0, Reply.Sent(ok, true)));
    run' := run + [Watch(0, Reply.Sent(ok, true))];
  }

  lemma Recorded(sends: seq<Send>, nonce: nat, stored: bool)
    ensures
      Apply(CFG, Scene(BORN, [], sends, [GENESIS], At(Sent(nonce), SubmitStore), None),
            Watch(0, if stored then DoneButFailed else Fault))
      == Scene(if stored then map[5 := Sent(nonce)] else BORN, [], sends, [GENESIS], Idle(true), None)
  {
    var s := Scene(BORN, [], sends, [GENESIS], At(Sent(nonce), SubmitStore), None);
    assert s.pcs[0 := Idle(true)] == [Idle(true)] && s.seen[0 := None] == [None];
    assert Overlay(ROW, Sent(nonce), SUBMITTED_COLUMNS) == Sent(nonce);
    assert BORN[5 := Sent(nonce)] == map[5 := Sent(nonce)];
  }

  /** The update after the first send: stored although it reports an error, or lost. */
  lemma Record(t: Terms, run: seq<Action>, sends: seq<Send>, nonce: nat, stored: bool) returns (run': seq<Action>)
    requires Leads(t, run, Scene(BORN, [], sends, [GENESIS], At(Sent(nonce), SubmitStore), None))
    requires !t.writesSucceed && (if stored then !t.errorsTrue else !t.submitStored)
    ensures Leads(t, run', Scene(if stored then map[5 := Sent(nonce)] else BORN, [], sends, [GENESIS], Idle(true), None))
  {
    var reply := if stored then DoneButFailed else Fault;
    Recorded(sends, nonce, stored);
    Take(t, run, Scene(BORN, [], sends, [GENESIS], At(Sent(nonce), SubmitStore), None), Watch(0, reply));
    run' := run + [Watch(0, reply)];
  }

  lemma MiningValid()
    ensures ValidChain([GENESIS, MINING]) && InBlock([GENESIS, MINING], 1, HashOf(0))
  {
    var chain := [GENESIS, MINING];
    forall hash | Canonical(chain, hash) ensures hash == HashOf(0) {
      var n: nat :| InBlock(chain, n, hash);
    }
  }

  lemma Mine(t: Terms, run: seq<Action>, rows: Table, sends: seq<Send>, pc: Pc) returns (run': seq<Action>)
    requires Leads(t, run, Scene(rows, [], sends, [GENESIS], pc, None))
    ensures Leads(t, run', Scene(rows, [], sends, [GENESIS, MINING], pc, None))
  {
    MiningValid();
    Take(t, run, Scene(rows, [], sends, [GENESIS], pc, None), Advance([GENESIS, MINING]));
    run' := run + [Advance([GENESIS, MINING])];
  }

  const MINED := Receipt(1, MINING.hash, true, [])

  /** The next Tick finds the row and its receipt. */
  lemma Notice(t: Terms, run: seq<Action>, rows: Table, sends: seq<Send>) returns (run': seq<Action>)
    requires rows == map[5 := Sent(0)] && Leads(t, run, Scene(rows, [], sends, [GENESIS, MINING], Idle(true), None))
    ensures Leads(t, run', Scene(rows, [], sends, [GENESIS, MINING], At(Sent(0), MinedPost(MINED)), Some(Sighting(5, Some(MINED)))))
  {
    var chain := [GENESIS, MINING];
    MiningValid();
    assert InWallet(rows, 5, 0);
    run' := Ask1(t, run, rows, [], sends, chain, Idle(true), None, Found(Sent(0)));
    run' := Ask1(t, run', rows, [], sends, chain, At(Sent(0), ActiveHead), None, Head(1, MINING.hash));
    run' := Ask1(t, run', rows, [], sends, chain, At(Sent(0), ActiveReceipt(1)), None, Included(MINED));
  }

  lemma Tell(t: Terms, run: seq<Action>, rows: Table, sends: seq<Send>, seen: Option<Sighting>) returns (run': seq<Action>)
    requires Leads(t, run, Scene(rows, [], sends, [GENESIS, MINING], At(Sent(0), MinedPost(MINED)), seen))
    ensures Legal(CFG, t, run') && After(CFG, run').store.posts == [Posted(0, Mined(5, Some(HashOf(0))))]
  {
    Take(t, run, Scene(rows, [], sends, [GENESIS, MINING], At(Sent(0), MinedPost(MINED)), seen), Watch(0, Done));
    run' := run + [Watch(0, Done)];
  }

  /** One late error is enough for a Mined without a Submitted, whatever else is assumed. */
  lemma MinedUnannounced(t: Terms) returns (run: seq<Action>)
    requires !t.writesSucceed && !t.errorsTrue && (t.priceCap.Some? ==> t.priceCap.value >= 1)
    ensures Legal(CFG, t, run)
    ensures
      var posts := After(CFG, run).store.posts;
      posts == [Posted(0, Mined(5, Some(HashOf(0))))] && !SaidSubmitted(posts, 5)
  {
    run := Arrive(t);
    run := Prepare(t, run, [], false, 0);
    run := Deliver(t, run, [], 0, true);
    run := Record(t, run, [SendOf(0, true)], 0, true);
    run := Mine(t, run, map[5 := Sent(0)], [SendOf(0, true)], Idle(true));
    run := Notice(t, run, map[5 := Sent(0)], [SendOf(0, true)]);
    run := Tell(t, run, map[5 := Sent(0)], [SendOf(0, true)], Some(Sighting(5, Some(MINED))));
  }

  /** The node accepted two transactions for one request, with two nonces. */
  predicate TwoNonces(sends: seq<Send>) {
    |sends| == 2 && sends[0].id == sends[1].id && sends[0].accepted && sends[1].accepted
    && sends[0].hash.tx.nonce != sends[1].hash.tx.nonce
  }

  /** When the update after a first send may be lost, the request is sent again. */
  lemma LostUpdate(t: Terms) returns (run: seq<Action>)
    requires !t.writesSucceed && !t.submitStored && (t.priceCap.Some? ==> t.priceCap.value >= 1)
    ensures Legal(CFG, t, run) && TwoNonces(After(CFG, run).store.sends)
  {
    run := Arrive(t);
    run := Prepare(t, run, [], false, 0);
    run := Deliver(t, run, [], 0, true);
    run := Record(t, run, [SendOf(0, true)], 0, false);
    run := Prepare(t, run, [SendOf(0, true)], true, 1);
    run := Deliver(t, run, [SendOf(0, true)], 1, true);
  }

  /** When the node may take what it reports as rejected, likewise. */
  lemma FalseRejection(t: Terms) returns (run: seq<Action>)
    requires !t.rejectionsTrue && (t.priceCap.Some? ==> t.priceCap.value >= 1)
    ensures Legal(CFG, t, run) && TwoNonces(After(CFG, run).store.sends)
  {
    run := Arrive(t);
    run := Prepare(t, run, [], false, 0);
    run := Deliver(t, run, [], 0, false);
    run := Prepare(t, run, [SendOf(0, false)], true, 1);
    run := Deliver(t, run, [SendOf(0, false)], 1, true);
  }
}
