/**
  The whole processor as a transition system: one watcher per wallet, each advancing one
  database, node, signer or producer call at a time, interleaved with consumer inserts,
  cleaner deletions and changes of the canonical chain.
*/
module System {
  import opened Types
  import opened Watcher

  /** A status message together with the wallet whose watcher posted it. */
  datatype Posted = Posted(wallet: nat, message: Message)

  /** One SendTransaction call. `accepted` is what the node did, `ok` what the caller was told. */
  datatype Send = Send(wallet: nat, id: Id, hash: TxHash, boost: bool, ok: bool, accepted: bool)

  datatype Store = Store(rows: Table, posts: seq<Posted>, sends: seq<Send>)

  /** The receipt answer of a wallet's current or last Tick: whose transaction, and where it was found. */
  datatype Sighting = Sighting(id: Id, receipt: Option<Receipt>)

  /**
    `born` is every row ever inserted, as inserted; `retired` the ids whose row a watcher
    deleted and `cleaned` those whose row the cleaner deleted. They and `seen` are history:
    no step depends on them except that a removed id is not inserted again.
  */
  datatype World = World(
    store: Store,
    chain: seq<Block>,
    pcs: seq<Pc>,
    seen: seq<Option<Sighting>>,
    born: Table,
    retired: set<Id>,
    cleaned: set<Id>)

  datatype Action =
    | Watch(w: nat, reply: Reply)
    | Insert(row: Row)
    | Clean(id: Id)
    | Advance(chain: seq<Block>)

  /** What a property needs of the environment; a property that needs nothing takes any Terms. */
  datatype Terms = Terms(
    writesSucceed: bool,      // no Update or Delete fails
    errorsTrue: bool,         // an Update or Delete that reports an error has not taken effect
    submitStored: bool,       // the Update after a successful first SendTransaction takes effect
    rejectionsTrue: bool,     // an error from a first SendTransaction means the node did not take it
    deepBlocksStay: bool,     // no block at depth >= confirmationBlocks leaves the chain, nor does the height fall
    idsAscend: bool,          // ids reach each wallet in increasing order
    priceCap: Option<nat>)    // an upper bound on every suggested gas price

  // ---------------------------------------------------------------- the chain

  ghost predicate InBlock(chain: seq<Block>, n: nat, hash: TxHash) {
    n < |chain| && hash in chain[n].txs
  }

  ghost predicate Canonical(chain: seq<Block>, hash: TxHash) {
    exists n: nat :: InBlock(chain, n, hash)
  }

  /** Hashes commit to heights, and an account's nonce is used at most once. */
  ghost predicate ValidChain(chain: seq<Block>) {
    && |chain| > 0
    && (forall n :: 0 <= n < |chain| ==> chain[n].hash.number == n)
    && (forall a, b | Canonical(chain, a) && Canonical(chain, b) ::
          a.tx.from == b.tx.from && a.tx.nonce == b.tx.nonce ==> a == b)
  }

  /** Blocks at depth >= depth stay where they are, and the chain does not get shorter. */
  ghost predicate Keeps(depth: int, chain: seq<Block>, chain': seq<Block>) {
    && |chain| <= |chain'|
    && forall n :: 0 <= n < |chain| && |chain| - 1 - n >= depth ==> chain'[n] == chain[n]
  }

  // ---------------------------------------------------------------- one call

  predicate InWallet(rows: Table, id: Id, w: nat) {
    id in rows && rows[id].wallet == w
  }

  /** The replies a call may get, given the shared store and the chain at that moment. */
  ghost predicate Answers(store: Store, chain: seq<Block>, w: nat, request: Request, reply: Reply) {
    match request
    case QueryActive =>
      (reply.Found? && InWallet(store.rows, reply.row.id, w) && store.rows[reply.row.id] == reply.row
         && reply.row.Submitted())
      || (reply.NoRows? && forall id: Id :: InWallet(store.rows, id, w) ==> !store.rows[id].Submitted())
      || reply.Fault?
    case QueryNext =>
      (reply.Found? && InWallet(store.rows, reply.row.id, w) && store.rows[reply.row.id] == reply.row
         && forall id: Id :: InWallet(store.rows, id, w) ==> reply.row.id <= id)
      || (reply.NoRows? && forall id: Id :: !InWallet(store.rows, id, w))
      || reply.Fault?
    case GetHead =>
      (reply.Head? && reply.number < |chain| && chain[reply.number].hash == reply.hash)
      || reply.Fault?
    case GetReceipt(hash) =>
      (reply.Included? && hash.Some? && InBlock(chain, reply.receipt.number, hash.value)
         && chain[reply.receipt.number].hash == reply.receipt.hash)
      || reply.NotIncluded? || reply.Fault?
    case GetNonce(account) =>
      (reply.NonceIs? && forall h :: Canonical(chain, h) && h.tx.from == account ==> h.tx.nonce < reply.nonce)
      || reply.Fault?
    case GetPrice => reply.PriceIs? || reply.Fault?
    case GetGas(_, _, _, _) => reply.GasIs? || reply.Reverted? || reply.Fault?
    case GetSignature(_) => reply.Signature? || reply.Fault?
    case Submit(_, _, _) => reply.Sent?
    case Save(_, _) => reply.Wrote() || reply.Fault?
    case Remove(_) => reply.Wrote() || reply.Fault?
    case Post(_) => reply.Done?                // the producer logs its own failures and returns nothing
  }

  /** What the call does to the shared store. A write that reports an error may or may not have taken effect. */
  function Effect(store: Store, w: nat, request: Request, reply: Reply): Store {
    match request
    case Save(row, cols) => if reply.Wrote() then store.(rows := Write(store.rows, row, cols)) else store
    case Remove(id) => if reply.Wrote() then store.(rows := store.rows - {id}) else store
    case Post(message) => store.(posts := store.posts + [Posted(w, message)])
    case Submit(id, hash, boost) =>
      if reply.Sent? then store.(sends := store.sends + [Send(w, id, hash, boost, reply.ok, reply.accepted)])
      else store
    case _ => store
  }

  // ---------------------------------------------------------------- one step

  ghost predicate Enabled(cfg: Config, s: World, a: Action) {
    match a
    case Watch(w, reply) =>
      w < |s.pcs| && Answers(s.store, s.chain, w, Ask(cfg, w, s.pcs[w]), reply)
    case Insert(row) =>
      row.Pending() && row.wallet < |s.pcs| && (row.id in s.born ==> row.id in s.store.rows)
    case Clean(id) => id in s.store.rows
    case Advance(chain) => ValidChain(chain)
  }

  ghost predicate Honours(cfg: Config, t: Terms, s: World, a: Action) {
    match a
    case Watch(w, reply) =>
      w < |s.pcs| ==>
        var request := Ask(cfg, w, s.pcs[w]);
        && (t.writesSucceed && (request.Save? || request.Remove?) ==> reply.Done?)
        && (t.errorsTrue && (request.Save? || request.Remove?) ==> !reply.DoneButFailed?)
        && (t.submitStored && s.pcs[w].At? && s.pcs[w].point.SubmitStore? ==> reply.Wrote())
        && (t.rejectionsTrue && request.Submit? && !request.boost && reply.Sent? && !reply.ok ==> !reply.accepted)
        && (t.priceCap.Some? && reply.PriceIs? ==> reply.price <= t.priceCap.value)
    case Insert(row) =>
      t.idsAscend && row.id !in s.born ==> forall id: Id :: InWallet(s.born, id, row.wallet) ==> id < row.id
    case Clean(_) => true
    case Advance(chain) => t.deepBlocksStay ==> Keeps(cfg.confirmationBlocks, s.chain, chain)
  }

  function Sight(pc: Pc, reply: Reply, seen: Option<Sighting>): Option<Sighting> {
    if pc.Idle? then None
    else if pc.At? && pc.point.ActiveReceipt? && reply.Included? then Some(Sighting(pc.row.id, Some(reply.receipt)))
    else if pc.At? && pc.point.ActiveReceipt? && reply.NotIncluded? then Some(Sighting(pc.row.id, None))
    else seen
  }

  function Apply(cfg: Config, s: World, a: Action): World {
    match a
    case Watch(w, reply) =>
      if w < |s.pcs| && w < |s.seen| then
        var pc := s.pcs[w];
        var request := Ask(cfg, w, pc);
        s.(store := Effect(s.store, w, request, reply),
           pcs := s.pcs[w := Next(cfg, w, pc, reply)],
           seen := s.seen[w := Sight(pc, reply, s.seen[w])],
           retired := if request.Remove? && reply.Wrote() && request.id in s.store.rows
                      then s.retired + {request.id} else s.retired)
      else s
    case Insert(row) =>
      if row.id in s.store.rows then s                             // ON CONFLICT (id) DO NOTHING
      else s.(store := s.store.(rows := s.store.rows[row.id := row]), born := s.born[row.id := row])
    case Clean(id) =>
      s.(store := s.store.(rows := s.store.rows - {id}), cleaned := s.cleaned + {id})
    case Advance(chain) => s.(chain := chain)
  }

  // ---------------------------------------------------------------- runs

  const GENESIS := Block(BlockHash(0, 0), [])

  function Start(cfg: Config): World {
    var n := |cfg.senders|;
    World(Store(map[], [], []), [GENESIS], seq(n, _ => Idle(false)), seq(n, _ => None), map[], {}, {})
  }

  function After(cfg: Config, run: seq<Action>): World {
    if run == [] then Start(cfg) else Apply(cfg, After(cfg, run[..|run|-1]), run[|run|-1])
  }

  ghost predicate Legal(cfg: Config, t: Terms, run: seq<Action>) {
    run != [] ==>
      && Legal(cfg, t, run[..|run|-1])
      && Enabled(cfg, After(cfg, run[..|run|-1]), run[|run|-1])
      && Honours(cfg, t, After(cfg, run[..|run|-1]), run[|run|-1])
  }

  lemma {:induction false} LegalPrefix(cfg: Config, t: Terms, run: seq<Action>, k: nat)
    requires Legal(cfg, t, run) && k <= |run|
    ensures Legal(cfg, t, run[..k])
  {
    if k == |run| {
      assert run[..k] == run;
    } else {
      LegalPrefix(cfg, t, run[..|run|-1], k);
      assert run[..|run|-1][..k] == run[..k];
    }
  }
}
