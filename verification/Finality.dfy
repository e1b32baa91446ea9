/**
  Confirmed is for ever, although a Tick reads the head before the receipt and the chain may
  reorganise in between.
*/
module Finality {
  import opened Types
  import opened Watcher
  import opened System
  import opened Rows

  /** The transaction is in the chain, in a block at depth at least confirmationBlocks. */
  ghost predicate Deep(cfg: Config, chain: seq<Block>, n: nat, hash: TxHash) {
    InBlock(chain, n, hash) && |chain| - 1 - n >= cfg.confirmationBlocks
  }

  ghost predicate Final(cfg: Config, chain: seq<Block>, hash: Option<TxHash>) {
    hash.Some? && exists n: nat :: Deep(cfg, chain, n, hash.value)
  }

  ghost predicate FinalAt(cfg: Config, chain: seq<Block>, row: Row, point: Point) {
    && (point.ActiveReceipt? ==> point.head < |chain|)
    && (point.ConfirmPost? ==> Final(cfg, chain, row.hash))
  }

  ghost predicate FinalInv(cfg: Config, chain: seq<Block>, posts: seq<Posted>, pcs: seq<Pc>) {
    && (forall i :: 0 <= i < |posts| && posts[i].message.Confirmed? ==> Final(cfg, chain, posts[i].message.hash))
    && (forall w :: 0 <= w < |pcs| && pcs[w].At? ==> FinalAt(cfg, chain, pcs[w].row, pcs[w].point))
  }

  lemma FinalWatch(cfg: Config, store: Store, chain: seq<Block>, w: nat, row: Row, point: Point, reply: Reply)
    requires FinalAt(cfg, chain, row, point) && Answers(store, chain, w, AskAt(cfg, w, row, point), reply)
    ensures
      var pc' := NextAt(cfg, w, row, point, reply);
      pc'.At? ==> FinalAt(cfg, chain, pc'.row, pc'.point)
  {
    if point.ActiveReceipt? && reply.Included? && row.hash.Some? {
      assert reply.receipt.number <= point.head - cfg.confirmationBlocks
        ==> Deep(cfg, chain, reply.receipt.number, row.hash.value);
    }
  }

  lemma FinalPost(cfg: Config, store: Store, chain: seq<Block>, w: nat, pc: Pc, reply: Reply)
    requires pc.At? ==> FinalAt(cfg, chain, pc.row, pc.point)
    ensures
      var posts' := Effect(store, w, Ask(cfg, w, pc), reply).posts;
      || posts' == store.posts
      || (|posts'| == |store.posts| + 1 && posts'[..|store.posts|] == store.posts
          && (posts'[|store.posts|].message.Confirmed? ==> Final(cfg, chain, posts'[|store.posts|].message.hash)))
  {
  }

  /** Deep blocks keep what is in them. */
  lemma FinalStays(cfg: Config, chain: seq<Block>, chain': seq<Block>, hash: Option<TxHash>)
    requires Final(cfg, chain, hash) && Keeps(cfg.confirmationBlocks, chain, chain')
    ensures Final(cfg, chain', hash)
  {
    var n: nat :| Deep(cfg, chain, n, hash.value);
    assert Deep(cfg, chain', n, hash.value);
  }

  lemma {:induction false} FinalHolds(cfg: Config, t: Terms, run: seq<Action>)
    requires Legal(cfg, t, run) && t.deepBlocksStay
    ensures
      var s := After(cfg, run);
      FinalInv(cfg, s.chain, s.store.posts, s.pcs)
  {
    if run != [] {
      var s, a := After(cfg, run[..|run|-1]), run[|run|-1];
      FinalHolds(cfg, t, run[..|run|-1]);
      Reachable(cfg, t, run[..|run|-1]);
      match a
      case Watch(w, reply) => FinalWorld(cfg, s, w, reply);
      case Insert(_) =>
      case Clean(_) =>
      case Advance(chain) =>
        forall hash | Final(cfg, s.chain, hash) ensures Final(cfg, chain, hash) {
          FinalStays(cfg, s.chain, chain, hash);
        }
    }
  }

  lemma FinalWorld(cfg: Config, s: World, w: nat, reply: Reply)
    requires Inv(cfg, s) && FinalInv(cfg, s.chain, s.store.posts, s.pcs)
    requires Enabled(cfg, s, Watch(w, reply))
    ensures
      var s' := Apply(cfg, s, Watch(w, reply));
      FinalInv(cfg, s'.chain, s'.store.posts, s'.pcs)
  {
    RetiredWatch(cfg, s, w, reply);
    FinalPost(cfg, s.store, s.chain, w, s.pcs[w], reply);
    if s.pcs[w].At? {
      FinalWatch(cfg, s.store, s.chain, w, s.pcs[w].row, s.pcs[w].point, reply);
    }
  }

  lemma {:induction false} PostsGrow(cfg: Config, run: seq<Action>, k: nat)
    requires k <= |run|
    ensures After(cfg, run[..k]).store.posts <= After(cfg, run).store.posts
  {
    if k == |run| {
      assert run[..k] == run;
    } else {
      var before := run[..|run|-1];
      PostsGrow(cfg, before, k);
      assert before[..k] == run[..k];
    }
  }

  /**
    If the chain keeps its height and its blocks at depth >= confirmationBlocks, a transaction
    reported Confirmed at any moment of a run is in the chain at every later moment.
  */
  lemma ConfirmedIsForEver(cfg: Config, t: Terms, run: seq<Action>, k: nat, i: nat)
    requires Legal(cfg, t, run) && t.deepBlocksStay && k <= |run|
    requires i < |After(cfg, run[..k]).store.posts| && After(cfg, run[..k]).store.posts[i].message.Confirmed?
    ensures
      var hash := After(cfg, run[..k]).store.posts[i].message.hash;
      hash.Some? && Canonical(After(cfg, run).chain, hash.value)
  {
    PostsGrow(cfg, run, k);
    FinalHolds(cfg, t, run);
    var s := After(cfg, run);
    var hash := s.store.posts[i].message.hash;
    assert Final(cfg, s.chain, hash);
    var n: nat :| Deep(cfg, s.chain, n, hash.value);
    assert InBlock(s.chain, n, hash.value);
  }
}
