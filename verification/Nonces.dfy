/**
  Submissions of one wallet use increasing nonces, as far as the earlier ones were confirmed: the
  node's pending nonce is above every canonical one, and a confirmed transaction stays canonical.
*/
module Nonces {
  import opened Types
  import opened Watcher
  import opened System
  import opened Rows
  import opened Sends
  import opened Notes
  import opened Boosts
  import opened Once
  import opened Finality

  /** A first submission that went through. */
  predicate First(send: Send) {
    !send.boost && send.ok
  }

  predicate FirstOf(send: Send, w: nat) {
    First(send) && send.wallet == w
  }

  ghost predicate SaidConfirmed(posts: seq<Posted>, id: Id) {
    exists i :: 0 <= i < |posts| && posts[i].message.Confirmed? && posts[i].message.id == id
  }

  /** The first submission of a request fixes the sender and nonce of all that is kept for it. */
  ghost predicate FirstsKept(cfg: Config, born: Table, sends: seq<Send>) {
    forall i :: 0 <= i < |sends| && First(sends[i]) ==>
      var send, txs := sends[i], Kept(sends, sends[i].id);
      && send.id in born && born[send.id].wallet == send.wallet
      && send.hash.tx.from == SenderOf(cfg, send.wallet)
      && |txs| > 0 && txs[0].tx.nonce == send.hash.tx.nonce && txs[0].tx.from == send.hash.tx.from
  }

  /** The hash is of one sender and nonce with what was kept. */
  predicate Alike(hash: Option<TxHash>, kept: seq<TxHash>) {
    hash.Some? && kept != [] && hash.value.tx.from == kept[0].tx.from && hash.value.tx.nonce == kept[0].tx.nonce
  }

  /** So is the submitted row in hand, when it is not about to be stored. */
  predicate HandAlike(pc: Pc, sends: seq<Send>) {
    pc.At? && pc.row.Submitted() && !pc.point.SubmitStore? && !pc.point.BoostStore? ==>
      Alike(pc.row.hash, Kept(sends, pc.row.id))
  }

  /** What was confirmed for a request is like what was kept for it. */
  ghost predicate ConfirmedKept(posts: seq<Posted>, sends: seq<Send>) {
    forall i :: 0 <= i < |posts| && posts[i].message.Confirmed? ==>
      Alike(posts[i].message.hash, Kept(sends, posts[i].message.id))
  }

  ghost predicate Ascending(posts: seq<Posted>, sends: seq<Send>) {
    forall i, j :: 0 <= i < j < |sends| && First(sends[i]) && First(sends[j]) && sends[i].wallet == sends[j].wallet
        && SaidConfirmed(posts, sends[i].id)
      ==> sends[i].hash.tx.nonce < sends[j].hash.tx.nonce
  }

  /** No first submission of the wallet comes after that of `id`. */
  ghost predicate Latest(sends: seq<Send>, w: nat, id: Id) {
    forall i, j :: 0 <= i < j < |sends| && FirstOf(sends[i], w) && FirstOf(sends[j], w) ==> sends[i].id != id
  }

  /** Every confirmed request of the wallet used a nonce below `nonce`. */
  ghost predicate Above(posts: seq<Posted>, sends: seq<Send>, w: nat, nonce: nat) {
    forall i :: 0 <= i < |sends| && FirstOf(sends[i], w) && SaidConfirmed(posts, sends[i].id)
      ==> sends[i].hash.tx.nonce < nonce
  }

  /** The nonce of a point on the way to a first send. */
  function NonceOf(point: Point): Option<nat> {
    if point.SendPrice? || point.SendGas? then Some(point.nonce)
    else if point.SendSign? || point.SendSubmit? then Some(point.tx.nonce)
    else None
  }

  ghost predicate NonceAt(posts: seq<Posted>, sends: seq<Send>, w: nat, row: Row, point: Point) {
    && (row.Submitted() ==> Latest(sends, w, row.id))
    && (NonceOf(point).Some? ==> Above(posts, sends, w, NonceOf(point).value))
  }

  ghost predicate NonceInv(cfg: Config, rows: Table, born: Table, posts: seq<Posted>, sends: seq<Send>, pcs: seq<Pc>) {
    && FirstsKept(cfg, born, sends)
    && ConfirmedKept(posts, sends)
    && Ascending(posts, sends)
    && (forall id: Id :: id in rows && rows[id].Submitted() ==> Latest(sends, rows[id].wallet, id))
    && (forall w :: 0 <= w < |pcs| && pcs[w].At? ==> NonceAt(posts, sends, w, pcs[w].row, pcs[w].point))
  }

  // ------------------------------------------------------------ the node's answer

  /** The node's pending nonce is above that of every confirmed request of the account. */
  lemma NodeIsAbove(cfg: Config, s: World, w: nat, nonce: nat)
    requires FirstsKept(cfg, s.born, s.store.sends) && ConfirmedKept(s.store.posts, s.store.sends)
    requires FinalInv(cfg, s.chain, s.store.posts, s.pcs)
    requires forall h :: Canonical(s.chain, h) && h.tx.from == SenderOf(cfg, w) ==> h.tx.nonce < nonce
    ensures Above(s.store.posts, s.store.sends, w, nonce)
  {
    var posts, sends := s.store.posts, s.store.sends;
    forall i | 0 <= i < |sends| && FirstOf(sends[i], w) && SaidConfirmed(posts, sends[i].id)
      ensures sends[i].hash.tx.nonce < nonce
    {
      var k :| 0 <= k < |posts| && posts[k].message.Confirmed? && posts[k].message.id == sends[i].id;
      var hash := posts[k].message.hash;
      assert Final(cfg, s.chain, hash);
      var n: nat :| Deep(cfg, s.chain, n, hash.value);
      assert Canonical(s.chain, hash.value);
    }
  }

  lemma SentStays(cfg: Config, w: nat, row: Row, point: Point, reply: Reply)
    ensures
      var pc' := NextAt(cfg, w, row, point, reply);
      pc'.At? && !pc'.point.SubmitStore? ==> pc'.row.id == row.id && pc'.row.Submitted() == row.Submitted()
  {
  }

  lemma NonceStays(cfg: Config, w: nat, row: Row, point: Point, reply: Reply)
    ensures
      var pc' := NextAt(cfg, w, row, point, reply);
      pc'.At? && NonceOf(pc'.point).Some? ==>
        if point.SendNonce? then reply.NonceIs? && NonceOf(pc'.point) == Some(reply.nonce)
        else NonceOf(pc'.point) == NonceOf(point)
  {
  }

  /** A nonce answered stays with the row until the transaction is sent. */
  lemma NonceWatch(cfg: Config, posts: seq<Posted>, sends: seq<Send>, w: nat, row: Row, point: Point, reply: Reply)
    requires NonceAt(posts, sends, w, row, point)
    requires point.SendNonce? && reply.NonceIs? ==> Above(posts, sends, w, reply.nonce)
    ensures
      var pc' := NextAt(cfg, w, row, point, reply);
      pc'.At? && !pc'.point.SubmitStore? ==> NonceAt(posts, sends, w, pc'.row, pc'.point)
  {
    SentStays(cfg, w, row, point, reply);
    NonceStays(cfg, w, row, point, reply);
  }

  // ------------------------------------------------------------ a message, a transaction

  lemma ConfirmedMore(posts: seq<Posted>, post: Posted)
    ensures forall id: Id ::
      SaidConfirmed(posts + [post], id) <==> SaidConfirmed(posts, id) || (post.message.Confirmed? && post.message.id == id)
  {
    var posts' := posts + [post];
    assert posts'[|posts|] == post;
    assert forall i :: 0 <= i < |posts| ==> posts'[i] == posts[i];
  }

  lemma NoncePost(cfg: Config, rows: Table, born: Table, posts: seq<Posted>, sends: seq<Send>, pcs: seq<Pc>,
                  w: nat, message: Message)
    requires NonceInv(cfg, rows, born, posts, sends, pcs) && w < |pcs| && pcs[w].At?
    requires message.id == pcs[w].row.id && message.id in born && born[message.id].wallet == w
    requires message.Confirmed? ==>
      && pcs[w].point.ConfirmPost? && pcs[w].row.Submitted()
      && Alike(message.hash, Kept(sends, message.id))
    ensures NonceInv(cfg, rows, born, posts + [Posted(w, message)], sends, pcs)
  {
    var posts' := posts + [Posted(w, message)];
    ConfirmedMore(posts, Posted(w, message));
    assert NonceAt(posts, sends, w, pcs[w].row, pcs[w].point);
    forall v | 0 <= v < |pcs| && pcs[v].At? ensures NonceAt(posts', sends, v, pcs[v].row, pcs[v].point) {
      assert NonceAt(posts, sends, v, pcs[v].row, pcs[v].point);
    }
  }

  /** The step's transaction is a first submission only for a request nothing was kept for. */
  ghost predicate Fresh(cfg: Config, posts: seq<Posted>, sends: seq<Send>, send: Send) {
    First(send) ==>
      && Kept(sends, send.id) == [] && send.hash.tx.from == SenderOf(cfg, send.wallet)
      && Above(posts, sends, send.wallet, send.hash.tx.nonce)
  }

  lemma FirstsSend(cfg: Config, born: Table, posts: seq<Posted>, sends: seq<Send>, send: Send)
    requires FirstsKept(cfg, born, sends) && Fresh(cfg, posts, sends, send)
    requires send.id in born && born[send.id].wallet == send.wallet
    ensures FirstsKept(cfg, born, sends + [send])
  {
    var sends' := sends + [send];
    assert forall i :: 0 <= i < |sends| ==> sends'[i] == sends[i];
    forall id: Id {
      KeptAppend(sends, send, id);
    }
  }

  lemma ConfirmedSend(cfg: Config, posts: seq<Posted>, sends: seq<Send>, send: Send)
    requires ConfirmedKept(posts, sends) && Fresh(cfg, posts, sends, send)
    ensures ConfirmedKept(posts, sends + [send])
  {
    forall id: Id {
      KeptAppend(sends, send, id);
    }
  }

  lemma AscendingSend(cfg: Config, posts: seq<Posted>, sends: seq<Send>, send: Send)
    requires Ascending(posts, sends) && Fresh(cfg, posts, sends, send)
    ensures Ascending(posts, sends + [send])
  {
    var sends' := sends + [send];
    assert forall i :: 0 <= i < |sends| ==> sends'[i] == sends[i];
    assert First(send) ==> Above(posts, sends, send.wallet, send.hash.tx.nonce);
  }

  /** After a first submission of `send.id`, it is the latest of its wallet; other wallets' stay what they were. */
  lemma LatestSend(cfg: Config, born: Table, posts: seq<Posted>, sends: seq<Send>, send: Send, w: nat, id: Id)
    requires FirstsKept(cfg, born, sends) && Fresh(cfg, posts, sends, send)
    requires Latest(sends, w, id) || (First(send) && send.id == id)
    requires send.wallet == w && send.id != id ==> !First(send)
    ensures Latest(sends + [send], w, id)
  {
    var sends' := sends + [send];
    assert forall i :: 0 <= i < |sends| ==> sends'[i] == sends[i];
  }

  lemma NonceSend(cfg: Config, rows: Table, born: Table, posts: seq<Posted>, sends: seq<Send>, pcs: seq<Pc>,
                  w: nat, send: Send, pc': Pc)
    requires NonceInv(cfg, rows, born, posts, sends, pcs) && w < |pcs| && pcs[w].At?
    requires send.wallet == w && send.id == pcs[w].row.id && send.id in born && born[send.id].wallet == w
    requires Alone(rows, w, pcs[w]) && Fresh(cfg, posts, sends, send)
    requires pc'.At? ==> First(send) && pc'.row.id == send.id && pc'.point.SubmitStore?
    ensures NonceInv(cfg, rows, born, posts, sends + [send], pcs[w := pc'])
  {
    var sends' := sends + [send];
    FirstsSend(cfg, born, posts, sends, send);
    ConfirmedSend(cfg, posts, sends, send);
    AscendingSend(cfg, posts, sends, send);
    forall id: Id | id in rows && rows[id].Submitted() ensures Latest(sends', rows[id].wallet, id) {
      assert rows[id].wallet == w ==> InWallet(rows, id, w);
      LatestSend(cfg, born, posts, sends, send, rows[id].wallet, id);
    }
    forall v | 0 <= v < |pcs| && v != w && pcs[v].At? ensures NonceAt(posts, sends', v, pcs[v].row, pcs[v].point) {
      assert NonceAt(posts, sends, v, pcs[v].row, pcs[v].point);
      OtherNonceSend(posts, sends, send, v, pcs[v].row, pcs[v].point);
    }
    if pc'.At? {
      LatestSend(cfg, born, posts, sends, send, w, send.id);
    }
  }

  lemma OtherNonceSend(posts: seq<Posted>, sends: seq<Send>, send: Send, v: nat, row: Row, point: Point)
    requires NonceAt(posts, sends, v, row, point) && send.wallet != v
    ensures NonceAt(posts, sends + [send], v, row, point)
  {
    var sends' := sends + [send];
    assert forall i :: 0 <= i < |sends| ==> sends'[i] == sends[i];
  }

  lemma NonceQuiet(cfg: Config, rows: Table, rows': Table, born: Table, posts: seq<Posted>, sends: seq<Send>,
                   pcs: seq<Pc>, w: nat, pc': Pc, reply: Reply)
    requires NonceInv(cfg, rows, born, posts, sends, pcs) && w < |pcs|
    requires Moves(rows, rows', w, pcs[w], pc', reply)
    requires pcs[w].At? && pc'.At? ==> NonceAt(posts, sends, w, pc'.row, pc'.point)
    ensures NonceInv(cfg, rows', born, posts, sends, pcs[w := pc'])
  {
    if pcs[w].At? {
      assert NonceAt(posts, sends, w, pcs[w].row, pcs[w].point);
    }
  }

  // ------------------------------------------------------------ the step

  lemma NoncePosts(cfg: Config, s: World, w: nat, reply: Reply)
    requires Inv(cfg, s) && NonceInv(cfg, s.store.rows, s.born, s.store.posts, s.store.sends, s.pcs)
    requires w < |s.pcs| && Ask(cfg, w, s.pcs[w]).Post?
    requires HandAlike(s.pcs[w], s.store.sends)
    ensures
      var posts' := Effect(s.store, w, Ask(cfg, w, s.pcs[w]), reply).posts;
      NonceInv(cfg, s.store.rows, s.born, posts', s.store.sends, s.pcs)
  {
    var pc := s.pcs[w];
    assert View(cfg, s.store.rows, s.born, w, pc);
    NoncePost(cfg, s.store.rows, s.born, s.store.posts, s.store.sends, s.pcs, w, Ask(cfg, w, pc).message);
  }

  lemma NonceSubmits(cfg: Config, s: World, w: nat, reply: Reply)
    requires Inv(cfg, s) && NonceInv(cfg, s.store.rows, s.born, s.store.posts, s.store.sends, s.pcs)
    requires Unsent(s.store.rows, s.born, s.store.sends, s.pcs)
    requires w < |s.pcs| && Ask(cfg, w, s.pcs[w]).Submit? && reply.Sent?
    ensures
      var sends' := Effect(s.store, w, Ask(cfg, w, s.pcs[w]), reply).sends;
      NonceInv(cfg, s.store.rows, s.born, s.store.posts, sends', s.pcs[w := Next(cfg, w, s.pcs[w], reply)])
  {
    var pc, request := s.pcs[w], Ask(cfg, w, s.pcs[w]);
    assert View(cfg, s.store.rows, s.born, w, pc);
    assert NonceAt(s.store.posts, s.store.sends, w, pc.row, pc.point);
    SubmitsAt(cfg, w, pc.row, pc.point);
    var send := Send(w, request.id, request.hash, request.boost, reply.ok, reply.accepted);
    NonceSend(cfg, s.store.rows, s.born, s.store.posts, s.store.sends, s.pcs, w, send, Next(cfg, w, pc, reply));
  }

  /** After a message, only the row's request matters to what comes next. */
  lemma NonceAfterPost(cfg: Config, posts: seq<Posted>, sends: seq<Send>, w: nat, row: Row, point: Point, reply: Reply)
    requires NonceAt(posts, sends, w, row, point) && AskAt(cfg, w, row, point).Post?
    ensures
      var pc' := NextAt(cfg, w, row, point, reply);
      pc'.At? ==> forall posts': seq<Posted> :: NonceAt(posts', sends, w, pc'.row, pc'.point)
  {
  }

  lemma StoresAfterSubmit(cfg: Config, w: nat, row: Row, point: Point, reply: Reply)
    ensures
      var pc' := NextAt(cfg, w, row, point, reply);
      pc'.At? && pc'.point.SubmitStore? ==> AskAt(cfg, w, row, point).Submit?
  {
  }

  /** What the row held next is known to satisfy, unless the call was a send. */
  lemma NonceNext(cfg: Config, s: World, w: nat, reply: Reply)
    requires NonceInv(cfg, s.store.rows, s.born, s.store.posts, s.store.sends, s.pcs)
    requires FinalInv(cfg, s.chain, s.store.posts, s.pcs)
    requires Enabled(cfg, s, Watch(w, reply)) && s.pcs[w].At? && !Ask(cfg, w, s.pcs[w]).Submit?
    ensures
      var pc, pc' := s.pcs[w], Next(cfg, w, s.pcs[w], reply);
      pc'.At? ==> NonceAt(Effect(s.store, w, Ask(cfg, w, pc), reply).posts, s.store.sends, w, pc'.row, pc'.point)
  {
    var pc := s.pcs[w];
    assert NonceAt(s.store.posts, s.store.sends, w, pc.row, pc.point);
    if Ask(cfg, w, pc).Post? {
      NonceAfterPost(cfg, s.store.posts, s.store.sends, w, pc.row, pc.point, reply);
    } else {
      if pc.point.SendNonce? && reply.NonceIs? {
        NodeIsAbove(cfg, s, w, reply.nonce);
      }
      NonceWatch(cfg, s.store.posts, s.store.sends, w, pc.row, pc.point, reply);
      StoresAfterSubmit(cfg, w, pc.row, pc.point, reply);
    }
  }

  lemma NonceWorld(cfg: Config, s: World, w: nat, reply: Reply)
    requires Inv(cfg, s) && NonceInv(cfg, s.store.rows, s.born, s.store.posts, s.store.sends, s.pcs)
    requires w < |s.pcs| && HandAlike(s.pcs[w], s.store.sends)
    requires Unsent(s.store.rows, s.born, s.store.sends, s.pcs)
    requires FinalInv(cfg, s.chain, s.store.posts, s.pcs)
    requires Enabled(cfg, s, Watch(w, reply))
    ensures
      var pc, store' := s.pcs[w], Effect(s.store, w, Ask(cfg, w, s.pcs[w]), reply);
      NonceInv(cfg, store'.rows, s.born, store'.posts, store'.sends, s.pcs[w := Next(cfg, w, pc, reply)])
  {
    var pc := s.pcs[w];
    var request, store' := Ask(cfg, w, pc), Effect(s.store, w, Ask(cfg, w, pc), reply);
    if request.Submit? {
      NonceSubmits(cfg, s, w, reply);
    } else {
      if request.Post? {
        NoncePosts(cfg, s, w, reply);
      }
      MovesWatch(cfg, s, w, reply);
      if pc.At? {
        NonceNext(cfg, s, w, reply);
      }
      NonceQuiet(cfg, s.store.rows, store'.rows, s.born, store'.posts, s.store.sends, s.pcs, w,
                 Next(cfg, w, pc, reply), reply);
    }
  }

  lemma NonceElse(cfg: Config, s: World, a: Action)
    requires Inv(cfg, s) && NonceInv(cfg, s.store.rows, s.born, s.store.posts, s.store.sends, s.pcs)
    requires Enabled(cfg, s, a) && !a.Watch?
    ensures
      var s' := Apply(cfg, s, a);
      NonceInv(cfg, s'.store.rows, s'.born, s'.store.posts, s'.store.sends, s'.pcs)
  {
  }

  lemma RowAlike(cfg: Config, cap: Option<nat>, rows: Table, pc: Pc, n: Notes, id: Id, log: seq<Version>, kept: seq<TxHash>)
    requires LogInv(cfg, cap, rows, pc, n, id, log, kept) && Holds(pc, id) && pc.row.Submitted()
    requires !pc.point.SubmitStore? && !pc.point.BoostStore?
    requires forall h :: h in HashesOf(log) ==> kept != [] && SamePayload(h.tx, kept[0].tx)
    ensures Alike(pc.row.hash, kept)
  {
    assert HashesOf(log)[|log|-1] in HashesOf(log);
  }

  /** The submitted row in hand is of one sender and nonce with what was kept for it. */
  lemma HeldAlike(cfg: Config, t: Terms, run: seq<Action>, w: nat)
    requires Legal(cfg, t, run) && w < |After(cfg, run).pcs|
    ensures HandAlike(After(cfg, run).pcs[w], After(cfg, run).store.sends)
  {
    var s := After(cfg, run);
    var pc := s.pcs[w];
    if pc.At? && pc.row.Submitted() && !pc.point.SubmitStore? && !pc.point.BoostStore? {
      Reachable(cfg, t, run);
      LogHolds(cfg, t, run, pc.row.id);
      assert View(cfg, s.store.rows, s.born, w, pc);
      KeptAlike(cfg, t, run, pc.row.id);
      RowAlike(cfg, t.priceCap, s.store.rows, pc, NotesOf(cfg, run, w), pc.row.id, Log(cfg, run, pc.row.id),
               Kept(s.store.sends, pc.row.id));
    }
  }

  lemma {:induction false} NoncesHold(cfg: Config, t: Terms, run: seq<Action>)
    requires Legal(cfg, t, run) && t.deepBlocksStay && t.submitStored
    ensures
      var s := After(cfg, run);
      NonceInv(cfg, s.store.rows, s.born, s.store.posts, s.store.sends, s.pcs)
  {
    if run != [] {
      var s, a := After(cfg, run[..|run|-1]), run[|run|-1];
      NoncesHold(cfg, t, run[..|run|-1]);
      Reachable(cfg, t, run[..|run|-1]);
      if a.Watch? {
        HeldAlike(cfg, t, run[..|run|-1], a.w);
        OnceHolds(cfg, t, run[..|run|-1]);
        FinalHolds(cfg, t, run[..|run|-1]);
        NonceWorld(cfg, s, a.w, a.reply);
        RetiredWatch(cfg, s, a.w, a.reply);
      } else {
        NonceElse(cfg, s, a);
      }
    }
  }

  /**
    Over every run: of two first submissions of one wallet, the later uses the higher nonce if the
    earlier one's request ended in Confirmed.
  */
  lemma NoncesAscend(cfg: Config, t: Terms, run: seq<Action>, i: nat, j: nat)
    requires Legal(cfg, t, run) && t.deepBlocksStay && t.submitStored
    requires i < j < |After(cfg, run).store.sends|
    requires
      var s := After(cfg, run);
      var a, b := s.store.sends[i], s.store.sends[j];
      First(a) && First(b) && a.wallet == b.wallet && SaidConfirmed(s.store.posts, a.id)
    ensures After(cfg, run).store.sends[i].hash.tx.nonce < After(cfg, run).store.sends[j].hash.tx.nonce
  {
    NoncesHold(cfg, t, run);
  }
}
