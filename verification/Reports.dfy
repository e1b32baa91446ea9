/**
  The status messages tell what happened: Submitted names a transaction that was sent, Mined and Confirmed one
  made for the request, Confirmed the outcome of the receipt its Tick got, Failed the reason of the estimation.
*/
module Reports {
  import opened Types
  import opened Watcher
  import opened System
  import opened Rows
  import opened Notes
  import opened Sends
  import opened Boosts

  /** Step k of the run is this reply to a Tick of wallet w that has the request in hand. */
  ghost predicate HeardAt(cfg: Config, run: seq<Action>, k: nat, w: nat, id: Id, reply: Reply) {
    && k < |run| && run[k] == Watch(w, reply)
    && NotesOf(cfg, run[..k], w).read.Some? && NotesOf(cfg, run[..k], w).read.value.id == id
  }

  ghost predicate Asked(cfg: Config, run: seq<Action>, k: nat, w: nat, request: Request) {
    k < |run| && w < |After(cfg, run[..k]).pcs| && Now(cfg, run[..k], w) == request
  }

  /** A receipt for the transaction was the reply. */
  ghost predicate SawReceipt(cfg: Config, run: seq<Action>, w: nat, id: Id, hash: Option<TxHash>, receipt: Receipt) {
    exists k: nat :: HeardAt(cfg, run, k, w, id, Included(receipt)) && Asked(cfg, run, k, w, GetReceipt(hash))
  }

  /** The gas estimation was answered with an error that carries this reason. */
  ghost predicate SawRevert(cfg: Config, run: seq<Action>, w: nat, id: Id, reason: Bytes) {
    exists k: nat :: HeardAt(cfg, run, k, w, id, Reverted(reason))
  }

  /** A first submission of the transaction went through. */
  ghost predicate SentFirst(sends: seq<Send>, id: Id, hash: TxHash) {
    exists i :: 0 <= i < |sends| && sends[i].id == id && sends[i].hash == hash && !sends[i].boost && sends[i].ok
  }

  // ------------------------------------------------------------ what is noted was heard

  lemma StillHeard(cfg: Config, run: seq<Action>, a: Action, w: nat, id: Id)
    ensures forall hash, receipt :: SawReceipt(cfg, run, w, id, hash, receipt) ==> SawReceipt(cfg, run + [a], w, id, hash, receipt)
    ensures forall reason :: SawRevert(cfg, run, w, id, reason) ==> SawRevert(cfg, run + [a], w, id, reason)
  {
    forall k: nat | k <= |run| ensures (run + [a])[..k] == run[..k] {
    }
    forall hash, receipt | SawReceipt(cfg, run, w, id, hash, receipt) ensures SawReceipt(cfg, run + [a], w, id, hash, receipt) {
      var k: nat :| HeardAt(cfg, run, k, w, id, Included(receipt)) && Asked(cfg, run, k, w, GetReceipt(hash));
      assert HeardAt(cfg, run + [a], k, w, id, Included(receipt)) && Asked(cfg, run + [a], k, w, GetReceipt(hash));
    }
    forall reason | SawRevert(cfg, run, w, id, reason) ensures SawRevert(cfg, run + [a], w, id, reason) {
      var k: nat :| HeardAt(cfg, run, k, w, id, Reverted(reason));
      assert HeardAt(cfg, run + [a], k, w, id, Reverted(reason));
    }
  }

  ghost predicate NotesHeard(cfg: Config, run: seq<Action>, w: nat, n: Notes) {
    n.read.Some? ==>
      && (n.receipt.Some? ==> SawReceipt(cfg, run, w, n.read.value.id, n.read.value.hash, n.receipt.value))
      && (n.reason.Some? ==> SawRevert(cfg, run, w, n.read.value.id, n.reason.value))
  }

  lemma ReplyHeard(cfg: Config, run: seq<Action>, w: nat, reply: Reply)
    requires w < |After(cfg, run).pcs| && NotesOf(cfg, run, w).read.Some?
    ensures
      var id := NotesOf(cfg, run, w).read.value.id;
      && (reply.Included? && Now(cfg, run, w).GetReceipt? ==>
            SawReceipt(cfg, run + [Watch(w, reply)], w, id, Now(cfg, run, w).txHash, reply.receipt))
      && (reply.Reverted? ==> SawRevert(cfg, run + [Watch(w, reply)], w, id, reply.reason))
  {
    var run', id := run + [Watch(w, reply)], NotesOf(cfg, run, w).read.value.id;
    assert run'[..|run|] == run;
    assert HeardAt(cfg, run', |run|, w, id, reply) && Asked(cfg, run', |run|, w, Now(cfg, run, w));
  }

  lemma NoteChange(n: Notes, request: Request, reply: Reply)
    ensures
      var n' := Note(n, request, reply);
      || (n'.receipt.None? && n'.reason.None?)
      || (n'.read == n.read
          && (n'.receipt == n.receipt || (request.GetReceipt? && reply.Included? && n'.receipt == Some(reply.receipt)))
          && (n'.reason == n.reason || (reply.Reverted? && n'.reason == Some(reply.reason))))
  {
  }

  lemma AskedAbout(cfg: Config, w: nat, pc: Pc, n: Notes)
    requires Knows(cfg, w, pc, n) && Ask(cfg, w, pc).GetReceipt?
    ensures n.read.Some? && Ask(cfg, w, pc).txHash == n.read.value.hash
  {
  }

  lemma NoteHeard(cfg: Config, run: seq<Action>, w: nat, reply: Reply)
    requires w < |After(cfg, run).pcs| && NotesHeard(cfg, run, w, NotesOf(cfg, run, w))
    requires Now(cfg, run, w).GetReceipt? && NotesOf(cfg, run, w).read.Some? ==>
      Now(cfg, run, w).txHash == NotesOf(cfg, run, w).read.value.hash
    ensures NotesHeard(cfg, run + [Watch(w, reply)], w, Note(NotesOf(cfg, run, w), Now(cfg, run, w), reply))
  {
    var n := NotesOf(cfg, run, w);
    NoteChange(n, Now(cfg, run, w), reply);
    if n.read.Some? {
      StillHeard(cfg, run, Watch(w, reply), w, n.read.value.id);
      ReplyHeard(cfg, run, w, reply);
    }
  }

  lemma {:induction false} NotesAreHeard(cfg: Config, t: Terms, run: seq<Action>, w: nat)
    requires Legal(cfg, t, run)
    ensures NotesHeard(cfg, run, w, NotesOf(cfg, run, w))
  {
    if run != [] {
      var before, a := run[..|run|-1], run[|run|-1];
      NotesAreHeard(cfg, t, before, w);
      assert before + [a] == run;
      if a.Watch? && a.w == w {
        KnowsHold(cfg, t, before, w);
        if Now(cfg, before, w).GetReceipt? {
          AskedAbout(cfg, w, After(cfg, before).pcs[w], NotesOf(cfg, before, w));
        }
        NoteHeard(cfg, before, w, a.reply);
      } else if NotesOf(cfg, before, w).read.Some? {
        StillHeard(cfg, before, a, w, NotesOf(cfg, before, w).read.value.id);
      }
    }
  }

  // ------------------------------------------------------------ the messages

  ghost predicate Made(cfg: Config, run: seq<Action>, id: Id, hash: Option<TxHash>) {
    hash.Some? && hash.value in HashesOf(Log(cfg, run, id))
  }

  /** The message tells what happened. */
  ghost predicate Truthful(cfg: Config, run: seq<Action>, sends: seq<Send>, post: Posted) {
    match post.message
    case Submitted(id, hash) => hash.Some? && SentFirst(sends, id, hash.value)
    case Mined(id, hash) =>
      Made(cfg, run, id, hash) && exists receipt :: SawReceipt(cfg, run, post.wallet, id, hash, receipt)
    case Confirmed(id, hash, successful, logs) =>
      && Made(cfg, run, id, hash)
      && exists receipt :: SawReceipt(cfg, run, post.wallet, id, hash, receipt)
                           && receipt.successful == successful && receipt.logs == logs
    case Failed(id, reason) => SawRevert(cfg, run, post.wallet, id, reason)
  }

  lemma StillMade(cfg: Config, t: Terms, run: seq<Action>, a: Action, id: Id, hash: Option<TxHash>)
    requires Legal(cfg, t, run + [a]) && Made(cfg, run, id, hash)
    ensures Made(cfg, run + [a], id, hash)
  {
    assert (run + [a])[..|run|] == run;
    var log := Log(cfg, run, id);
    var i :| 0 <= i < |log| && HashesOf(log)[i] == hash.value;
    if a.Watch? && a.w < |After(cfg, run).pcs| {
      MadeOnce(cfg, t, run, a.w, a.reply, id);
      assert HashesOf(Log(cfg, run + [a], id))[i] == hash.value;
    }
  }

  lemma NotSubmitting(cfg: Config, t: Terms, run: seq<Action>, w: nat, id: Id)
    requires Legal(cfg, t, run) && w < |After(cfg, run).pcs| && Log(cfg, run, id) != []
    ensures !(Holds(After(cfg, run).pcs[w], id) && After(cfg, run).pcs[w].point.SubmitStore?)
  {
    var s := After(cfg, run);
    LogHolds(cfg, t, run, id);
    Reachable(cfg, t, run);
    assert View(cfg, s.store.rows, s.born, w, s.pcs[w]);
  }

  lemma LogKeeps(n: Notes, request: Request, reply: Reply, id: Id, log: seq<Version>)
    requires log != [] && (Complete(n) && n.read.value.id == id && request.Save? ==> n.active)
    ensures
      var log' := LogStep(n, request, reply, id, log);
      |log'| >= |log| && forall i :: 0 <= i < |log| ==> log'[i].hash == log[i].hash
  {
  }

  /** A request that has versions is not submitted for the first time again. */
  lemma MadeOnce(cfg: Config, t: Terms, run: seq<Action>, w: nat, reply: Reply, id: Id)
    requires Legal(cfg, t, run) && w < |After(cfg, run).pcs| && Log(cfg, run, id) != []
    ensures
      var log, log' := Log(cfg, run, id), LogStep(NotesOf(cfg, run, w), Now(cfg, run, w), reply, id, Log(cfg, run, id));
      |log'| >= |log| && forall i :: 0 <= i < |log| ==> log'[i].hash == log[i].hash
  {
    KnowsHold(cfg, t, run, w);
    NotSubmitting(cfg, t, run, w, id);
    NotFirst(cfg, w, After(cfg, run).pcs[w], NotesOf(cfg, run, w), id);
    LogKeeps(NotesOf(cfg, run, w), Now(cfg, run, w), reply, id, Log(cfg, run, id));
  }

  lemma NotFirst(cfg: Config, w: nat, pc: Pc, n: Notes, id: Id)
    requires Knows(cfg, w, pc, n) && !(Holds(pc, id) && pc.point.SubmitStore?)
    ensures Complete(n) && n.read.value.id == id && Ask(cfg, w, pc).Save? ==> n.active
  {
  }

  // ------------------------------------------------------------ the submitted row in hand was sent

  ghost predicate HandSent(pc: Pc, sends: seq<Send>) {
    pc.At? && (pc.point.SubmitStore? || pc.point.SubmitPost?) ==>
      pc.row.hash.Some? && SentFirst(sends, pc.row.id, pc.row.hash.value)
  }

  lemma SentMore(sends: seq<Send>, send: Send)
    ensures forall id: Id, hash :: SentFirst(sends, id, hash) ==> SentFirst(sends + [send], id, hash)
    ensures !send.boost && send.ok ==> SentFirst(sends + [send], send.id, send.hash)
  {
    var sends' := sends + [send];
    assert sends'[|sends|] == send && forall i :: 0 <= i < |sends| ==> sends'[i] == sends[i];
  }

  lemma SendsGrow(store: Store, w: nat, request: Request, reply: Reply)
    ensures
      var sends' := Effect(store, w, request, reply).sends;
      forall id: Id, hash :: SentFirst(store.sends, id, hash) ==> SentFirst(sends', id, hash)
    ensures request.Submit? && !request.boost && reply.Sent? && reply.ok ==>
      SentFirst(Effect(store, w, request, reply).sends, request.id, request.hash)
  {
    if request.Submit? && reply.Sent? {
      SentMore(store.sends, Send(w, request.id, request.hash, request.boost, reply.ok, reply.accepted));
    }
  }

  lemma HandSentStep(cfg: Config, store: Store, w: nat, pc: Pc, reply: Reply)
    requires HandSent(pc, store.sends)
    ensures HandSent(Next(cfg, w, pc, reply), Effect(store, w, Ask(cfg, w, pc), reply).sends)
  {
    SendsGrow(store, w, Ask(cfg, w, pc), reply);
  }

  lemma {:induction false} HandsSent(cfg: Config, t: Terms, run: seq<Action>, w: nat)
    requires Legal(cfg, t, run) && w < |After(cfg, run).pcs|
    ensures HandSent(After(cfg, run).pcs[w], After(cfg, run).store.sends)
  {
    if run != [] {
      var before, a := run[..|run|-1], run[|run|-1];
      var s := After(cfg, before);
      HandsSent(cfg, t, before, w);
      if a.Watch? {
        SendsGrow(s.store, a.w, Ask(cfg, a.w, s.pcs[a.w]), a.reply);
        if a.w == w {
          HandSentStep(cfg, s.store, w, s.pcs[w], a.reply);
        }
      }
    }
  }

  // ------------------------------------------------------------ the message now posted

  lemma WordIs(cfg: Config, w: nat, pc: Pc, n: Notes)
    requires Knows(cfg, w, pc, n) && Ask(cfg, w, pc).Post?
    ensures n.read.Some? && pc.At? && pc.row.id == n.read.value.id
    ensures
      match Ask(cfg, w, pc).message
      case Submitted(id, hash) => id == pc.row.id && hash == pc.row.hash && pc.point.SubmitPost?
      case Mined(id, hash) => id == pc.row.id && hash == pc.row.hash == n.read.value.hash && n.receipt.Some? && pc.point.MinedPost?
      case Confirmed(id, hash, successful, logs) =>
        && id == pc.row.id && hash == pc.row.hash == n.read.value.hash && n.receipt.Some? && pc.point.ConfirmPost?
        && successful == n.receipt.value.successful && logs == n.receipt.value.logs
      case Failed(id, reason) => id == pc.row.id && n.reason == Some(reason)
  {
  }

  lemma HandMade(cfg: Config, t: Terms, run: seq<Action>, w: nat)
    requires Legal(cfg, t, run) && w < |After(cfg, run).pcs|
    ensures
      var pc := After(cfg, run).pcs[w];
      pc.At? && (pc.point.MinedPost? || pc.point.ConfirmPost?) ==> Made(cfg, run, pc.row.id, pc.row.hash)
  {
    var s := After(cfg, run);
    if s.pcs[w].At? {
      Reachable(cfg, t, run);
      LogHolds(cfg, t, run, s.pcs[w].row.id);
      assert View(cfg, s.store.rows, s.born, w, s.pcs[w]);
      var log := Log(cfg, run, s.pcs[w].row.id);
      assert log != [] ==> HashesOf(log)[|log|-1] == log[|log|-1].hash;
    }
  }

  lemma WordTruthful(cfg: Config, t: Terms, run: seq<Action>, w: nat)
    requires Legal(cfg, t, run) && w < |After(cfg, run).pcs| && Now(cfg, run, w).Post?
    ensures Truthful(cfg, run, After(cfg, run).store.sends, Posted(w, Now(cfg, run, w).message))
  {
    KnowsHold(cfg, t, run, w);
    NotesAreHeard(cfg, t, run, w);
    HandsSent(cfg, t, run, w);
    HandMade(cfg, t, run, w);
    WordIs(cfg, w, After(cfg, run).pcs[w], NotesOf(cfg, run, w));
  }

  lemma StillTruthful(cfg: Config, t: Terms, run: seq<Action>, a: Action, post: Posted)
    requires Legal(cfg, t, run + [a]) && Legal(cfg, t, run) && Truthful(cfg, run, After(cfg, run).store.sends, post)
    ensures Truthful(cfg, run + [a], After(cfg, run + [a]).store.sends, post)
  {
    assert (run + [a])[..|run|] == run;
    StillHeard(cfg, run, a, post.wallet, post.message.id);
    match post.message
    case Submitted(_, _) =>
      var s := After(cfg, run);
      if a.Watch? && a.w < |s.pcs| {
        SendsGrow(s.store, a.w, Ask(cfg, a.w, s.pcs[a.w]), a.reply);
      }
    case Mined(id, hash) => StillMade(cfg, t, run, a, id, hash);
    case Confirmed(id, hash, _, _) => StillMade(cfg, t, run, a, id, hash);
    case Failed(_, _) =>
  }

  lemma {:induction false} AllTruthful(cfg: Config, t: Terms, run: seq<Action>)
    requires Legal(cfg, t, run)
    ensures
      var store := After(cfg, run).store;
      forall i :: 0 <= i < |store.posts| ==> Truthful(cfg, run, store.sends, store.posts[i])
  {
    if run != [] {
      var before, a := run[..|run|-1], run[|run|-1];
      var s := After(cfg, before);
      AllTruthful(cfg, t, before);
      assert before + [a] == run;
      var posts' := After(cfg, run).store.posts;
      forall i | 0 <= i < |posts'| ensures Truthful(cfg, run, After(cfg, run).store.sends, posts'[i]) {
        if i < |s.store.posts| {
          PostsKept(cfg, s, a, i);
          StillTruthful(cfg, t, before, a, s.store.posts[i]);
        } else {
          PostsNew(cfg, s, a);
          WordTruthful(cfg, t, before, a.w);
          StillTruthful(cfg, t, before, a, posts'[i]);
        }
      }
    }
  }

  lemma PostsKept(cfg: Config, s: World, a: Action, i: nat)
    requires i < |s.store.posts|
    ensures i < |Apply(cfg, s, a).store.posts| && Apply(cfg, s, a).store.posts[i] == s.store.posts[i]
  {
  }

  lemma PostsNew(cfg: Config, s: World, a: Action)
    requires |Apply(cfg, s, a).store.posts| > |s.store.posts|
    ensures a.Watch? && a.w < |s.pcs| && Ask(cfg, a.w, s.pcs[a.w]).Post?
    ensures Apply(cfg, s, a).store.posts == s.store.posts + [Posted(a.w, Ask(cfg, a.w, s.pcs[a.w]).message)]
  {
  }

  /**
    Over every run, whatever fails. A Submitted carries the hash of a first submission of that request that went
    through. A Mined or Confirmed carries the hash of a transaction made for that request, for which a Tick of that
    wallet with that request in hand got a receipt; a Confirmed carries the outcome and the logs of that receipt. A
    Failed carries the reason with which such a Tick's gas estimation was refused.
  */
  lemma MessagesAreTrue(cfg: Config, t: Terms, run: seq<Action>, i: nat)
    requires Legal(cfg, t, run) && i < |After(cfg, run).store.posts|
    ensures
      var s := After(cfg, run);
      var w := s.store.posts[i].wallet;
      match s.store.posts[i].message
      case Submitted(id, hash) =>
        exists j :: 0 <= j < |s.store.sends| && s.store.sends[j].id == id && Some(s.store.sends[j].hash) == hash
                    && !s.store.sends[j].boost && s.store.sends[j].ok
      case Mined(id, hash) =>
        && hash.Some? && hash.value in HashesOf(Log(cfg, run, id))
        && exists k: nat, receipt ::
             HeardAt(cfg, run, k, w, id, Included(receipt)) && Asked(cfg, run, k, w, GetReceipt(hash))
      case Confirmed(id, hash, successful, logs) =>
        && hash.Some? && hash.value in HashesOf(Log(cfg, run, id))
        && exists k: nat, receipt ::
             && HeardAt(cfg, run, k, w, id, Included(receipt)) && Asked(cfg, run, k, w, GetReceipt(hash))
             && successful == receipt.successful && logs == receipt.logs
      case Failed(id, reason) => exists k: nat :: HeardAt(cfg, run, k, w, id, Reverted(reason))
  {
    AllTruthful(cfg, t, run);
    var s := After(cfg, run);
    var post := s.store.posts[i];
    assert Truthful(cfg, run, s.store.sends, post);
    match post.message
    case Submitted(_, _) =>
    case Mined(id, hash) =>
      var receipt :| SawReceipt(cfg, run, post.wallet, id, hash, receipt);
    case Confirmed(id, hash, successful, logs) =>
      var receipt :| SawReceipt(cfg, run, post.wallet, id, hash, receipt)
                     && receipt.successful == successful && receipt.logs == logs;
    case Failed(_, _) =>
  }
}
