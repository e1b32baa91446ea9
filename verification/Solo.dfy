/**
  A Tick running alone, as the list of replies it got; how such a run depends on its own
  wallet's part of the store only, and how it commutes with arrivals.
*/
module Solo {
  import opened Types
  import opened Watcher
  import opened System
  import opened Rows

  datatype Stage = Stage(store: Store, pc: Pc)

  /** Where a Tick of wallet w stands after the replies, started alone on `store`. */
  function Run(cfg: Config, w: nat, store: Store, replies: seq<Reply>): Stage {
    if replies == [] then Stage(store, Idle(false))
    else
      var stage, reply := Run(cfg, w, store, replies[..|replies|-1]), replies[|replies|-1];
      Stage(Effect(stage.store, w, Ask(cfg, w, stage.pc), reply), Next(cfg, w, stage.pc, reply))
  }

  /** The two queries must be answered from the store; what node and signer reply is up to them. */
  ghost predicate Answered(store: Store, w: nat, request: Request, reply: Reply) {
    request.QueryActive? || request.QueryNext? ==> Answers(store, [], w, request, reply)
  }

  /** The replies answer the queries, and the Tick is still under way or just over after the last. */
  ghost predicate RunOk(cfg: Config, w: nat, store: Store, replies: seq<Reply>) {
    replies != [] ==>
      var before := replies[..|replies|-1];
      var stage := Run(cfg, w, store, before);
      && RunOk(cfg, w, store, before)
      && (before != [] ==> !stage.pc.Idle?)
      && Answered(stage.store, w, Ask(cfg, w, stage.pc), replies[|replies|-1])
  }

  // ---------------------------------------------------------------- parts of the store

  function PostsBy(posts: seq<Posted>, w: nat): seq<Message> {
    if posts == [] then []
    else
      var before, last := PostsBy(posts[..|posts|-1], w), posts[|posts|-1];
      if last.wallet == w then before + [last.message] else before
  }

  function SendsBy(sends: seq<Send>, w: nat): seq<Send> {
    if sends == [] then []
    else
      var before, last := SendsBy(sends[..|sends|-1], w), sends[|sends|-1];
      if last.wallet == w then before + [last] else before
  }

  lemma PostsByAppend(posts: seq<Posted>, post: Posted, w: nat)
    ensures PostsBy(posts + [post], w) == if post.wallet == w then PostsBy(posts, w) + [post.message] else PostsBy(posts, w)
  {
    assert (posts + [post])[..|posts|] == posts;
  }

  lemma SendsByAppend(sends: seq<Send>, send: Send, w: nat)
    ensures SendsBy(sends + [send], w) == if send.wallet == w then SendsBy(sends, w) + [send] else SendsBy(sends, w)
  {
    assert (sends + [send])[..|sends|] == sends;
  }

  ghost predicate SameRows(a: Table, b: Table, w: nat) {
    && (forall id: Id :: InWallet(a, id, w) <==> InWallet(b, id, w))
    && (forall id: Id :: InWallet(a, id, w) ==> a[id] == b[id])
  }

  /** The same rows of wallet w, messages from it and sends from it. */
  ghost predicate Agree(a: Store, b: Store, w: nat) {
    && SameRows(a.rows, b.rows, w)
    && PostsBy(a.posts, w) == PostsBy(b.posts, w)
    && SendsBy(a.sends, w) == SendsBy(b.sends, w)
  }

  /** Ids belong to the wallet they were inserted under. */
  ghost predicate Typed(rows: Table, born: Table) {
    forall id: Id :: id in rows ==> id in born && rows[id].id == id && rows[id].wallet == born[id].wallet
  }

  ghost predicate PcTyped(born: Table, w: nat, pc: Pc) {
    pc.At? ==> pc.row.wallet == w && InWallet(born, pc.row.id, w)
  }

  // ---------------------------------------------------------------- one step

  lemma AnsweredIfEnabled(store: Store, chain: seq<Block>, w: nat, request: Request, reply: Reply)
    requires Answers(store, chain, w, request, reply)
    ensures Answered(store, w, request, reply)
  {
  }

  lemma WorldTyped(cfg: Config, s: World, w: nat)
    requires Inv(cfg, s) && w < |s.pcs|
    ensures Typed(s.store.rows, s.born) && PcTyped(s.born, w, s.pcs[w])
  {
    assert View(cfg, s.store.rows, s.born, w, s.pcs[w]);
  }

  lemma EffectTyped(cfg: Config, w: nat, born: Table, store: Store, pc: Pc, reply: Reply)
    requires Typed(store.rows, born) && PcTyped(born, w, pc)
    requires Answered(store, w, Ask(cfg, w, pc), reply)
    ensures Typed(Effect(store, w, Ask(cfg, w, pc), reply).rows, born) && PcTyped(born, w, Next(cfg, w, pc, reply))
  {
    if pc.At? {
      SavesUnsaved(cfg, w, pc.row, pc.point);
      RowInMemory(cfg, w, pc.row, pc.point, reply);
    }
  }

  lemma WriteInWallet(rows: Table, row: Row, cols: set<Column>, w: nat)
    requires WalletIndex !in cols
    ensures forall id: Id :: InWallet(Write(rows, row, cols), id, w) <==> InWallet(rows, id, w)
  {
  }

  lemma WriteAgrees(born: Table, a: Table, b: Table, w: nat, row: Row, cols: set<Column>)
    requires Typed(a, born) && Typed(b, born) && SameRows(a, b, w) && InWallet(born, row.id, w)
    requires WalletIndex !in cols
    ensures SameRows(Write(a, row, cols), Write(b, row, cols), w)
  {
    WriteInWallet(a, row, cols, w);
    WriteInWallet(b, row, cols, w);
    assert row.id in a <==> InWallet(a, row.id, w);
    assert row.id in b <==> InWallet(b, row.id, w);
    forall id: Id | InWallet(a, id, w) ensures Write(a, row, cols)[id] == Write(b, row, cols)[id] {
      assert InWallet(b, id, w);
    }
    forall id: Id ensures InWallet(Write(a, row, cols), id, w) <==> InWallet(Write(b, row, cols), id, w) {
      assert InWallet(a, id, w) <==> InWallet(b, id, w);
    }
  }

  lemma RemoveAgrees(a: Table, b: Table, w: nat, gone: Id)
    requires SameRows(a, b, w)
    ensures SameRows(a - {gone}, b - {gone}, w)
  {
    forall id: Id ensures InWallet(a - {gone}, id, w) <==> InWallet(b - {gone}, id, w) {
      assert InWallet(a, id, w) <==> InWallet(b, id, w);
    }
  }

  lemma RowsAgree(cfg: Config, w: nat, born: Table, a: Store, b: Store, pc: Pc, reply: Reply)
    requires Typed(a.rows, born) && Typed(b.rows, born) && PcTyped(born, w, pc) && SameRows(a.rows, b.rows, w)
    ensures SameRows(Effect(a, w, Ask(cfg, w, pc), reply).rows, Effect(b, w, Ask(cfg, w, pc), reply).rows, w)
  {
    if pc.At? {
      SavesUnsaved(cfg, w, pc.row, pc.point);
      WriteAgrees(born, a.rows, b.rows, w, pc.row, pc.point.Unsaved());
      RemoveAgrees(a.rows, b.rows, w, pc.row.id);
    }
  }

  /** A step sees and changes its own wallet's part only. */
  lemma StepAgree(cfg: Config, w: nat, born: Table, a: Store, b: Store, pc: Pc, reply: Reply)
    requires Typed(a.rows, born) && Typed(b.rows, born) && PcTyped(born, w, pc) && Agree(a, b, w)
    ensures Agree(Effect(a, w, Ask(cfg, w, pc), reply), Effect(b, w, Ask(cfg, w, pc), reply), w)
    ensures Answered(a, w, Ask(cfg, w, pc), reply) <==> Answered(b, w, Ask(cfg, w, pc), reply)
  {
    var request := Ask(cfg, w, pc);
    RowsAgree(cfg, w, born, a, b, pc, reply);
    if request.Post? {
      PostsByAppend(a.posts, Posted(w, request.message), w);
      PostsByAppend(b.posts, Posted(w, request.message), w);
    } else if request.Submit? && reply.Sent? {
      var send := Send(w, request.id, request.hash, request.boost, reply.ok, reply.accepted);
      SendsByAppend(a.sends, send, w);
      SendsByAppend(b.sends, send, w);
    }
  }

  lemma StepElsewhere(cfg: Config, w: nat, born: Table, store: Store, pc: Pc, reply: Reply, v: nat)
    requires Typed(store.rows, born) && PcTyped(born, w, pc) && v != w
    ensures Agree(store, Effect(store, w, Ask(cfg, w, pc), reply), v)
  {
    var request := Ask(cfg, w, pc);
    if pc.At? {
      SavesUnsaved(cfg, w, pc.row, pc.point);
    }
    if request.Post? {
      PostsByAppend(store.posts, Posted(w, request.message), v);
    } else if request.Submit? && reply.Sent? {
      SendsByAppend(store.sends, Send(w, request.id, request.hash, request.boost, reply.ok, reply.accepted), v);
    }
  }

  function Arrived(store: Store, row: Row): Store {
    store.(rows := store.rows[row.id := row])
  }

  /** A call on a held row commutes with the arrival of another. */
  lemma StepArrival(cfg: Config, w: nat, store: Store, pc: Pc, reply: Reply, row: Row)
    requires pc.At? ==> pc.row.id != row.id
    ensures Effect(Arrived(store, row), w, Ask(cfg, w, pc), reply) == Arrived(Effect(store, w, Ask(cfg, w, pc), reply), row)
  {
    if pc.At? {
      SavesUnsaved(cfg, w, pc.row, pc.point);
    }
  }

  lemma QueryArrival(store: Store, w: nat, reply: Reply, row: Row)
    requires row.Pending() && row.id !in store.rows && Answered(store, w, QueryActive, reply)
    ensures Answered(Arrived(store, row), w, QueryActive, reply)
  {
  }

  // ---------------------------------------------------------------- whole runs

  lemma {:induction false} RunTyped(cfg: Config, w: nat, born: Table, store: Store, replies: seq<Reply>)
    requires RunOk(cfg, w, store, replies) && Typed(store.rows, born)
    ensures
      var stage := Run(cfg, w, store, replies);
      Typed(stage.store.rows, born) && PcTyped(born, w, stage.pc)
  {
    if replies != [] {
      var before := replies[..|replies|-1];
      RunTyped(cfg, w, born, store, before);
      var stage := Run(cfg, w, store, before);
      EffectTyped(cfg, w, born, stage.store, stage.pc, replies[|replies|-1]);
    }
  }

  /** A Tick runs alike on stores that agree on its wallet. */
  lemma {:induction false} RunAgree(cfg: Config, w: nat, born: Table, a: Store, b: Store, replies: seq<Reply>)
    requires RunOk(cfg, w, a, replies)
    requires Typed(a.rows, born) && Typed(b.rows, born) && Agree(a, b, w)
    ensures RunOk(cfg, w, b, replies)
    ensures Run(cfg, w, b, replies).pc == Run(cfg, w, a, replies).pc
    ensures Agree(Run(cfg, w, a, replies).store, Run(cfg, w, b, replies).store, w)
  {
    if replies != [] {
      var before, reply := replies[..|replies|-1], replies[|replies|-1];
      RunAgree(cfg, w, born, a, b, before);
      RunTyped(cfg, w, born, a, before);
      RunTyped(cfg, w, born, b, before);
      var stage := Run(cfg, w, a, before);
      StepAgree(cfg, w, born, stage.store, Run(cfg, w, b, before).store, stage.pc, reply);
    }
  }

  lemma AgreeTrans(a: Store, b: Store, c: Store, w: nat)
    requires Agree(a, b, w) && Agree(b, c, w)
    ensures Agree(a, c, w)
  {
    forall id: Id ensures InWallet(a.rows, id, w) <==> InWallet(c.rows, id, w) {
      assert InWallet(a.rows, id, w) <==> InWallet(b.rows, id, w);
    }
  }

  lemma AgreeSym(a: Store, b: Store, w: nat)
    requires Agree(a, b, w)
    ensures Agree(b, a, w)
  {
    forall id: Id ensures InWallet(b.rows, id, w) <==> InWallet(a.rows, id, w) {
      assert InWallet(a.rows, id, w) <==> InWallet(b.rows, id, w);
    }
  }

  /** A Tick of one wallet leaves the others' parts alone. */
  lemma {:induction false} RunElsewhere(cfg: Config, w: nat, born: Table, store: Store, replies: seq<Reply>, v: nat)
    requires RunOk(cfg, w, store, replies) && Typed(store.rows, born) && v != w
    ensures Agree(store, Run(cfg, w, store, replies).store, v)
  {
    if replies != [] {
      var before, reply := replies[..|replies|-1], replies[|replies|-1];
      RunElsewhere(cfg, w, born, store, before, v);
      RunTyped(cfg, w, born, store, before);
      var stage := Run(cfg, w, store, before);
      StepElsewhere(cfg, w, born, stage.store, stage.pc, reply, v);
      AgreeTrans(store, stage.store, Run(cfg, w, store, replies).store, v);
    }
  }

  /** The Tick will not choose a row any more. */
  predicate PastPick(pc: Pc) {
    pc.At? && (pc.point.Sending() || pc.point.SubmitStore? || pc.point.SubmitPost? || pc.point.FailPost? || pc.point.FailDelete?)
  }

  lemma PastPickStays(cfg: Config, w: nat, pc: Pc, reply: Reply)
    requires PastPick(pc) || pc.Picking?
    ensures PastPick(Next(cfg, w, pc, reply)) || Next(cfg, w, pc, reply).Idle?
  {
  }

  /** Until it has chosen a row, a Tick runs as if a row that arrives meanwhile had been there from the start. */
  lemma {:induction false} RunArrival(cfg: Config, w: nat, born: Table, store: Store, replies: seq<Reply>, row: Row)
    requires RunOk(cfg, w, store, replies) && Typed(store.rows, born)
    requires row.Pending() && row.id !in born
    requires
      var pc := Run(cfg, w, store, replies).pc;
      replies != [] ==> !pc.Idle? && !PastPick(pc)
    ensures RunOk(cfg, w, Arrived(store, row), replies)
    ensures
      var stage := Run(cfg, w, store, replies);
      Run(cfg, w, Arrived(store, row), replies) == Stage(Arrived(stage.store, row), stage.pc)
  {
    if replies != [] {
      var before, reply := replies[..|replies|-1], replies[|replies|-1];
      var stage := Run(cfg, w, store, before);
      if PastPick(stage.pc) || stage.pc.Picking? {
        PastPickStays(cfg, w, stage.pc, reply);
      }
      RunArrival(cfg, w, born, store, before, row);
      RunTyped(cfg, w, born, store, before);
      StepArrival(cfg, w, stage.store, stage.pc, reply, row);
      if Ask(cfg, w, stage.pc).QueryActive? {
        QueryArrival(stage.store, w, reply, row);
      }
      QueriesAt(cfg, w, stage.pc);
    }
  }

  lemma QueriesAt(cfg: Config, w: nat, pc: Pc)
    ensures Ask(cfg, w, pc).QueryNext? <==> pc.Picking?
    ensures Ask(cfg, w, pc).QueryActive? <==> pc.Idle?
  {
  }
}
