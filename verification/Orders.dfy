/**
  What the status topic says whatever fails: a Confirmed follows a Mined, a deletion a last message,
  and a Mined follows a Submitted unless the request was submitted quietly, by an Update that took
  effect and then reported an error.
*/
module Orders {
  import opened Types
  import opened Watcher
  import opened System
  import opened Rows
  import opened Traces

  /** The requests whose submission was stored by an Update that reported an error. */
  function Quiet(cfg: Config, run: seq<Action>): set<Id> {
    if run == [] then {}
    else
      var s, a := After(cfg, run[..|run|-1]), run[|run|-1];
      Quiet(cfg, run[..|run|-1]) + if a.Watch? && a.w < |s.pcs| then Quietly(s.pcs[a.w], a.reply) else {}
  }

  function Quietly(pc: Pc, reply: Reply): set<Id> {
    if pc.At? && pc.point.SubmitStore? && reply.DoneButFailed? then {pc.row.id} else {}
  }

  /** Among the messages, one about `id` of the kind. */
  ghost predicate SaidSubmitted(posts: seq<Posted>, id: Id) {
    exists i :: 0 <= i < |posts| && posts[i].message.Submitted? && posts[i].message.id == id
  }

  ghost predicate SaidMined(posts: seq<Posted>, id: Id) {
    exists i :: 0 <= i < |posts| && posts[i].message.Mined? && posts[i].message.id == id
  }

  ghost predicate SaidLast(posts: seq<Posted>, id: Id) {
    exists i :: 0 <= i < |posts| && (posts[i].message.Confirmed? || posts[i].message.Failed?)
                && posts[i].message.id == id
  }

  /** A Mined has an earlier Submitted exactly when the request is not quiet; a Confirmed has an earlier Mined. */
  ghost predicate Ordered(posts: seq<Posted>, quiet: set<Id>) {
    forall i {:trigger posts[i]} :: 0 <= i < |posts| ==>
      var message := posts[i].message;
      && (message.Mined? ==> (SaidSubmitted(posts[..i], message.id) <==> message.id !in quiet))
      && (message.Confirmed? ==> SaidMined(posts[..i], message.id))
  }

  // ------------------------------------------------------------ one request

  /** A submitted row was announced, or else is quiet; a pending one is neither. */
  ghost predicate SaidOf(posts: seq<Posted>, row: Row, quiet: bool) {
    && (if row.Submitted() then SaidSubmitted(posts, row.id) != quiet else !SaidSubmitted(posts, row.id) && !quiet)
    && (row.minedNumber.Some? ==> SaidMined(posts, row.id))
  }

  ghost predicate SaidAt(posts: seq<Posted>, row: Row, point: Point, quiet: bool) {
    && (if point.SubmitStore? || point.SubmitPost? then !SaidSubmitted(posts, row.id) && !quiet
        else SaidOf(posts, row, quiet))
    && (point.FailDelete? || point.ConfirmDelete? ==> SaidLast(posts, row.id))
  }

  /** What is known of one request; `pc` is where the watcher of its wallet is. */
  ghost predicate TellInv(rows: Table, posts: seq<Posted>, pc: Pc, id: Id, quiet: bool) {
    && !(quiet && SaidSubmitted(posts, id))
    && (Holds(pc, id) ==> SaidAt(posts, pc.row, pc.point, quiet))
    && (id in rows && !(Holds(pc, id) && pc.point.SubmitPost?) ==> rows[id].id == id && SaidOf(posts, rows[id], quiet))
  }

  lemma SaidMore(posts: seq<Posted>, post: Posted, id: Id)
    ensures SaidSubmitted(posts, id) || (post.message.Submitted? && post.message.id == id)
      <==> SaidSubmitted(posts + [post], id)
    ensures SaidMined(posts, id) || (post.message.Mined? && post.message.id == id) <==> SaidMined(posts + [post], id)
    ensures SaidLast(posts, id) || ((post.message.Confirmed? || post.message.Failed?) && post.message.id == id)
      <==> SaidLast(posts + [post], id)
  {
    var posts' := posts + [post];
    assert posts'[|posts|] == post;
    assert forall i :: 0 <= i < |posts| ==> posts'[i] == posts[i];
  }

  /** The messages after the call. */
  function PostsAfter(cfg: Config, w: nat, row: Row, point: Point, posts: seq<Posted>): seq<Posted> {
    var word := Word(cfg, w, row, point);
    if word.Some? then posts + [Posted(w, word.value)] else posts
  }

  lemma PostsWatch(cfg: Config, store: Store, w: nat, pc: Pc, reply: Reply)
    ensures
      Effect(store, w, Ask(cfg, w, pc), reply).posts
      == if pc.At? then PostsAfter(cfg, w, pc.row, pc.point, store.posts) else store.posts
  {
  }

  /** What the next point may rely on, for the row held. */
  lemma SaidNext(cfg: Config, w: nat, posts: seq<Posted>, row: Row, point: Point, reply: Reply, quiet: bool)
    requires MemoryOk(cfg, row, point) && Consistent(cfg, row) && SaidAt(posts, row, point, quiet)
    ensures
      var posts', pc' := PostsAfter(cfg, w, row, point, posts), NextAt(cfg, w, row, point, reply);
      && (pc'.At? ==> SaidAt(posts', pc'.row, pc'.point, quiet))
      && (point.SubmitStore? || SaidOf(posts', row, quiet))
  {
    var word := Word(cfg, w, row, point);
    if word.Some? {
      assert word.value.id == row.id;
      SaidMore(posts, Posted(w, word.value), row.id);
    }
  }

  /** One call of the watcher that holds the request. */
  lemma TellOwn(rows: Table, rows': Table, posts': seq<Posted>, row: Row, point: Point, pc': Pc, reply: Reply, quiet: bool)
    requires RowStep(rows, rows', At(row, point), reply)
    requires row.id in rows ==> StoredLags(rows[row.id], row, point) && rows[row.id].id == row.id
    requires !(quiet && SaidSubmitted(posts', row.id))
    requires pc'.At? ==> SaidAt(posts', pc'.row, pc'.point, quiet) && pc'.row.id == row.id
    requires if point.SubmitStore? then row.Submitted() && row.minedNumber.None? && !SaidSubmitted(posts', row.id) && !quiet
             else SaidOf(posts', row, quiet)
    requires row.id in rows && !point.SubmitPost? ==> SaidOf(posts', rows[row.id], quiet)
    requires point.SubmitPost? && row.id in rows ==> rows[row.id] == row
    requires point.SubmitStore? ==> if reply.Done? then pc' == At(row, SubmitPost) else !pc'.At?
    ensures TellInv(rows', posts', pc', row.id, quiet || row.id in Quietly(At(row, point), reply))
  {
  }

  /** The row still stored was announced as before: the call posts about a stored row's equal in memory. */
  lemma StoredSaid(cfg: Config, w: nat, posts: seq<Posted>, stored: Row, row: Row, point: Point, quiet: bool)
    requires SaidOf(posts, stored, quiet) && stored.id == row.id && StoredLags(stored, row, point)
    requires !point.SubmitPost? && MemoryOk(cfg, row, point)
    ensures SaidOf(PostsAfter(cfg, w, row, point, posts), stored, quiet)
  {
    var word := Word(cfg, w, row, point);
    if word.Some? {
      SaidMore(posts, Posted(w, word.value), row.id);
    }
  }

  /** One call of any watcher, for a request it does not hold. */
  lemma TellOther(cfg: Config, rows: Table, rows': Table, posts: seq<Posted>, w: nat, pc: Pc, reply: Reply,
                  mine: Pc, id: Id, quiet: bool)
    requires TellInv(rows, posts, mine, id, quiet) && RowStep(rows, rows', pc, reply) && !Holds(pc, id)
    ensures TellInv(rows', if pc.At? then PostsAfter(cfg, w, pc.row, pc.point, posts) else posts, mine, id, quiet)
  {
    if pc.At? && Word(cfg, w, pc.row, pc.point).Some? {
      SaidMore(posts, Posted(w, Word(cfg, w, pc.row, pc.point).value), id);
    }
  }

  // ------------------------------------------------------------ all requests

  ghost predicate OrderInv(s: World, quiet: set<Id>) {
    && Ordered(s.store.posts, quiet)
    && (forall id: Id :: id in s.born ==>
          s.born[id].wallet < |s.pcs| && TellInv(s.store.rows, s.store.posts, s.pcs[s.born[id].wallet], id, id in quiet))
    && (forall id: Id :: id !in s.born ==> !SaidSubmitted(s.store.posts, id) && id !in quiet)
    && (forall id: Id :: id in s.retired ==> SaidLast(s.store.posts, id))
  }

  lemma PrefixSaid(posts: seq<Posted>, i: nat, id: Id)
    requires i <= |posts| && SaidSubmitted(posts[..i], id)
    ensures SaidSubmitted(posts, id)
  {
    var k :| 0 <= k < i && posts[..i][k].message.Submitted? && posts[..i][k].message.id == id;
    assert posts[k] == posts[..i][k];
  }

  lemma OrderedPost(posts: seq<Posted>, post: Posted, quiet: set<Id>)
    requires Ordered(posts, quiet)
    requires post.message.Mined? ==> (SaidSubmitted(posts, post.message.id) <==> post.message.id !in quiet)
    requires post.message.Confirmed? ==> SaidMined(posts, post.message.id)
    ensures Ordered(posts + [post], quiet)
  {
    var posts' := posts + [post];
    forall i | 0 <= i < |posts'| ensures posts'[..i] == if i < |posts| then posts[..i] else posts {
    }
  }

  /** A request turns quiet before anything is said about its mining. */
  lemma OrderedQuiet(posts: seq<Posted>, quiet: set<Id>, id: Id)
    requires Ordered(posts, quiet) && !SaidSubmitted(posts, id) && id !in quiet
    ensures Ordered(posts, quiet + {id})
  {
    forall i | 0 <= i < |posts| ensures !SaidSubmitted(posts[..i], id) {
      if SaidSubmitted(posts[..i], id) {
        PrefixSaid(posts, i, id);
      }
    }
  }

  lemma OrderedWatch(cfg: Config, posts: seq<Posted>, quiet: set<Id>, w: nat, row: Row, point: Point, reply: Reply)
    requires Ordered(posts, quiet) && SaidAt(posts, row, point, row.id in quiet)
    requires MemoryOk(cfg, row, point)
    ensures Ordered(PostsAfter(cfg, w, row, point, posts), quiet + Quietly(At(row, point), reply))
  {
    var word := Word(cfg, w, row, point);
    if word.Some? {
      OrderedPost(posts, Posted(w, word.value), quiet);
    }
    if point.SubmitStore? {
      OrderedQuiet(posts, quiet, row.id);
    }
  }

  lemma RetiredSaid(cfg: Config, posts: seq<Posted>, w: nat, row: Row, point: Point, id: Id)
    requires SaidLast(posts, id)
    ensures SaidLast(PostsAfter(cfg, w, row, point, posts), id)
  {
    var word := Word(cfg, w, row, point);
    if word.Some? {
      SaidMore(posts, Posted(w, word.value), id);
    }
  }

  lemma OrderWatch(cfg: Config, s: World, w: nat, reply: Reply, quiet: set<Id>, id: Id)
    requires Inv(cfg, s) && OrderInv(s, quiet) && Enabled(cfg, s, Watch(w, reply)) && id in s.born
    ensures
      var s' := Apply(cfg, s, Watch(w, reply));
      TellInv(s'.store.rows, s'.store.posts, s'.pcs[s.born[id].wallet], id, id in quiet + Quietly(s.pcs[w], reply))
  {
    var pc, v := s.pcs[w], s.born[id].wallet;
    var rows, posts := s.store.rows, s.store.posts;
    var store', pc' := Effect(s.store, w, Ask(cfg, w, pc), reply), Next(cfg, w, pc, reply);
    assert View(cfg, rows, s.born, w, pc) && TellInv(rows, posts, s.pcs[v], id, id in quiet);
    MovesWatch(cfg, s, w, reply);
    RetiredWatch(cfg, s, w, reply);
    PostsWatch(cfg, s.store, w, pc, reply);
    if Holds(pc, id) {
      OwnRow(cfg, rows, store'.rows, s.born, posts, w, pc.row, pc.point, reply, id in quiet);
    } else {
      TellOther(cfg, rows, store'.rows, posts, w, pc, reply, s.pcs[v], id, id in quiet);
      if v == w {
        NewlyHeld(rows, store'.rows, store'.posts, w, pc, pc', reply, id, id in quiet);
      }
    }
  }

  /** The watcher of the wallet moves on without having held the request; it may hold it now. */
  lemma NewlyHeld(rows: Table, rows': Table, posts: seq<Posted>, w: nat, pc: Pc, pc': Pc, reply: Reply, id: Id, quiet: bool)
    requires TellInv(rows', posts, pc, id, quiet) && !Holds(pc, id) && Moves(rows, rows', w, pc, pc', reply)
    ensures TellInv(rows', posts, pc', id, quiet)
  {
  }

  lemma OwnRow(cfg: Config, rows: Table, rows': Table, born: Table, posts: seq<Posted>, w: nat, row: Row, point: Point,
               reply: Reply, quiet: bool)
    requires View(cfg, rows, born, w, At(row, point)) && TellInv(rows, posts, At(row, point), row.id, quiet)
    requires RowStep(rows, rows', At(row, point), reply)
    ensures
      var pc' := NextAt(cfg, w, row, point, reply);
      TellInv(rows', PostsAfter(cfg, w, row, point, posts), pc', row.id, quiet || row.id in Quietly(At(row, point), reply))
  {
    var posts', pc' := PostsAfter(cfg, w, row, point, posts), NextAt(cfg, w, row, point, reply);
    SaidNext(cfg, w, posts, row, point, reply, quiet);
    RowInMemory(cfg, w, row, point, reply);
    UnsavedNothing(row);
    SubmitsAloud(cfg, w, row, point, reply);
    StillNot(cfg, w, posts, row, point, quiet);
    if row.id in rows && !point.SubmitPost? {
      StoredSaid(cfg, w, posts, rows[row.id], row, point, quiet);
    }
    TellOwn(rows, rows', posts', row, point, pc', reply, quiet);
  }

  lemma SubmitsAloud(cfg: Config, w: nat, row: Row, point: Point, reply: Reply)
    ensures point.SubmitStore? ==>
      var pc' := NextAt(cfg, w, row, point, reply);
      && Word(cfg, w, row, point).None? && if reply.Done? then pc' == At(row, SubmitPost) else !pc'.At?
  {
  }

  /** A quiet request is not announced later: the one message that says so is posted of a request that is not quiet. */
  lemma StillNot(cfg: Config, w: nat, posts: seq<Posted>, row: Row, point: Point, quiet: bool)
    requires !(quiet && SaidSubmitted(posts, row.id)) && SaidAt(posts, row, point, quiet)
    ensures !(quiet && SaidSubmitted(PostsAfter(cfg, w, row, point, posts), row.id))
  {
    var word := Word(cfg, w, row, point);
    if word.Some? {
      SaidMore(posts, Posted(w, word.value), row.id);
    }
  }

  lemma OrderedWorld(cfg: Config, s: World, w: nat, reply: Reply, quiet: set<Id>)
    requires Inv(cfg, s) && OrderInv(s, quiet) && Enabled(cfg, s, Watch(w, reply))
    ensures Ordered(Effect(s.store, w, Ask(cfg, w, s.pcs[w]), reply).posts, quiet + Quietly(s.pcs[w], reply))
  {
    var pc := s.pcs[w];
    assert View(cfg, s.store.rows, s.born, w, pc);
    PostsWatch(cfg, s.store, w, pc, reply);
    if pc.At? {
      assert TellInv(s.store.rows, s.store.posts, pc, pc.row.id, pc.row.id in quiet);
      OrderedWatch(cfg, s.store.posts, quiet, w, pc.row, pc.point, reply);
    }
  }

  lemma UnbornTold(cfg: Config, s: World, w: nat, reply: Reply, id: Id)
    requires Inv(cfg, s) && w < |s.pcs| && id !in s.born && !SaidSubmitted(s.store.posts, id)
    ensures !SaidSubmitted(Effect(s.store, w, Ask(cfg, w, s.pcs[w]), reply).posts, id)
    ensures !Holds(s.pcs[w], id)
  {
    var pc := s.pcs[w];
    assert View(cfg, s.store.rows, s.born, w, pc);
    PostsWatch(cfg, s.store, w, pc, reply);
    if pc.At? && Word(cfg, w, pc.row, pc.point).Some? {
      SaidMore(s.store.posts, Posted(w, Word(cfg, w, pc.row, pc.point).value), id);
    }
  }

  lemma OrderWorld(cfg: Config, s: World, w: nat, reply: Reply, quiet: set<Id>)
    requires Inv(cfg, s) && OrderInv(s, quiet) && Enabled(cfg, s, Watch(w, reply))
    ensures OrderInv(Apply(cfg, s, Watch(w, reply)), quiet + Quietly(s.pcs[w], reply))
  {
    var s', quiet' := Apply(cfg, s, Watch(w, reply)), quiet + Quietly(s.pcs[w], reply);
    RetiredWatch(cfg, s, w, reply);
    OrderedWorld(cfg, s, w, reply, quiet);
    forall id: Id | id in s.born
      ensures TellInv(s'.store.rows, s'.store.posts, s'.pcs[s.born[id].wallet], id, id in quiet')
    {
      OrderWatch(cfg, s, w, reply, quiet, id);
    }
    forall id: Id | id !in s.born ensures !SaidSubmitted(s'.store.posts, id) && id !in quiet' {
      UnbornTold(cfg, s, w, reply, id);
    }
    forall id: Id | id in s'.retired ensures SaidLast(s'.store.posts, id) {
      RetiredTold(cfg, s, w, reply, quiet, id);
    }
  }

  lemma Deletes(cfg: Config, s: World, w: nat, reply: Reply, id: Id)
    requires Inv(cfg, s) && w < |s.pcs|
    requires id in s.store.rows && id !in Effect(s.store, w, Ask(cfg, w, s.pcs[w]), reply).rows
    ensures Holds(s.pcs[w], id) && (s.pcs[w].point.ConfirmDelete? || s.pcs[w].point.FailDelete?)
    ensures id in s.born && s.born[id].wallet == w
  {
    assert View(cfg, s.store.rows, s.born, w, s.pcs[w]);
    RowsAfterWatch(cfg, s.store, s.born, w, s.pcs[w], reply);
  }

  lemma DeletedTold(cfg: Config, s: World, w: nat, reply: Reply, quiet: set<Id>, id: Id)
    requires Inv(cfg, s) && OrderInv(s, quiet) && w < |s.pcs|
    requires id in s.store.rows && id !in Effect(s.store, w, Ask(cfg, w, s.pcs[w]), reply).rows
    ensures SaidLast(s.store.posts, id)
  {
    Deletes(cfg, s, w, reply, id);
    assert TellInv(s.store.rows, s.store.posts, s.pcs[w], id, id in quiet);
  }

  lemma RetiredTold(cfg: Config, s: World, w: nat, reply: Reply, quiet: set<Id>, id: Id)
    requires Inv(cfg, s) && OrderInv(s, quiet) && Enabled(cfg, s, Watch(w, reply))
    requires id in Apply(cfg, s, Watch(w, reply)).retired
    ensures SaidLast(Apply(cfg, s, Watch(w, reply)).store.posts, id)
  {
    var pc := s.pcs[w];
    RetiredWatch(cfg, s, w, reply);
    PostsWatch(cfg, s.store, w, pc, reply);
    if id !in s.retired {
      DeletedTold(cfg, s, w, reply, quiet, id);
    }
    if pc.At? {
      RetiredSaid(cfg, s.store.posts, w, pc.row, pc.point, id);
    }
  }

  lemma OrderElse(cfg: Config, s: World, a: Action, quiet: set<Id>)
    requires Inv(cfg, s) && OrderInv(s, quiet) && Enabled(cfg, s, a) && !a.Watch?
    ensures OrderInv(Apply(cfg, s, a), quiet)
  {
    var s' := Apply(cfg, s, a);
    forall id: Id | id in s'.born
      ensures TellInv(s'.store.rows, s'.store.posts, s'.pcs[s'.born[id].wallet], id, id in quiet)
    {
      if id in s.born {
        assert TellInv(s.store.rows, s.store.posts, s.pcs[s.born[id].wallet], id, id in quiet);
      } else {
        assert View(cfg, s.store.rows, s.born, s'.born[id].wallet, s.pcs[s'.born[id].wallet]);
      }
    }
  }

  lemma {:induction false} OrderHolds(cfg: Config, t: Terms, run: seq<Action>)
    requires Legal(cfg, t, run)
    ensures OrderInv(After(cfg, run), Quiet(cfg, run))
  {
    if run != [] {
      var s, a := After(cfg, run[..|run|-1]), run[|run|-1];
      OrderHolds(cfg, t, run[..|run|-1]);
      Reachable(cfg, t, run[..|run|-1]);
      if a.Watch? {
        OrderWorld(cfg, s, a.w, a.reply, Quiet(cfg, run[..|run|-1]));
      } else {
        OrderElse(cfg, s, a, Quiet(cfg, run[..|run|-1]));
      }
    }
  }

  /**
    Whatever writes fail: a Mined comes after a Submitted exactly when the request was not submitted
    quietly; a Confirmed comes after a Mined; a row that a watcher deleted has had its last message.
  */
  lemma TracesAreOrdered(cfg: Config, t: Terms, run: seq<Action>, i: nat)
    requires Legal(cfg, t, run) && i < |After(cfg, run).store.posts|
    ensures
      var s := After(cfg, run);
      var message := s.store.posts[i].message;
      && (message.Mined? ==> (SaidSubmitted(s.store.posts[..i], message.id) <==> message.id !in Quiet(cfg, run)))
      && (message.Confirmed? ==> SaidMined(s.store.posts[..i], message.id))
      && (forall id: Id :: id in s.retired ==> SaidLast(s.store.posts, id))
  {
    OrderHolds(cfg, t, run);
  }

  lemma StepNotQuiet(cfg: Config, t: Terms, s: World, w: nat, reply: Reply)
    requires Honours(cfg, t, s, Watch(w, reply)) && t.errorsTrue && w < |s.pcs|
    ensures Quietly(s.pcs[w], reply) == {}
  {
  }

  /** No request is quiet when a write that reports an error has not taken effect. */
  lemma {:induction false} NoneQuiet(cfg: Config, t: Terms, run: seq<Action>)
    requires Legal(cfg, t, run) && t.errorsTrue
    ensures Quiet(cfg, run) == {}
  {
    if run != [] {
      var s, a := After(cfg, run[..|run|-1]), run[|run|-1];
      NoneQuiet(cfg, t, run[..|run|-1]);
      if a.Watch? && a.w < |s.pcs| {
        StepNotQuiet(cfg, t, s, a.w, a.reply);
      }
    }
  }
}
