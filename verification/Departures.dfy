/**
  First in, first out: when ids reach a wallet in increasing order, its requests leave the
  pending state in increasing order, whatever fails.
*/
module Departures {
  import opened Types
  import opened Watcher
  import opened System
  import opened Rows
  import opened Traces

  /** The requests of a wallet in the order of their first message. */
  function Left(posts: seq<Posted>, w: nat): seq<Id> {
    if posts == [] then []
    else
      var before, last := posts[..|posts|-1], posts[|posts|-1];
      if last.wallet == w && Trace(before, last.message.id) == [] then Left(before, w) + [last.message.id]
      else Left(before, w)
  }

  lemma LeftAppend(posts: seq<Posted>, post: Posted, w: nat)
    ensures
      Left(posts + [post], w)
      == if post.wallet == w && Trace(posts, post.message.id) == [] then Left(posts, w) + [post.message.id]
         else Left(posts, w)
  {
    assert (posts + [post])[..|posts|] == posts;
  }

  ghost predicate Increasing(ids: seq<Id>) {
    forall i, j :: 0 <= i < j < |ids| ==> ids[i] < ids[j]
  }

  /** Everything that left the wallet is below `id`. */
  ghost predicate Behind(posts: seq<Posted>, w: nat, id: Id) {
    forall x :: x in Left(posts, w) ==> x < id
  }

  predicate Unheard(posts: seq<Posted>, id: Id) {
    Trace(posts, id) == []
  }

  /** A row in hand or submitted that nothing was said about is the wallet's next. */
  ghost predicate NextInLine(rows: Table, posts: seq<Posted>, w: nat, row: Row) {
    Unheard(posts, row.id) ==>
      && Behind(posts, w, row.id)
      && forall id: Id :: InWallet(rows, id, w) && Unheard(posts, id) && id != row.id ==> row.id < id
  }

  ghost predicate LineInv(rows: Table, born: Table, posts: seq<Posted>, w: nat, pc: Pc) {
    && Increasing(Left(posts, w))
    && (forall x :: x in Left(posts, w) ==> x in born && born[x].wallet == w)
    && (forall id: Id :: InWallet(rows, id, w) && Unheard(posts, id) ==> Behind(posts, w, id))
    && (forall id: Id :: InWallet(rows, id, w) && rows[id].Submitted() ==> rows[id].id == id && NextInLine(rows, posts, w, rows[id]))
    && (pc.At? ==> NextInLine(rows, posts, w, pc.row))
  }

  lemma LeftGrows(born: Table, posts: seq<Posted>, w: nat, message: Message)
    requires Increasing(Left(posts, w)) && forall x :: x in Left(posts, w) ==> x in born && born[x].wallet == w
    requires Unheard(posts, message.id) ==> Behind(posts, w, message.id)
    requires message.id in born && born[message.id].wallet == w
    ensures
      var ids := Left(posts + [Posted(w, message)], w);
      && Increasing(ids) && (forall x :: x in ids ==> x in born && born[x].wallet == w)
      && (forall x :: x in ids ==> x in Left(posts, w) || (x == message.id && Unheard(posts, message.id)))
  {
    LeftAppend(posts, Posted(w, message), w);
    assert forall i :: 0 <= i < |Left(posts, w)| ==> Left(posts, w)[i] in Left(posts, w);
  }

  lemma LinePost(rows: Table, born: Table, posts: seq<Posted>, w: nat, row: Row, point: Point, message: Message)
    requires LineInv(rows, born, posts, w, At(row, point)) && message.id == row.id
    requires row.id in born && born[row.id].wallet == w
    ensures LineInv(rows, born, posts + [Posted(w, message)], w, At(row, point))
  {
    var posts' := posts + [Posted(w, message)];
    LeftGrows(born, posts, w, message);
    TraceAppend(posts, Posted(w, message), row.id);
    forall id: Id | InWallet(rows, id, w) && Unheard(posts', id) ensures Behind(posts', w, id) {
      TraceAppend(posts, Posted(w, message), id);
      assert Unheard(posts, id) && id != row.id;
    }
  }

  /** Messages of one wallet leave the others' lines alone. */
  lemma LineOther(rows: Table, born: Table, posts: seq<Posted>, w: nat, message: Message, v: nat, pc: Pc)
    requires LineInv(rows, born, posts, v, pc) && v != w
    requires message.id in born && born[message.id].wallet == w
    requires pc.At? ==> pc.row.id in born && born[pc.row.id].wallet == v
    requires Versions(rows, born)
    ensures LineInv(rows, born, posts + [Posted(w, message)], v, pc)
  {
    LeftAppend(posts, Posted(w, message), v);
    forall id: Id {
      TraceAppend(posts, Posted(w, message), id);
    }
  }

  lemma LineMoves(rows: Table, rows': Table, born: Table, posts: seq<Posted>, w: nat, pc: Pc, pc': Pc, reply: Reply)
    requires LineInv(rows, born, posts, w, pc) && Moves(rows, rows', w, pc, pc', reply)
    requires pc.At? && pc.row.id in rows ==> rows[pc.row.id].wallet == w
    requires pc.Picking? && reply.Found? ==> forall id: Id :: InWallet(rows, id, w) ==> reply.row.id <= id
    ensures LineInv(rows', born, posts, w, pc')
  {
  }

  lemma LineStays(rows: Table, rows': Table, born: Table, posts: seq<Posted>, v: nat, other: Pc, pc: Pc, reply: Reply)
    requires LineInv(rows, born, posts, v, other) && RowStep(rows, rows', pc, reply)
    requires pc.At? ==> pc.row.wallet != v
    ensures LineInv(rows', born, posts, v, other)
  {
  }

  ghost predicate LinesOk(s: World) {
    forall w :: 0 <= w < |s.pcs| ==> LineInv(s.store.rows, s.born, s.store.posts, w, s.pcs[w])
  }

  /** The wallet's own step: its message, if any, then its effect on the table and on what is held. */
  lemma LineOwn(rows: Table, rows': Table, born: Table, posts: seq<Posted>, w: nat, pc: Pc, pc': Pc, reply: Reply,
                word: Option<Message>)
    requires LineInv(rows, born, posts, w, pc) && Moves(rows, rows', w, pc, pc', reply)
    requires pc.At? ==> InWallet(born, pc.row.id, w) && (pc.row.id in rows ==> rows[pc.row.id].wallet == w)
    requires word.Some? ==> pc.At? && word.value.id == pc.row.id
    requires pc.Picking? && reply.Found? ==> forall id: Id :: InWallet(rows, id, w) ==> reply.row.id <= id
    ensures LineInv(rows', born, if word.Some? then posts + [Posted(w, word.value)] else posts, w, pc')
  {
    if word.Some? {
      LinePost(rows, born, posts, w, pc.row, pc.point, word.value);
      LineMoves(rows, rows', born, posts + [Posted(w, word.value)], w, pc, pc', reply);
    } else {
      LineMoves(rows, rows', born, posts, w, pc, pc', reply);
    }
  }

  /** A step of wallet w, in the eyes of wallet v. */
  lemma LineElse(rows: Table, rows': Table, born: Table, posts: seq<Posted>, w: nat, pc: Pc, reply: Reply,
                 word: Option<Message>, v: nat, other: Pc)
    requires LineInv(rows, born, posts, v, other) && RowStep(rows, rows', pc, reply) && v != w && Versions(rows, born)
    requires pc.At? ==> pc.row.wallet == w && InWallet(born, pc.row.id, w)
    requires word.Some? ==> pc.At? && word.value.id == pc.row.id
    requires other.At? ==> InWallet(born, other.row.id, v)
    ensures LineInv(rows', born, if word.Some? then posts + [Posted(w, word.value)] else posts, v, other)
  {
    if word.Some? {
      LineOther(rows, born, posts, w, word.value, v, other);
      LineStays(rows, rows', born, posts + [Posted(w, word.value)], v, other, pc, reply);
    } else {
      LineStays(rows, rows', born, posts, v, other, pc, reply);
    }
  }

  lemma LineWatchAt(cfg: Config, s: World, w: nat, reply: Reply, v: nat)
    requires Inv(cfg, s) && LinesOk(s) && Enabled(cfg, s, Watch(w, reply)) && v < |s.pcs|
    ensures
      var store', pc' := Effect(s.store, w, Ask(cfg, w, s.pcs[w]), reply), Next(cfg, w, s.pcs[w], reply);
      LineInv(store'.rows, s.born, store'.posts, v, if v == w then pc' else s.pcs[v])
  {
    var pc, word := s.pcs[w], WordAt(cfg, w, s.pcs[w]);
    var store', pc' := Effect(s.store, w, Ask(cfg, w, pc), reply), Next(cfg, w, pc, reply);
    assert View(cfg, s.store.rows, s.born, w, pc) && View(cfg, s.store.rows, s.born, v, s.pcs[v]);
    MovesWatch(cfg, s, w, reply);
    PostsAfterWatch(cfg, s.store, w, pc, reply, 0);
    if v == w {
      LineOwn(s.store.rows, store'.rows, s.born, s.store.posts, w, pc, pc', reply, word);
    } else {
      LineElse(s.store.rows, store'.rows, s.born, s.store.posts, w, pc, reply, word, v, s.pcs[v]);
    }
  }

  lemma LineWatch(cfg: Config, s: World, w: nat, reply: Reply)
    requires Inv(cfg, s) && LinesOk(s)
    requires Enabled(cfg, s, Watch(w, reply))
    ensures LinesOk(Apply(cfg, s, Watch(w, reply)))
  {
    RetiredWatch(cfg, s, w, reply);
    var s' := Apply(cfg, s, Watch(w, reply));
    forall v | 0 <= v < |s.pcs| ensures LineInv(s'.store.rows, s'.born, s'.store.posts, v, s'.pcs[v]) {
      LineWatchAt(cfg, s, w, reply, v);
    }
  }

  lemma LineArrival(rows: Table, born: Table, posts: seq<Posted>, w: nat, pc: Pc, row: Row)
    requires LineInv(rows, born, posts, w, pc) && row.Pending() && row.id !in born
    requires row.wallet == w ==> forall id: Id :: InWallet(born, id, w) ==> id < row.id
    requires forall id: Id :: InWallet(rows, id, w) ==> InWallet(born, id, w)
    requires pc.At? ==> InWallet(born, pc.row.id, w)
    ensures LineInv(rows[row.id := row], born[row.id := row], posts, w, pc)
  {
    var rows' := rows[row.id := row];
    assert forall x :: x in Left(posts, w) ==> InWallet(born, x, w);
    forall id: Id | InWallet(rows', id, w) ensures id == row.id || (InWallet(rows, id, w) && rows'[id] == rows[id]) {
    }
  }

  lemma LineInsert(cfg: Config, t: Terms, s: World, row: Row)
    requires Inv(cfg, s) && LinesOk(s) && t.idsAscend
    requires Enabled(cfg, s, Insert(row)) && Honours(cfg, t, s, Insert(row)) && row.id !in s.store.rows
    ensures LinesOk(Apply(cfg, s, Insert(row)))
  {
    forall w | 0 <= w < |s.pcs|
      ensures LineInv(s.store.rows[row.id := row], s.born[row.id := row], s.store.posts, w, s.pcs[w])
    {
      assert View(cfg, s.store.rows, s.born, w, s.pcs[w]);
      assert LineInv(s.store.rows, s.born, s.store.posts, w, s.pcs[w]);
      LineArrival(s.store.rows, s.born, s.store.posts, w, s.pcs[w], row);
    }
  }

  lemma LineClean(cfg: Config, s: World, id: Id)
    requires LinesOk(s)
    ensures LinesOk(Apply(cfg, s, Clean(id)))
  {
    forall w | 0 <= w < |s.pcs| ensures LineInv(s.store.rows - {id}, s.born, s.store.posts, w, s.pcs[w]) {
      assert LineInv(s.store.rows, s.born, s.store.posts, w, s.pcs[w]);
    }
  }

  lemma {:induction false} LinesHold(cfg: Config, t: Terms, run: seq<Action>)
    requires Legal(cfg, t, run) && t.idsAscend
    ensures LinesOk(After(cfg, run))
  {
    if run != [] {
      var s, a := After(cfg, run[..|run|-1]), run[|run|-1];
      LinesHold(cfg, t, run[..|run|-1]);
      Reachable(cfg, t, run[..|run|-1]);
      match a
      case Watch(w, reply) =>
        LineWatch(cfg, s, w, reply);
      case Insert(row) => if row.id !in s.store.rows { LineInsert(cfg, t, s, row); }
      case Clean(id) => LineClean(cfg, s, id);
      case Advance(_) =>
    }
  }

  /** Over every run in which ids reach the wallet in increasing order, its requests leave in that order. */
  lemma FirstInFirstOut(cfg: Config, t: Terms, run: seq<Action>, w: nat)
    requires Legal(cfg, t, run) && t.idsAscend && w < |cfg.senders|
    ensures Increasing(Left(After(cfg, run).store.posts, w))
  {
    LinesHold(cfg, t, run);
    Reachable(cfg, t, run);
    var s := After(cfg, run);
    assert LineInv(s.store.rows, s.born, s.store.posts, w, s.pcs[w]);
  }
}
