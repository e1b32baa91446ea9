/**
  What the status topic says about one request. When store writes succeed its messages follow
  the grammar  Failed | Submitted Mined* Failed | Submitted Mined+ Confirmed.
*/
module Traces {
  import opened Types
  import opened Watcher
  import opened System
  import opened Rows

  /** The messages about one request, in order. */
  function Trace(posts: seq<Posted>, id: Id): seq<Message> {
    if posts == [] then []
    else
      var before, last := Trace(posts[..|posts|-1], id), posts[|posts|-1].message;
      if last.id == id then before + [last] else before
  }

  /** A prefix of a word of the grammar, position by position. */
  ghost predicate Lawful(trace: seq<Message>) {
    || trace == []
    || (|trace| == 1 && trace[0].Failed?)
    || (trace[0].Submitted?
        && (forall i :: 0 < i < |trace| - 1 ==> trace[i].Mined?)
        && (|trace| > 1 ==>
              var last := trace[|trace|-1];
              last.Mined? || last.Failed? || (last.Confirmed? && |trace| > 2)))
  }

  datatype Phase = Unheard | Told(mined: bool) | Over | Broken

  function Hear(phase: Phase, message: Message): Phase {
    match message
    case Submitted(_, _) => if phase.Unheard? then Told(false) else Broken
    case Mined(_, _) => if phase.Told? then Told(true) else Broken
    case Confirmed(_, _, _, _) => if phase == Told(true) then Over else Broken
    case Failed(_, _) => if phase.Unheard? || phase.Told? then Over else Broken
  }

  function PhaseOf(trace: seq<Message>): Phase {
    if trace == [] then Unheard else Hear(PhaseOf(trace[..|trace|-1]), trace[|trace|-1])
  }

  /** The automaton accepts exactly the lawful traces. */
  lemma {:induction false} PhaseIsGrammar(trace: seq<Message>)
    ensures Lawful(trace) <==> !PhaseOf(trace).Broken?
    ensures PhaseOf(trace).Unheard? <==> trace == []
    ensures PhaseOf(trace) == Told(false) <==> |trace| == 1 && trace[0].Submitted?
    ensures PhaseOf(trace) == Told(true) <==> |trace| > 1 && Lawful(trace) && trace[|trace|-1].Mined?
  {
    if trace != [] {
      var before := trace[..|trace|-1];
      PhaseIsGrammar(before);
      assert forall i :: 0 <= i < |before| ==> before[i] == trace[i];
      if Lawful(trace) && |trace| > 1 {
        assert trace[0].Submitted?;
        assert Lawful(before);
      }
    }
  }

  lemma TraceAppend(posts: seq<Posted>, post: Posted, id: Id)
    ensures
      Trace(posts + [post], id)
      == if post.message.id == id then Trace(posts, id) + [post.message] else Trace(posts, id)
  {
    assert (posts + [post])[..|posts|] == posts;
  }

  function Heard(posts: seq<Posted>, id: Id): Phase {
    PhaseOf(Trace(posts, id))
  }

  lemma HeardAppend(posts: seq<Posted>, post: Posted, id: Id)
    ensures
      Heard(posts + [post], id)
      == if post.message.id == id then Hear(Heard(posts, id), post.message) else Heard(posts, id)
  {
    TraceAppend(posts, post, id);
    var trace := Trace(posts, id);
    assert (trace + [post.message])[..|trace|] == trace;
  }

  /** What has been said about a stored row that no watcher is working on. */
  predicate StoredPhase(row: Row, phase: Phase) {
    if row.Submitted() then phase.Told? && (row.minedNumber.Some? ==> phase.mined) else phase.Unheard?
  }

  /** What has been said about the row a watcher works on. */
  predicate HeldPhase(row: Row, point: Point, phase: Phase) {
    if point.FailDelete? || point.ConfirmDelete? then phase.Over?
    else if point.SubmitStore? || point.SubmitPost? then phase.Unheard?
    else StoredPhase(row, phase)
  }

  /** The message the call posts, if it posts one. */
  function Word(cfg: Config, w: nat, row: Row, point: Point): Option<Message> {
    var request := AskAt(cfg, w, row, point);
    if request.Post? then Some(request.message) else None
  }

  predicate HeldBy(rows: Table, pcs: seq<Pc>, id: Id) {
    id in rows
    && var w := rows[id].wallet;
       w < |pcs| && pcs[w].At? && pcs[w].row.id == id
  }

  ghost predicate TraceInv(rows: Table, born: Table, posts: seq<Posted>, pcs: seq<Pc>) {
    && (forall id: Id :: !Heard(posts, id).Broken?)
    && (forall id: Id :: id !in born ==> Heard(posts, id).Unheard?)
    && (forall id: Id :: id in rows && !HeldBy(rows, pcs, id) ==> StoredPhase(rows[id], Heard(posts, id)))
    && (forall w :: 0 <= w < |pcs| && pcs[w].At? ==>
          HeldPhase(pcs[w].row, pcs[w].point, Heard(posts, pcs[w].row.id)))
  }

  /** A watcher posts only about the row it holds. */
  lemma PostsAfterWatch(cfg: Config, store: Store, w: nat, pc: Pc, reply: Reply, id: Id)
    ensures
      var posts' := Effect(store, w, Ask(cfg, w, pc), reply).posts;
      if pc.At? && Word(cfg, w, pc.row, pc.point).Some? then
        var word := Word(cfg, w, pc.row, pc.point).value;
        && word.id == pc.row.id && posts' == store.posts + [Posted(w, word)]
        && Heard(posts', id) == if id == pc.row.id then Hear(Heard(store.posts, id), word) else Heard(store.posts, id)
      else posts' == store.posts
  {
    if pc.At? && Word(cfg, w, pc.row, pc.point).Some? {
      HeardAppend(store.posts, Posted(w, Word(cfg, w, pc.row, pc.point).value), id);
    }
  }

  /** `id` is heard about in `posts'` as before, but for the step's word if it is the row held. */
  ghost predicate Said(posts: seq<Posted>, posts': seq<Posted>, pc: Pc, word: Option<Message>) {
    forall id: Id ::
      Heard(posts', id) == if word.Some? && pc.At? && id == pc.row.id then Hear(Heard(posts, id), word.value)
                           else Heard(posts, id)
  }

  /** The part of a step's effect on phases that is local to the row held. */
  ghost predicate Speaks(pc: Pc, pc': Pc, reply: Reply, phase': Phase) {
    pc.At? ==>
      && !phase'.Broken?
      && (pc.point.Unsaved() != {} || pc.point.ConfirmDelete? || pc.point.FailDelete? ==> reply.Done?)
      && (if pc'.At? then HeldPhase(pc'.row, pc'.point, phase')
          else pc.point.FailDelete? || pc.point.ConfirmDelete? || StoredPhase(pc.row, phase'))
  }

  /** The call is a message: its turn has come. */
  lemma PhaseSpoken(cfg: Config, w: nat, row: Row, point: Point, reply: Reply, phase: Phase)
    requires MemoryOk(cfg, row, point) && Consistent(cfg, row) && HeldPhase(row, point, phase)
    requires point.MinedPost? || point.ConfirmPost? || point.FailPost? || point.SubmitPost?
    ensures
      var word := Word(cfg, w, row, point);
      word.Some? && Speaks(At(row, point), NextAt(cfg, w, row, point, reply), reply, Hear(phase, word.value))
  {
  }

  lemma PhaseSilent(cfg: Config, w: nat, row: Row, point: Point, reply: Reply, phase: Phase)
    requires MemoryOk(cfg, row, point) && Consistent(cfg, row) && HeldPhase(row, point, phase)
    requires !point.MinedPost? && !point.ConfirmPost? && !point.FailPost? && !point.SubmitPost?
    requires point.Unsaved() != {} || point.ConfirmDelete? || point.FailDelete? ==> reply.Done?
    ensures Word(cfg, w, row, point).None? && Speaks(At(row, point), NextAt(cfg, w, row, point, reply), reply, phase)
  {
  }

  lemma PhaseAfterWatch(cfg: Config, w: nat, row: Row, point: Point, reply: Reply, phase: Phase)
    requires MemoryOk(cfg, row, point) && Consistent(cfg, row) && HeldPhase(row, point, phase)
    requires point.Unsaved() != {} || point.ConfirmDelete? || point.FailDelete? ==> reply.Done?
    ensures
      var word := Word(cfg, w, row, point);
      Speaks(At(row, point), NextAt(cfg, w, row, point, reply), reply,
             if word.Some? then Hear(phase, word.value) else phase)
  {
    if point.MinedPost? || point.ConfirmPost? || point.FailPost? || point.SubmitPost? {
      PhaseSpoken(cfg, w, row, point, reply, phase);
    } else {
      PhaseSilent(cfg, w, row, point, reply, phase);
    }
  }

  /** What a step must satisfy for the traces to stay lawful. */
  ghost predicate TraceMove(rows: Table, rows': Table, born: Table, posts: seq<Posted>, posts': seq<Posted>,
                            pcs: seq<Pc>, w: nat, pc': Pc, reply: Reply, word: Option<Message>) {
    && TraceInv(rows, born, posts, pcs) && Versions(rows, born) && Owned(pcs, born) && w < |pcs|
    && Moves(rows, rows', w, pcs[w], pc', reply) && Said(posts, posts', pcs[w], word)
    && (pcs[w].At? ==> Speaks(pcs[w], pc', reply, Heard(posts', pcs[w].row.id)))
  }

  lemma TraceStored(rows: Table, rows': Table, born: Table, posts: seq<Posted>, posts': seq<Posted>,
                    pcs: seq<Pc>, w: nat, pc': Pc, reply: Reply, word: Option<Message>, id: Id)
    requires TraceMove(rows, rows', born, posts, posts', pcs, w, pc', reply, word)
    requires id in rows' && !HeldBy(rows', pcs[w := pc'], id)
    ensures StoredPhase(rows'[id], Heard(posts', id))
  {
    if !(pcs[w].At? && id == pcs[w].row.id) {
      assert rows'[id] == rows[id];
      assert !HeldBy(rows, pcs, id);
    }
  }

  lemma TraceHeld(rows: Table, rows': Table, born: Table, posts: seq<Posted>, posts': seq<Posted>,
                  pcs: seq<Pc>, w: nat, pc': Pc, reply: Reply, word: Option<Message>, v: nat)
    requires TraceMove(rows, rows', born, posts, posts', pcs, w, pc', reply, word)
    requires v < |pcs| && pcs[w := pc'][v].At?
    ensures
      var pc := pcs[w := pc'][v];
      HeldPhase(pc.row, pc.point, Heard(posts', pc.row.id))
  {
    if v != w && pcs[w].At? {
      assert pcs[v].row.id != pcs[w].row.id;
    } else if v == w && !pcs[w].At? {
      assert !HeldBy(rows, pcs, pc'.row.id);
    }
  }

  lemma TraceStep(rows: Table, rows': Table, born: Table, posts: seq<Posted>, posts': seq<Posted>,
                  pcs: seq<Pc>, w: nat, pc': Pc, reply: Reply, word: Option<Message>)
    requires TraceMove(rows, rows', born, posts, posts', pcs, w, pc', reply, word)
    ensures TraceInv(rows', born, posts', pcs[w := pc'])
  {
    var pcs' := pcs[w := pc'];
    forall id: Id | id in rows' && !HeldBy(rows', pcs', id) ensures StoredPhase(rows'[id], Heard(posts', id)) {
      TraceStored(rows, rows', born, posts, posts', pcs, w, pc', reply, word, id);
    }
    forall v | 0 <= v < |pcs| && pcs'[v].At?
      ensures HeldPhase(pcs'[v].row, pcs'[v].point, Heard(posts', pcs'[v].row.id))
    {
      TraceHeld(rows, rows', born, posts, posts', pcs, w, pc', reply, word, v);
    }
    forall id: Id ensures !Heard(posts', id).Broken? && (id !in born ==> Heard(posts', id).Unheard?) {
      assert Heard(posts', id) == Heard(posts, id) || (pcs[w].At? && id == pcs[w].row.id);
    }
  }

  function WordAt(cfg: Config, w: nat, pc: Pc): Option<Message> {
    if pc.At? then Word(cfg, w, pc.row, pc.point) else None
  }

  lemma SaidWatch(cfg: Config, store: Store, w: nat, pc: Pc, reply: Reply)
    ensures Said(store.posts, Effect(store, w, Ask(cfg, w, pc), reply).posts, pc, WordAt(cfg, w, pc))
  {
    forall id: Id {
      PostsAfterWatch(cfg, store, w, pc, reply, id);
    }
  }

  lemma SpeaksWatch(cfg: Config, store: Store, w: nat, row: Row, point: Point, reply: Reply)
    requires MemoryOk(cfg, row, point) && Consistent(cfg, row) && HeldPhase(row, point, Heard(store.posts, row.id))
    requires point.Unsaved() != {} || point.ConfirmDelete? || point.FailDelete? ==> reply.Done?
    ensures
      var store' := Effect(store, w, AskAt(cfg, w, row, point), reply);
      Speaks(At(row, point), NextAt(cfg, w, row, point, reply), reply, Heard(store'.posts, row.id))
  {
    PhaseAfterWatch(cfg, w, row, point, reply, Heard(store.posts, row.id));
    PostsAfterWatch(cfg, store, w, At(row, point), reply, row.id);
  }

  lemma TraceWatch(cfg: Config, t: Terms, s: World, w: nat, reply: Reply)
    requires Inv(cfg, s) && TraceInv(s.store.rows, s.born, s.store.posts, s.pcs) && t.writesSucceed
    requires Enabled(cfg, s, Watch(w, reply)) && Honours(cfg, t, s, Watch(w, reply))
    ensures
      var store' := Effect(s.store, w, Ask(cfg, w, s.pcs[w]), reply);
      TraceInv(store'.rows, s.born, store'.posts, s.pcs[w := Next(cfg, w, s.pcs[w], reply)])
  {
    var pc := s.pcs[w];
    var pc', store' := Next(cfg, w, pc, reply), Effect(s.store, w, Ask(cfg, w, pc), reply);
    assert forall v :: 0 <= v < |s.pcs| ==> View(cfg, s.store.rows, s.born, v, s.pcs[v]);
    MovesWatch(cfg, s, w, reply);
    SaidWatch(cfg, s.store, w, pc, reply);
    if pc.At? {
      SavesUnsaved(cfg, w, pc.row, pc.point);
      SpeaksWatch(cfg, s.store, w, pc.row, pc.point, reply);
    }
    TraceStep(s.store.rows, store'.rows, s.born, s.store.posts, store'.posts, s.pcs, w, pc', reply,
              WordAt(cfg, w, pc));
  }

  lemma TraceInsert(s: World, row: Row)
    requires TraceInv(s.store.rows, s.born, s.store.posts, s.pcs) && Owned(s.pcs, s.born)
    requires row.Pending() && row.id !in s.born && Versions(s.store.rows, s.born)
    ensures TraceInv(s.store.rows[row.id := row], s.born[row.id := row], s.store.posts, s.pcs)
  {
    var rows' := s.store.rows[row.id := row];
    forall id: Id | id in rows' && !HeldBy(rows', s.pcs, id) ensures StoredPhase(rows'[id], Heard(s.store.posts, id)) {
      assert id in s.store.rows ==> !HeldBy(s.store.rows, s.pcs, id);
    }
  }

  lemma TraceClean(s: World, id: Id)
    requires TraceInv(s.store.rows, s.born, s.store.posts, s.pcs)
    ensures TraceInv(s.store.rows - {id}, s.born, s.store.posts, s.pcs)
  {
    var rows' := s.store.rows - {id};
    forall other: Id | other in rows' && !HeldBy(rows', s.pcs, other)
      ensures StoredPhase(rows'[other], Heard(s.store.posts, other))
    {
      assert !HeldBy(s.store.rows, s.pcs, other);
    }
  }

  lemma {:induction false} TracesHold(cfg: Config, t: Terms, run: seq<Action>)
    requires Legal(cfg, t, run) && t.writesSucceed
    ensures
      var s := After(cfg, run);
      TraceInv(s.store.rows, s.born, s.store.posts, s.pcs)
  {
    if run != [] {
      var before, a := After(cfg, run[..|run|-1]), run[|run|-1];
      TracesHold(cfg, t, run[..|run|-1]);
      Reachable(cfg, t, run[..|run|-1]);
      assert forall v :: 0 <= v < |before.pcs| ==> View(cfg, before.store.rows, before.born, v, before.pcs[v]);
      match a
      case Watch(w, reply) => TraceWatch(cfg, t, before, w, reply);
      case Insert(row) => if row.id !in before.store.rows { TraceInsert(before, row); }
      case Clean(id) => TraceClean(before, id);
      case Advance(_) =>
    }
  }

  /** Over every run in which store writes succeed, every request's messages follow the grammar. */
  lemma TracesAreLawful(cfg: Config, t: Terms, run: seq<Action>, id: Id)
    requires Legal(cfg, t, run) && t.writesSucceed
    ensures Lawful(Trace(After(cfg, run).store.posts, id))
  {
    TracesHold(cfg, t, run);
    assert !Heard(After(cfg, run).store.posts, id).Broken?;
    PhaseIsGrammar(Trace(After(cfg, run).store.posts, id));
  }
}
