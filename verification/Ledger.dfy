/** Conservation: every request ever inserted is pending, active, confirmed, failed or cleaned, and only one of these. */
module Ledger {
  import opened Types
  import opened System
  import opened Watcher
  import opened Rows
  import opened Traces

  function Waiting(s: World): set<Id> {
    set id | id in s.store.rows && !s.store.rows[id].Submitted()
  }

  function Active(s: World): set<Id> {
    set id | id in s.store.rows && s.store.rows[id].Submitted()
  }

  /** The last thing said about the request is that it was confirmed. */
  predicate EndedConfirmed(posts: seq<Posted>, id: Id) {
    var trace := Trace(posts, id);
    trace != [] && trace[|trace|-1].Confirmed?
  }

  predicate EndedFailed(posts: seq<Posted>, id: Id) {
    var trace := Trace(posts, id);
    trace != [] && trace[|trace|-1].Failed?
  }

  function Succeeded(s: World): set<Id> {
    set id | id in s.retired && EndedConfirmed(s.store.posts, id)
  }

  function Rejected(s: World): set<Id> {
    set id | id in s.retired && EndedFailed(s.store.posts, id)
  }

  lemma DisjointSum(a: set<Id>, b: set<Id>)
    requires a !! b
    ensures |a + b| == |a| + |b|
  {
  }

  ghost predicate Ended(posts: seq<Posted>, id: Id) {
    EndedConfirmed(posts, id) || EndedFailed(posts, id)
  }

  /** A retired request has had its last message and is in nobody's hands; so has one about to be deleted. */
  ghost predicate EndInv(retired: set<Id>, posts: seq<Posted>, pcs: seq<Pc>) {
    && (forall id: Id :: id in retired ==> Ended(posts, id))
    && (forall w :: 0 <= w < |pcs| && pcs[w].At? ==>
          && pcs[w].row.id !in retired
          && (pcs[w].point.ConfirmDelete? || pcs[w].point.FailDelete? ==> Ended(posts, pcs[w].row.id)))
  }

  /** A message about one request leaves the last words about the others. */
  lemma EndedElsewhere(cfg: Config, store: Store, w: nat, pc: Pc, reply: Reply, id: Id)
    requires !(pc.At? && pc.row.id == id)
    ensures Ended(Effect(store, w, Ask(cfg, w, pc), reply).posts, id) <==> Ended(store.posts, id)
  {
    if pc.At? && Word(cfg, w, pc.row, pc.point).Some? {
      TraceAppend(store.posts, Posted(w, Word(cfg, w, pc.row, pc.point).value), id);
    }
  }

  /** The deletion directly follows the last message. */
  lemma EndedOwn(cfg: Config, store: Store, w: nat, row: Row, point: Point, reply: Reply)
    requires point.ConfirmDelete? || point.FailDelete? ==> Ended(store.posts, row.id)
    ensures
      var posts', pc' := Effect(store, w, AskAt(cfg, w, row, point), reply).posts, NextAt(cfg, w, row, point, reply);
      && (point.ConfirmDelete? || point.FailDelete? ==> Ended(posts', row.id) && !pc'.At?)
      && (pc'.At? && (pc'.point.ConfirmDelete? || pc'.point.FailDelete?) ==> Ended(posts', row.id))
  {
    if Word(cfg, w, row, point).Some? {
      TraceAppend(store.posts, Posted(w, Word(cfg, w, row, point).value), row.id);
    }
  }

  lemma EndStep(rows: Table, rows': Table, born: Table, retired: set<Id>, posts: seq<Posted>, posts': seq<Posted>,
                pcs: seq<Pc>, w: nat, pc': Pc, reply: Reply)
    requires EndInv(retired, posts, pcs) && w < |pcs| && rows.Keys !! retired
    requires Owned(pcs, born) && Versions(rows, born)
    requires Moves(rows, rows', w, pcs[w], pc', reply)
    requires forall id: Id :: !(pcs[w].At? && pcs[w].row.id == id) ==> (Ended(posts', id) <==> Ended(posts, id))
    requires pcs[w].At? ==>
      var point := pcs[w].point;
      && (point.ConfirmDelete? || point.FailDelete? ==> Ended(posts', pcs[w].row.id) && !pc'.At?)
      && (pc'.At? && (pc'.point.ConfirmDelete? || pc'.point.FailDelete?) ==> Ended(posts', pcs[w].row.id))
    ensures EndInv(retired + (set id | id in rows && id !in rows'), posts', pcs[w := pc'])
  {
    var pcs' := pcs[w := pc'];
    forall v | 0 <= v < |pcs| && v != w && pcs[v].At?
      ensures pcs[w].At? ==> pcs[v].row.id != pcs[w].row.id
    {
    }
  }

  lemma EndWorld(cfg: Config, s: World, w: nat, reply: Reply)
    requires Inv(cfg, s) && EndInv(s.retired, s.store.posts, s.pcs) && Enabled(cfg, s, Watch(w, reply))
    ensures
      var s' := Apply(cfg, s, Watch(w, reply));
      EndInv(s'.retired, s'.store.posts, s'.pcs)
  {
    var pc := s.pcs[w];
    var store' := Effect(s.store, w, Ask(cfg, w, pc), reply);
    assert forall v :: 0 <= v < |s.pcs| ==> View(cfg, s.store.rows, s.born, v, s.pcs[v]);
    MovesWatch(cfg, s, w, reply);
    RetiredWatch(cfg, s, w, reply);
    forall id: Id | !(pc.At? && pc.row.id == id) ensures Ended(store'.posts, id) <==> Ended(s.store.posts, id) {
      EndedElsewhere(cfg, s.store, w, pc, reply, id);
    }
    if pc.At? {
      EndedOwn(cfg, s.store, w, pc.row, pc.point, reply);
    }
    EndStep(s.store.rows, store'.rows, s.born, s.retired, s.store.posts, store'.posts, s.pcs, w, Next(cfg, w, pc, reply), reply);
  }

  lemma {:induction false} EndHolds(cfg: Config, t: Terms, run: seq<Action>)
    requires Legal(cfg, t, run)
    ensures
      var s := After(cfg, run);
      EndInv(s.retired, s.store.posts, s.pcs)
  {
    if run != [] {
      var s, a := After(cfg, run[..|run|-1]), run[|run|-1];
      EndHolds(cfg, t, run[..|run|-1]);
      Reachable(cfg, t, run[..|run|-1]);
      if a.Watch? {
        EndWorld(cfg, s, a.w, a.reply);
      }
    }
  }

  lemma RetiredSplits(s: World)
    requires EndInv(s.retired, s.store.posts, s.pcs)
    ensures s.retired == Succeeded(s) + Rejected(s) && Succeeded(s) !! Rejected(s)
  {
    forall id | id in s.retired ensures EndedConfirmed(s.store.posts, id) || EndedFailed(s.store.posts, id) {
      assert Ended(s.store.posts, id);
    }
  }

  lemma CountParts(whole: set<Id>, a: set<Id>, b: set<Id>, c: set<Id>, d: set<Id>, e: set<Id>)
    requires whole == a + b + c + d + e && a !! b !! c !! d !! e
    ensures |whole| == |a| + |b| + |c| + |d| + |e|
  {
    DisjointSum(a, b);
    DisjointSum(a + b, c);
    DisjointSum(a + b + c, d);
    DisjointSum(a + b + c + d, e);
  }

  lemma AccountedParts(s: World)
    requires Accounted(s) && s.retired == Succeeded(s) + Rejected(s)
    ensures s.born.Keys == Waiting(s) + Active(s) + Succeeded(s) + Rejected(s) + s.cleaned
    ensures Waiting(s) + Active(s) == s.store.rows.Keys && Waiting(s) !! Active(s)
  {
    assert s.store.rows.Keys == Waiting(s) + Active(s);
  }

  /** Over every run, whatever fails: inserted = pending + active + confirmed + failed + cleaned. */
  lemma Conservation(cfg: Config, t: Terms, run: seq<Action>)
    requires Legal(cfg, t, run)
    ensures
      var s := After(cfg, run);
      && s.born.Keys == Waiting(s) + Active(s) + Succeeded(s) + Rejected(s) + s.cleaned
      && |s.born.Keys| == |Waiting(s)| + |Active(s)| + |Succeeded(s)| + |Rejected(s)| + |s.cleaned|
  {
    var s := After(cfg, run);
    EndHolds(cfg, t, run);
    RetiredSplits(s);
    Reachable(cfg, t, run);
    AccountedParts(s);
    CountParts(s.born.Keys, Waiting(s), Active(s), Succeeded(s), Rejected(s), s.cleaned);
  }
}
