/**
  The query caches of Insert, Update and Upsert. A call looks its key up, builds a plan if there is
  none, executes it and only then stores it; other calls run between any two of these steps.
*/
module QueryCache {
  import opened Types
  import opened CacheKeys

  /** A query text with the struct fields its parameters and its returned columns are bound to. */
  datatype Plan = Plan(query: string, bound: seq<nat>, scanned: seq<nat>)

  // ---------------------------------------------------------------- any number of callers

  datatype Caller<Call> =
    | Away
    | Looked(call: Call, cached: Option<Plan>)
    | Ready(call: Call, plan: Plan, hit: bool)
    | Storing(call: Call, plan: Plan)

  datatype Use<Call> = Use(call: Call, plan: Plan)

  /** The shared map, where each caller is, and every plan ever executed with the call it was for. */
  datatype Shared<Call> = Shared(entries: map<string, Plan>, callers: seq<Caller<Call>>, uses: seq<Use<Call>>)

  datatype Move<Call> =
    | Lookup(i: nat, call: Call)
    | Prepare(i: nat)
    | Execute(i: nat, ok: bool)
    | Keep(i: nat)

  function Look(entries: map<string, Plan>, key: string): Option<Plan> {
    if key in entries then Some(entries[key]) else None
  }

  function Step<Call>(key: Call -> string, build: Call -> Option<Plan>, s: Shared<Call>, m: Move<Call>): Shared<Call> {
    if m.i >= |s.callers| then s
    else
      var c := s.callers[m.i];
      match m
      case Lookup(i, call) =>
        if c.Away? then s.(callers := s.callers[i := Looked(call, Look(s.entries, key(call)))]) else s
      case Prepare(i) =>
        if !c.Looked? then s
        else if c.cached.Some? then s.(callers := s.callers[i := Ready(c.call, c.cached.value, true)])
        else if build(c.call).Some? then s.(callers := s.callers[i := Ready(c.call, build(c.call).value, false)])
        else s.(callers := s.callers[i := Away])
      case Execute(i, ok) =>
        if c.Ready? then
          s.(callers := s.callers[i := if ok && !c.hit then Storing(c.call, c.plan) else Away],
             uses := s.uses + [Use(c.call, c.plan)])
        else s
      case Keep(i) =>
        if c.Storing? then s.(entries := s.entries[key(c.call) := c.plan], callers := s.callers[i := Away]) else s
  }

  function Steps<Call>(key: Call -> string, build: Call -> Option<Plan>, n: nat, moves: seq<Move<Call>>): (s: Shared<Call>)
    ensures |s.callers| == n
  {
    if moves == [] then Shared(map[], seq(n, _ => Away), [])
    else Step(key, build, Steps(key, build, n, moves[..|moves|-1]), moves[|moves|-1])
  }

  /** Every call executed exactly the plan it would have built itself. */
  ghost predicate Transparent<Call>(build: Call -> Option<Plan>, uses: seq<Use<Call>>) {
    forall i :: 0 <= i < |uses| ==> build(uses[i].call) == Some(uses[i].plan)
  }

  /** Calls that share a key build the same plan, if the first of them builds one at all. */
  ghost predicate KeyTells<Call(!new)>(key: Call -> string, build: Call -> Option<Plan>) {
    forall a: Call, b: Call :: key(a) == key(b) && build(a).Some? ==> build(b) == build(a)
  }

  ghost predicate Sound<Call(!new)>(key: Call -> string, build: Call -> Option<Plan>, entries: map<string, Plan>) {
    forall call: Call :: key(call) in entries ==> build(call) == Some(entries[key(call)])
  }

  ghost predicate CallerOk<Call>(build: Call -> Option<Plan>, c: Caller<Call>) {
    match c
    case Away => true
    case Looked(call, cached) => cached.Some? ==> build(call) == cached
    case Ready(call, plan, _) => build(call) == Some(plan)
    case Storing(call, plan) => build(call) == Some(plan)
  }

  lemma {:induction false} StepsSound<Call(!new)>(key: Call -> string, build: Call -> Option<Plan>, n: nat, moves: seq<Move<Call>>)
    requires KeyTells(key, build)
    ensures
      var s := Steps(key, build, n, moves);
      && Sound(key, build, s.entries) && Transparent(build, s.uses)
      && forall i :: 0 <= i < n ==> CallerOk(build, s.callers[i])
  {
    if moves != [] {
      var s, m := Steps(key, build, n, moves[..|moves|-1]), moves[|moves|-1];
      StepsSound(key, build, n, moves[..|moves|-1]);
      if m.i < n && m.Keep? && s.callers[m.i].Storing? {
        StoreSound(key, build, s.entries, s.callers[m.i].call, s.callers[m.i].plan);
      }
    }
  }

  lemma StoreSound<Call(!new)>(key: Call -> string, build: Call -> Option<Plan>, entries: map<string, Plan>, call: Call, plan: Plan)
    requires KeyTells(key, build) && Sound(key, build, entries) && build(call) == Some(plan)
    ensures Sound(key, build, entries[key(call) := plan])
  {
    forall other: Call | key(other) in entries[key(call) := plan]
      ensures build(other) == Some(entries[key(call) := plan][key(other)])
    {
      if key(other) == key(call) {
        assert build(other) == build(call);
      }
    }
  }

  /** A first call stores its plan; a second one with the same key executes it. */
  function Clash<Call>(a: Call, b: Call): seq<Move<Call>> {
    [Lookup(0, a), Prepare(0), Execute(0, true), Keep(0), Lookup(0, b), Prepare(0), Execute(0, true)]
  }

  lemma ClashUses<Call(!new)>(key: Call -> string, build: Call -> Option<Plan>, a: Call, b: Call)
    requires key(a) == key(b) && build(a).Some?
    ensures Steps(key, build, 1, Clash(a, b)).uses == [Use(a, build(a).value), Use(b, build(a).value)]
  {
    var moves := Clash(a, b);
    var plan := build(a).value;
    assert Steps(key, build, 1, moves[..0]) == Shared(map[], [Away], []);
    assert moves[..1][..0] == moves[..0];
    assert Steps(key, build, 1, moves[..1]) == Shared(map[], [Looked(a, None)], []);
    assert moves[..2][..1] == moves[..1];
    assert Steps(key, build, 1, moves[..2]) == Shared(map[], [Ready(a, plan, false)], []);
    assert moves[..3][..2] == moves[..2];
    assert Steps(key, build, 1, moves[..3]) == Shared(map[], [Storing(a, plan)], [Use(a, plan)]);
    assert moves[..4][..3] == moves[..3];
    var kept := map[key(a) := plan];
    assert Steps(key, build, 1, moves[..4]) == Shared(kept, [Away], [Use(a, plan)]);
    assert moves[..5][..4] == moves[..4];
    assert Steps(key, build, 1, moves[..5]) == Shared(kept, [Looked(b, Some(plan))], [Use(a, plan)]);
    assert moves[..6][..5] == moves[..5];
    assert Steps(key, build, 1, moves[..6]) == Shared(kept, [Ready(b, plan, true)], [Use(a, plan)]);
    assert moves[..7] == moves && moves[..7][..6] == moves[..6];
  }

  /**
    The cache is transparent in every interleaving of any number of callers exactly when a key
    tells apart all calls whose plans differ.
  */
  lemma TransparentIffKeyTells<Call(!new)>(key: Call -> string, build: Call -> Option<Plan>)
    ensures KeyTells(key, build) <==>
      forall n: nat, moves: seq<Move<Call>> :: Transparent(build, Steps(key, build, n, moves).uses)
  {
    if KeyTells(key, build) {
      forall n: nat, moves: seq<Move<Call>> ensures Transparent(build, Steps(key, build, n, moves).uses) {
        StepsSound(key, build, n, moves);
      }
    } else {
      var a: Call, b: Call :| key(a) == key(b) && build(a).Some? && build(b) != build(a);
      ClashUses(key, build, a, b);
      var uses := Steps(key, build, 1, Clash(a, b)).uses;
      assert build(uses[1].call) != Some(uses[1].plan);
      assert !Transparent(build, uses);
    }
  }

  // ---------------------------------------------------------------- the three caches

  datatype InsertCall = InsertCall(columns: Columns, nzDefaults: seq<Column>)

  function InsertKey(c: InsertCall): string {
    CacheKey(c.columns, c.nzDefaults)
  }

  function UpdateKey(columns: Columns): string {
    CacheKey(columns, [])
  }

  lemma InsertKeyTells(build: InsertCall -> Option<Plan>)
    ensures KeyTells(InsertKey, build)
  {
    forall a: InsertCall, b: InsertCall | InsertKey(a) == InsertKey(b) ensures a == b {
      CacheKeyInjective(a.columns, a.nzDefaults, b.columns, b.nzDefaults);
    }
  }

  lemma UpdateKeyTells(build: Columns -> Option<Plan>)
    ensures KeyTells(UpdateKey, build)
  {
    forall a: Columns, b: Columns | UpdateKey(a) == UpdateKey(b) ensures a == b {
      CacheKeyInjective(a, [], b, []);
    }
  }

  lemma UpsertKeyTells(build: UpsertCall -> Option<Plan>)
    ensures KeyTells(UpsertKey, build)
  {
    forall a: UpsertCall, b: UpsertCall | UpsertKey(a) == UpsertKey(b) ensures a == b {
      UpsertKeyInjective(a, b);
    }
  }

  /** Whatever plans they build, and however calls interleave, the generated caches are transparent. */
  lemma CachesAreTransparent(
      inserts: InsertCall -> Option<Plan>, updates: Columns -> Option<Plan>, upserts: UpsertCall -> Option<Plan>,
      n: nat, i: seq<Move<InsertCall>>, u: seq<Move<Columns>>, v: seq<Move<UpsertCall>>)
    ensures Transparent(inserts, Steps(InsertKey, inserts, n, i).uses)
    ensures Transparent(updates, Steps(UpdateKey, updates, n, u).uses)
    ensures Transparent(upserts, Steps(UpsertKey, upserts, n, v).uses)
  {
    InsertKeyTells(inserts);
    UpdateKeyTells(updates);
    UpsertKeyTells(upserts);
    StepsSound(InsertKey, inserts, n, i);
    StepsSound(UpdateKey, updates, n, u);
    StepsSound(UpsertKey, upserts, n, v);
  }
}
