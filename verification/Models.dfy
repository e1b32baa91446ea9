/** The generated model's Insert, Update and Upsert over the shared query caches. */
module Models {
  import opened Types
  import opened CacheKeys
  import opened QueryCache
  import opened Upserts

  /** A buffer from the pool, handed out empty. */
  class Buffer {
    var text: string

    constructor ()
      ensures text == ""
    {
      text := "";
    }

    method WriteString(s: string)
      modifies this
      ensures text == old(text) + s
    {
      text := text + s;
    }
  }

  method MakeCacheKey(kind: int, cols: seq<string>, nzDefaults: seq<string>) returns (str: string)
    ensures str == KeyOf(kind, cols, nzDefaults)
  {
    var buf := new Buffer();
    buf.WriteString(Itoa(kind));
    WriteAll(buf, cols);
    if |nzDefaults| != 0 {
      buf.WriteString(".");
      WriteAll(buf, nzDefaults);
      Shift(Itoa(kind) + Joined(cols), ".", Joined(nzDefaults));
    }
    str := buf.text;
  }

  /** Writes the names one after the other. */
  method WriteAll(buf: Buffer, names: seq<string>)
    modifies buf
    ensures buf.text == old(buf.text) + Joined(names)
  {
    for i := 0 to |names|
      invariant buf.text == old(buf.text) + Joined(names[..i])
    {
      assert names[..i+1][..i] == names[..i];
      buf.WriteString(names[i]);
    }
    assert names[..|names|] == names;
  }

  /** A package-level cache with its key and the way a plan is built that is not found there. */
  class Cache<Call(!new)> {
    const key: Call -> string
    const build: Call -> Option<Plan>

    var entries: map<string, Plan>
    ghost var stored: seq<string>      // the keys this caller stored a plan under

    constructor (key: Call -> string, build: Call -> Option<Plan>)
      requires KeyTells(key, build)
      ensures Valid() && this.key == key && this.build == build && stored == []
    {
      this.key, this.build := key, build;
      entries, stored := map[], [];
    }

    /** Each entry is the plan of every call with its key. */
    ghost predicate Valid()
      reads this
    {
      KeyTells(key, build) && Sound(key, build, entries)
    }

    method Keep(call: Call, plan: Plan)
      requires Valid() && build(call) == Some(plan)
      modifies this`entries
      ensures Valid() && entries == old(entries)[key(call) := plan]
    {
      StoreSound(key, build, entries, call, plan);
      entries := entries[key(call) := plan];
    }

    /** Other callers run, and store plans of calls of their own. */
    method Interfere()
      requires Valid()
      modifies this`entries
      ensures Valid() && old(entries).Keys <= entries.Keys
    {
      var calls: seq<Call> := *;
      for k := 0 to |calls|
        invariant Valid() && old(entries).Keys <= entries.Keys
      {
        if build(calls[k]).Some? {
          Keep(calls[k], build(calls[k]).value);
        }
      }
    }

    /**
      Executes the plan an uncached call would build, or none when there is none to build, and stores a
      plan of its own only if it found none and the execution succeeded.
    */
    method Run(call: Call, k: string) returns (failed: bool, used: Option<Plan>, ghost missed: bool)
      requires Valid() && k == key(call)
      modifies this
      ensures Valid() && used == build(call) && (used.None? ==> failed)
      ensures !failed ==> k in entries
      ensures stored == old(stored) + if missed && !failed then [k] else []
    {
      Interfere();
      var cache, cached := Look(entries, k), k in entries;
      missed := !cached;
      Interfere();
      if !cached {
        cache := build(call);
        if cache.None? {
          return true, None, missed;
        }
      }
      failed, used := *, cache;
      Interfere();
      if failed {
        return;
      }
      if !cached {
        Keep(call, cache.value);
        stored := stored + [k];
      }
    }
  }

  method Insert(inserts: Cache<InsertCall>, columns: Columns, nzDefaults: seq<Column>)
    returns (failed: bool, used: Option<Plan>, ghost missed: bool)
    requires inserts.Valid() && inserts.key == InsertKey
    modifies inserts
    ensures
      var call := InsertCall(columns, nzDefaults);
      && inserts.Valid() && used == inserts.build(call) && (used.None? ==> failed)
      && (!failed ==> InsertKey(call) in inserts.entries)
      && inserts.stored == old(inserts.stored) + if missed && !failed then [InsertKey(call)] else []
  {
    var key := MakeCacheKey(columns.kind, Names(columns.cols), Names(nzDefaults));
    failed, used, missed := inserts.Run(InsertCall(columns, nzDefaults), key);
  }

  method Update(updates: Cache<Columns>, columns: Columns) returns (failed: bool, used: Option<Plan>, ghost missed: bool)
    requires updates.Valid() && updates.key == UpdateKey
    modifies updates
    ensures updates.Valid() && used == updates.build(columns) && (used.None? ==> failed)
    ensures !failed ==> UpdateKey(columns) in updates.entries
    ensures updates.stored == old(updates.stored) + if missed && !failed then [UpdateKey(columns)] else []
  {
    var key := MakeCacheKey(columns.kind, Names(columns.cols), []);
    failed, used, missed := updates.Run(columns, key);
  }

  /** Without options. */
  method Upsert(upserts: Cache<UpsertCall>, lists: Lists, call: UpsertCall)
    returns (failed: bool, used: Option<Plan>, ghost missed: bool)
    requires upserts.Valid() && upserts.key == UpsertKey
    requires forall c :: upserts.build(c) == PlanFor(lists, c, NO_OPTIONS)
    modifies upserts
    ensures upserts.Valid() && used == PlanFor(lists, call, NO_OPTIONS)
    ensures used.None? <==> call.updateOnConflict && lists.update(call) == []
    ensures used.Some? ==> exists s: Statement :: used.value.query == Render(s) && Asked(lists, call, s)
    ensures used.None? ==> failed
    ensures !failed ==> UpsertKey(call) in upserts.entries
    ensures upserts.stored == old(upserts.stored) + if missed && !failed then [UpsertKey(call)] else []
  {
    var key := MakeUpsertKey(call);
    failed, used, missed := upserts.Run(call, key);
    if used.Some? {
      ghost var s := PlanSays(lists, call);
    }
  }

  /** The three caches as the package declares them. */
  method New(insertPlan: InsertCall -> Option<Plan>, updatePlan: Columns -> Option<Plan>, lists: Lists)
    returns (inserts: Cache<InsertCall>, updates: Cache<Columns>, upserts: Cache<UpsertCall>)
    ensures fresh(inserts) && inserts.Valid() && inserts.key == InsertKey && inserts.build == insertPlan
    ensures fresh(updates) && updates.Valid() && updates.key == UpdateKey && updates.build == updatePlan
    ensures fresh(upserts) && upserts.Valid() && upserts.key == UpsertKey
    ensures forall c :: upserts.build(c) == PlanFor(lists, c, NO_OPTIONS)
  {
    InsertKeyTells(insertPlan);
    UpdateKeyTells(updatePlan);
    inserts := new Cache(InsertKey, insertPlan);
    updates := new Cache(UpdateKey, updatePlan);
    var upsertPlan := c => PlanFor(lists, c, NO_OPTIONS);
    UpsertKeyTells(upsertPlan);
    upserts := new Cache(UpsertKey, upsertPlan);
  }

  /** The key Upsert writes in line. */
  method MakeUpsertKey(call: UpsertCall) returns (key: string)
    ensures key == UpsertKey(call)
  {
    var buf := new Buffer();
    if call.updateOnConflict {
      buf.WriteString("t");
    } else {
      buf.WriteString("f");
    }
    buf.WriteString(".");
    assert buf.text == Flag(call.updateOnConflict) + ".";
    WriteAll(buf, Names(call.conflict));
    buf.WriteString(".");
    WriteColumns(buf, call.update);
    buf.WriteString(".");
    WriteColumns(buf, call.insert);
    buf.WriteString(".");
    WriteAll(buf, Names(call.nzDefaults));
    key := buf.text;
  }

  method WriteColumns(buf: Buffer, columns: Columns)
    modifies buf
    ensures buf.text == old(buf.text) + ColumnsText(columns)
  {
    buf.WriteString(Itoa(columns.kind));
    WriteAll(buf, Names(columns.cols));
    Shift(old(buf.text), Itoa(columns.kind), Text(columns.cols));
  }
}
