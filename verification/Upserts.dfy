/**
  The query that Upsert builds, with the options that shape it and are missing from its cache key:
  exactly which options change a query, and exactly when the cache is transparent with them.
*/
module Upserts {
  import opened Types
  import opened CacheKeys
  import opened QueryCache
  import Consumer

  datatype Options = Options(conflictTarget: string, updateSet: string)

  const NO_OPTIONS := Options("", "")

  /** UpsertConflictTarget and UpsertUpdateSet; the last of each kind counts. */
  datatype OptionFunc = ConflictTarget(text: string) | UpdateSet(text: string)

  function OptionsOf(opts: seq<OptionFunc>): Options {
    if opts == [] then NO_OPTIONS
    else
      var before := OptionsOf(opts[..|opts|-1]);
      match opts[|opts|-1]
      case ConflictTarget(text) => before.(conflictTarget := text)
      case UpdateSet(text) => before.(updateSet := text)
  }

  /** The columns a call inserts and updates, inferred by the library from its column choices. */
  datatype Lists = Lists(insert: UpsertCall -> seq<Column>, update: UpsertCall -> seq<Column>)

  const ALL: seq<Column> :=
    [Column.Id, Nonce, GasPrice, To, Data, Hash, SubmittedBlockNumber, SubmittedBlockHash, MinedBlockNumber,
     MinedBlockHash, CreatedAt, UpdatedAt, BoostedBlockNumber, BoostedBlockHash, WalletIndex]

  // ---------------------------------------------------------------- the query

  function Quote(c: Column): string {
    "\"" + Name(c) + "\""
  }

  function Listed(cols: seq<Column>, separator: string): string {
    if cols == [] then ""
    else if |cols| == 1 then Quote(cols[0])
    else Listed(cols[..|cols|-1], separator) + separator + Quote(cols[|cols|-1])
  }

  function Excluded(c: Column): string {
    Quote(c) + " = EXCLUDED." + Quote(c)
  }

  function SetList(cols: seq<Column>): string {
    if cols == [] then ""
    else if |cols| == 1 then Excluded(cols[0])
    else SetList(cols[..|cols|-1]) + "," + Excluded(cols[|cols|-1])
  }

  function Placeholders(n: nat): string {
    if n == 0 then "" else if n == 1 then "$1" else Placeholders(n - 1) + ",$" + Itoa(n)
  }

  const HEAD := "INSERT INTO \"meta_transaction_processor\".\"meta_transaction_requests\" "
  const UPDATE := " DO UPDATE SET "

  function Values(insert: seq<Column>): string {
    if insert == [] then "DEFAULT VALUES"
    else "(" + Listed(insert, ", ") + ") VALUES (" + Placeholders(|insert|) + ")"
  }

  function DefaultTarget(conflict: seq<Column>): string {
    if conflict == [] then "" else "(" + Listed(conflict, ", ") + ")"
  }

  function Target(conflict: seq<Column>, o: Options): string {
    if o.conflictTarget != "" then o.conflictTarget else DefaultTarget(conflict)
  }

  function SetText(update: seq<Column>, o: Options): string {
    if o.updateSet != "" then o.updateSet else SetList(update)
  }

  function Act(updateOnConflict: bool, update: seq<Column>, o: Options): string {
    if !updateOnConflict || update == [] then " DO NOTHING" else UPDATE + SetText(update, o)
  }

  function Returning(ret: seq<Column>): string {
    if ret == [] then "" else " RETURNING " + Listed(ret, ", ")
  }

  function Query(updateOnConflict: bool, ret: seq<Column>, update: seq<Column>, conflict: seq<Column>,
                 insert: seq<Column>, o: Options): string {
    HEAD + Values(insert) + " ON CONFLICT " + (Target(conflict, o) + Act(updateOnConflict, update, o) + Returning(ret))
  }

  /** The columns the query returns: those not both inserted and updated. */
  function Rest(cols: seq<Column>, insert: seq<Column>, update: seq<Column>): seq<Column> {
    if cols == [] then []
    else
      var before, last := Rest(cols[..|cols|-1], insert, update), cols[|cols|-1];
      if last in insert && last in update then before else before + [last]
  }

  /** Without conflict columns an update falls back to the primary key. */
  function Conflict(call: UpsertCall, update: seq<Column>): seq<Column> {
    if call.conflict == [] && call.updateOnConflict && update != [] then [Column.Id] else call.conflict
  }

  function Position(c: Column): nat {
    match c
    case Id => 0
    case Nonce => 1
    case GasPrice => 2
    case To => 3
    case Data => 4
    case Hash => 5
    case SubmittedBlockNumber => 6
    case SubmittedBlockHash => 7
    case MinedBlockNumber => 8
    case MinedBlockHash => 9
    case CreatedAt => 10
    case UpdatedAt => 11
    case BoostedBlockNumber => 12
    case BoostedBlockHash => 13
    case WalletIndex => 14
  }

  function Fields(cols: seq<Column>): seq<nat> {
    seq(|cols|, i requires 0 <= i < |cols| => Position(cols[i]))
  }

  predicate Buildable(lists: Lists, call: UpsertCall) {
    call.updateOnConflict ==> lists.update(call) != []
  }

  function PlanFor(lists: Lists, call: UpsertCall, o: Options): Option<Plan> {
    var insert, update := lists.insert(call), lists.update(call);
    if !Buildable(lists, call) then None
    else
      var ret := Rest(ALL, insert, update);
      Some(Plan(Query(call.updateOnConflict, ret, update, Conflict(call, update), insert, o), Fields(insert), Fields(ret)))
  }

  // ---------------------------------------------------------------- when an option changes it

  /** The option is not given, or spells out what the query says without it. */
  predicate Harmless(lists: Lists, call: UpsertCall, o: Options) {
    var update := lists.update(call);
    && (o.conflictTarget == "" || o.conflictTarget == DefaultTarget(Conflict(call, update)))
    && (call.updateOnConflict ==> o.updateSet == "" || o.updateSet == SetList(update))
  }

  lemma SameBack(x: string, y: string, u: string)
    requires x + u == y + u
    ensures x == y
  {
    assert |x| == |y|;
    assert x == (x + u)[..|x|] && y == (y + u)[..|y|];
  }

  /** The text has no space followed by a D. */
  predicate Plain(s: string) {
    forall i :: 0 <= i < |s| - 1 ==> !(s[i] == ' ' && s[i+1] == 'D')
  }

  predicate NoSpace(s: string) {
    forall i :: 0 <= i < |s| ==> s[i] != ' '
  }

  lemma PlainJoin(a: string, b: string)
    requires Plain(a) && Plain(b) && (a != "" && b != "" ==> a[|a|-1] != ' ' || b[0] != 'D')
    ensures Plain(a + b)
  {
    forall i | 0 <= i < |a + b| - 1 ensures !((a + b)[i] == ' ' && (a + b)[i+1] == 'D') {
      if i >= |a| {
        assert (a + b)[i] == b[i - |a|] && (a + b)[i+1] == b[i + 1 - |a|];
      }
    }
  }

  /** The columns whose names end in one of two long ways. */
  predicate OfBlock(c: Column) {
    || c.SubmittedBlockNumber? || c.SubmittedBlockHash? || c.MinedBlockNumber? || c.MinedBlockHash?
    || c.BoostedBlockNumber? || c.BoostedBlockHash?
  }

  lemma BlockNoSpace(c: Column)
    requires OfBlock(c)
    ensures NoSpace(Name(c))
  {
  }

  lemma NameNoSpace(c: Column)
    ensures NoSpace(Name(c))
  {
    if OfBlock(c) {
      BlockNoSpace(c);
    }
  }

  lemma QuotePlain(c: Column)
    ensures Plain(Quote(c)) && |Quote(c)| > 1 && Quote(c)[0] == '"' && Quote(c)[|Quote(c)|-1] == '"'
  {
    NameNoSpace(c);
  }

  lemma {:induction false} ListedPlain(cols: seq<Column>)
    requires cols != []
    ensures
      var s := Listed(cols, ", ");
      Plain(s) && s != "" && s[0] == '"' && s[|s|-1] == '"'
  {
    var last := cols[|cols|-1];
    QuotePlain(last);
    if |cols| > 1 {
      var before := cols[..|cols|-1];
      ListedPlain(before);
      PlainJoin(Listed(before, ", "), ", ");
      PlainJoin(Listed(before, ", ") + ", ", Quote(last));
    }
  }

  lemma DefaultTargetPlain(conflict: seq<Column>)
    ensures
      var s := DefaultTarget(conflict);
      Plain(s) && (s != "" ==> s[|s|-1] != ' ')
  {
    if conflict != [] {
      ListedPlain(conflict);
      PlainJoin("(", Listed(conflict, ", "));
      PlainJoin("(" + Listed(conflict, ", "), ")");
    }
  }

  lemma ExcludedPlain(c: Column)
    ensures Plain(Excluded(c)) && Excluded(c)[0] == '"' && Excluded(c)[|Excluded(c)|-1] == '"'
  {
    QuotePlain(c);
    PlainJoin(Quote(c), " = EXCLUDED.");
    PlainJoin(Quote(c) + " = EXCLUDED.", Quote(c));
  }

  lemma {:induction false} SetListPlain(cols: seq<Column>)
    requires cols != []
    ensures Plain(SetList(cols)) && SetList(cols) != "" && SetList(cols)[0] == '"'
  {
    var last := cols[|cols|-1];
    ExcludedPlain(last);
    if |cols| > 1 {
      var before := cols[..|cols|-1];
      SetListPlain(before);
      PlainJoin(SetList(before), ",");
      PlainJoin(SetList(before) + ",", Excluded(last));
    }
  }

  /** Where the update begins is told by its " D", when target and list have none. */
  lemma UpdateDecodes(t: string, u: string, plainTarget: string, plainList: string)
    requires t + UPDATE + u == plainTarget + UPDATE + plainList
    requires Plain(plainTarget) && (plainTarget != "" ==> plainTarget[|plainTarget|-1] != ' ')
    requires Plain(plainList) && plainList != "" && plainList[0] != 'D'
    ensures t == plainTarget && u == plainList
  {
    var whole, n := plainTarget + UPDATE + plainList, |plainTarget|;
    assert (t + UPDATE + u)[|t|] == ' ' && (t + UPDATE + u)[|t|+1] == 'D';
    if |t| != n {
      NotElsewhere(plainTarget, plainList, |t|);
    }
    assert t == (t + UPDATE + u)[..n] == plainTarget;
    assert u == (t + UPDATE + u)[n + |UPDATE|..];
    assert plainList == whole[n + |UPDATE|..];
  }

  lemma NotElsewhere(a: string, b: string, i: nat)
    requires Plain(a) && (a != "" ==> a[|a|-1] != ' ') && Plain(b) && b != "" && b[0] != 'D'
    requires i + 1 < |a + UPDATE + b| && i != |a|
    ensures !((a + UPDATE + b)[i] == ' ' && (a + UPDATE + b)[i+1] == 'D')
  {
    var s, j := a + UPDATE + b, i - |a|;
    if j < -1 {
      assert s[i] == a[i] && s[i+1] == a[i+1];
    } else if j == -1 {
      assert s[i] == a[|a|-1];
    } else if 0 < j < |UPDATE| - 1 {
      assert s[i] == UPDATE[j] && s[i+1] == UPDATE[j+1];
    } else if j == |UPDATE| - 1 {
      assert s[i+1] == b[0];
    } else if j >= |UPDATE| {
      assert s[i] == b[j - |UPDATE|] && s[i+1] == b[j + 1 - |UPDATE|];
    }
  }

  lemma UpdateTold(conflict: seq<Column>, update: seq<Column>, o: Options)
    requires update != []
    requires Target(conflict, o) + Act(true, update, o) == DefaultTarget(conflict) + Act(true, update, NO_OPTIONS)
    ensures Target(conflict, o) == DefaultTarget(conflict) && SetText(update, o) == SetList(update)
  {
    var t, t0 := Target(conflict, o), DefaultTarget(conflict);
    DefaultTargetPlain(conflict);
    SetListPlain(update);
    assert t + Act(true, update, o) == t + UPDATE + SetText(update, o);
    assert t0 + Act(true, update, NO_OPTIONS) == t0 + UPDATE + SetList(update);
    UpdateDecodes(t, SetText(update, o), t0, SetList(update));
  }

  lemma QueriesTell(front: string, t: string, a: string, t0: string, a0: string, tail: string)
    requires front + (t + a + tail) == front + (t0 + a0 + tail)
    ensures t + a == t0 + a0
  {
    SameRest(front, t + a + tail, t0 + a0 + tail);
    SameBack(t + a, t0 + a0, tail);
  }

  lemma HarmlessTold(lists: Lists, call: UpsertCall, o: Options)
    requires Buildable(lists, call) && PlanFor(lists, call, o) == PlanFor(lists, call, NO_OPTIONS)
    ensures Harmless(lists, call, o)
  {
    var update := lists.update(call);
    var conflict, act := Conflict(call, update), Act(call.updateOnConflict, update, NO_OPTIONS);
    QueriesTell(HEAD + Values(lists.insert(call)) + " ON CONFLICT ", Target(conflict, o), Act(call.updateOnConflict, update, o),
                DefaultTarget(conflict), act, Returning(Rest(ALL, lists.insert(call), update)));
    if call.updateOnConflict {
      UpdateTold(conflict, update, o);
    } else {
      SameBack(Target(conflict, o), DefaultTarget(conflict), act);
    }
  }

  /** An option changes no plan of a call exactly when it is harmless: the guards of the two branches that use it. */
  lemma HarmlessExact(lists: Lists, call: UpsertCall, o: Options)
    requires Buildable(lists, call)
    ensures PlanFor(lists, call, o) == PlanFor(lists, call, NO_OPTIONS) <==> Harmless(lists, call, o)
  {
    if PlanFor(lists, call, o) == PlanFor(lists, call, NO_OPTIONS) {
      HarmlessTold(lists, call, o);
    }
  }

  // ---------------------------------------------------------------- the cache

  /** A call with the i-th of the options that callers give. */
  datatype Optioned = Optioned(call: UpsertCall, i: nat)

  function OptionedKey(c: Optioned): string {
    UpsertKey(c.call)
  }

  function OptionedPlan(lists: Lists, options: nat -> Options): Optioned -> Option<Plan> {
    (c: Optioned) => PlanFor(lists, c.call, options(c.i))
  }

  lemma KeyTellsExact(lists: Lists, options: nat -> Options)
    requires options(0) == NO_OPTIONS
    ensures KeyTells(OptionedKey, OptionedPlan(lists, options)) <==>
      forall call: UpsertCall, i: nat :: Buildable(lists, call) ==> Harmless(lists, call, options(i))
  {
    var build := OptionedPlan(lists, options);
    if KeyTells(OptionedKey, build) {
      forall call: UpsertCall, i: nat | Buildable(lists, call) ensures Harmless(lists, call, options(i)) {
        assert OptionedKey(Optioned(call, 0)) == OptionedKey(Optioned(call, i));
        assert build(Optioned(call, i)) == build(Optioned(call, 0));
        HarmlessExact(lists, call, options(i));
      }
    }
    if forall call: UpsertCall, i: nat :: Buildable(lists, call) ==> Harmless(lists, call, options(i)) {
      forall a: Optioned, b: Optioned | OptionedKey(a) == OptionedKey(b) && build(a).Some? ensures build(b) == build(a) {
        UpsertKeyInjective(a.call, b.call);
        HarmlessExact(lists, a.call, options(a.i));
        HarmlessExact(lists, a.call, options(b.i));
      }
    }
  }

  /**
    When callers use any options besides none, the cache is transparent in every interleaving exactly when each
    option is harmless to each call: a conflict target only where it is the default one, and an update set, on
    calls that update on conflict, only where it is the default one.
  */
  lemma OptionsBreakTransparency(lists: Lists, options: nat -> Options)
    requires options(0) == NO_OPTIONS
    ensures
      (forall call: UpsertCall, i: nat :: Buildable(lists, call) ==> Harmless(lists, call, options(i)))
      <==> forall n: nat, moves: seq<Move<Optioned>> ::
             Transparent(OptionedPlan(lists, options), Steps(OptionedKey, OptionedPlan(lists, options), n, moves).uses)
  {
    KeyTellsExact(lists, options);
    TransparentIffKeyTells(OptionedKey, OptionedPlan(lists, options));
  }

  /**
    Two Upserts that update on conflict, the second with an update set of its own: it executes the query of the
    first, which sets the columns the option was to replace.
  */
  lemma UpdateSetIsLost(lists: Lists, options: nat -> Options, call: UpsertCall)
    requires options(0) == NO_OPTIONS && options(1) == OptionsOf([UpdateSet("nonce = 0")])
    requires call.updateOnConflict && lists.update(call) != []
    ensures
      var build := OptionedPlan(lists, options);
      var uses := Steps(OptionedKey, build, 1, Clash(Optioned(call, 0), Optioned(call, 1))).uses;
      && |uses| == 2 && uses[1].call == Optioned(call, 1) && uses[1].plan == PlanFor(lists, call, NO_OPTIONS).value
      && build(uses[1].call).Some? && build(uses[1].call).value.query != uses[1].plan.query
  {
    assert OptionsOf([]) == NO_OPTIONS;
    assert [UpdateSet("nonce = 0")][..0] == [];
    ClashUses(OptionedKey, OptionedPlan(lists, options), Optioned(call, 0), Optioned(call, 1));
    SetListPlain(lists.update(call));
    assert SetList(lists.update(call))[0] != "nonce = 0"[0];
    HarmlessExact(lists, call, options(1));
  }

  // ---------------------------------------------------------------- what the query says and does

  datatype OnConflict = Nothing | Overwrite(cols: seq<Column>)

  /** An insertion: its columns, the columns a conflict is looked for in, what then happens, and what is returned. */
  datatype Statement = Statement(inserted: seq<Column>, target: seq<Column>, onConflict: OnConflict, returned: seq<Column>)

  function Join(parts: seq<string>, separator: string): string {
    if parts == [] then ""
    else if |parts| == 1 then parts[0]
    else Join(parts[..|parts|-1], separator) + separator + parts[|parts|-1]
  }

  /** A column in a list: its name in quotes, or the assignment of its new value. */
  function Part(c: Column, setting: bool): string {
    "\"" + Name(c) + Tail(c, setting)
  }

  function Tail(c: Column, setting: bool): string {
    if setting then "\" = EXCLUDED.\"" + Name(c) + "\"" else "\""
  }

  function Mapped<A>(xs: seq<A>, item: A -> string): seq<string> {
    seq(|xs|, i requires 0 <= i < |xs| => item(xs[i]))
  }

  function Item(setting: bool): Column -> string {
    c => Part(c, setting)
  }

  function Parts(cols: seq<Column>, setting: bool): seq<string> {
    Mapped(cols, Item(setting))
  }

  function UpTo(n: nat): seq<nat> {
    seq(n, i requires 0 <= i < n => i + 1)
  }

  function Parameter(): nat -> string {
    k => "$" + Itoa(k)
  }

  function Numbered(n: nat): seq<string> {
    Mapped(UpTo(n), Parameter())
  }

  function Paren(s: string): string {
    "(" + s + ")"
  }

  function ValuesText(inserted: seq<Column>): string {
    if inserted == [] then "DEFAULT VALUES"
    else Paren(Join(Parts(inserted, false), ", ")) + (" VALUES " + Paren(Join(Numbered(|inserted|), ",")))
  }

  function TargetText(target: seq<Column>): string {
    if target == [] then "" else Paren(Join(Parts(target, false), ", "))
  }

  function ActionText(o: OnConflict): string {
    match o
    case Nothing => " DO NOTHING"
    case Overwrite(cols) => " DO UPDATE SET " + Join(Parts(cols, true), ",")
  }

  function ReturnedText(returned: seq<Column>): string {
    if returned == [] then "" else " RETURNING " + Join(Parts(returned, false), ", ")
  }

  // Spelled out again: the text of a statement is stated apart from the code that builds it.
  const TABLE := "INSERT INTO \"meta_transaction_processor\".\"meta_transaction_requests\" "

  /** The statement as text. */
  function Render(s: Statement): string {
    TABLE + (ValuesText(s.inserted)
             + (" ON CONFLICT " + (TargetText(s.target) + (ActionText(s.onConflict) + ReturnedText(s.returned)))))
  }

  lemma MappedSlices<A>(xs: seq<A>, item: A -> string)
    requires xs != []
    ensures Mapped(xs, item)[..|xs|-1] == Mapped(xs[..|xs|-1], item) && Mapped(xs, item)[1..] == Mapped(xs[1..], item)
  {
  }

  lemma {:induction false} ListedJoins(cols: seq<Column>)
    ensures Listed(cols, ", ") == Join(Parts(cols, false), ", ")
  {
    if |cols| > 1 {
      var before := cols[..|cols|-1];
      ListedJoins(before);
      MappedSlices(cols, Item(false));
    }
  }

  lemma Regrouped(q: string, n: string, e: string)
    ensures (q + n + q) + e + (q + n + q) == q + n + (q + e + q + n + q)
  {
  }

  lemma ExcludedIs(c: Column)
    ensures Excluded(c) == Part(c, true)
  {
    Regrouped("\"", Name(c), " = EXCLUDED.");
    assert "\"" + " = EXCLUDED." + "\"" == "\" = EXCLUDED.\"";
  }

  lemma {:induction false} SetListJoins(cols: seq<Column>)
    ensures SetList(cols) == Join(Parts(cols, true), ",")
  {
    if cols != [] {
      ExcludedIs(cols[|cols|-1]);
      if |cols| > 1 {
        var before := cols[..|cols|-1];
        SetListJoins(before);
        MappedSlices(cols, Item(true));
      }
    }
  }

  lemma NextParameter(before: string, number: string)
    ensures before + ",$" + number == before + "," + ("$" + number)
  {
    assert ",$" == "," + "$";
  }

  lemma {:induction false} PlaceholdersJoin(n: nat)
    ensures Placeholders(n) == Join(Numbered(n), ",")
  {
    if n > 1 {
      PlaceholdersJoin(n - 1);
      MappedSlices(UpTo(n), Parameter());
      assert UpTo(n)[..n-1] == UpTo(n - 1);
      NextParameter(Placeholders(n - 1), Itoa(n));
    } else if n == 1 {
      assert Itoa(1) == "1" && Numbered(1)[0] == "$" + Itoa(1);
    }
  }

  lemma ValuesIs(insert: seq<Column>)
    ensures Values(insert) == ValuesText(insert)
  {
    if insert != [] {
      ListedJoins(insert);
      PlaceholdersJoin(|insert|);
      Bracketed(Listed(insert, ", "), Placeholders(|insert|));
    }
  }

  lemma Bracketed(x: string, y: string)
    ensures "(" + x + ") VALUES (" + y + ")" == Paren(x) + (" VALUES " + Paren(y))
  {
    assert ") VALUES (" == ")" + " VALUES " + "(";
  }

  lemma Nested(h: string, v: string, o: string, t: string, a: string, r: string)
    ensures h + v + o + (t + a + r) == h + (v + (o + (t + (a + r))))
  {
  }

  /** What the statement does to the table, whose only unique column is the id. */
  function Execute(s: Statement, rows: Table, row: Row): Table {
    if row.id !in rows then rows[row.id := Overlay(EMPTY, row, set c | c in s.inserted)]
    else
      match s.onConflict
      case Nothing => rows
      case Overwrite(cols) => rows[row.id := Overlay(rows[row.id], row, set c | c in cols)]
  }

  const EMPTY := Row(0, [], [], 0, 0, None, None, None, None, None, None, None, None, None)

  lemma PositionFinds(c: Column)
    ensures Position(c) < |ALL| && ALL[Position(c)] == c
  {
  }

  /** The fields bound to a list of columns are those columns, in order. */
  lemma FieldsFind(cols: seq<Column>)
    ensures Holding(Fields(cols), cols)
  {
    forall i | 0 <= i < |cols| ensures Fields(cols)[i] < |ALL| && ALL[Fields(cols)[i]] == cols[i] {
      PositionFinds(cols[i]);
    }
  }

  lemma {:induction false} RestIs(cols: seq<Column>, insert: seq<Column>, update: seq<Column>, c: Column)
    ensures c in Rest(cols, insert, update) <==> c in cols && !(c in insert && c in update)
  {
    if cols != [] {
      assert cols == cols[..|cols|-1] + [cols[|cols|-1]];
      RestIs(cols[..|cols|-1], insert, update, c);
    }
  }

  /** The statement's own parts are those the call asks for. */
  predicate Asked(lists: Lists, call: UpsertCall, s: Statement) {
    && s.inserted == lists.insert(call)
    && (s.onConflict.Nothing? <==> !call.updateOnConflict)
    && (s.onConflict.Overwrite? ==> s.onConflict.cols == lists.update(call))
    && s.target == (if call.conflict == [] && call.updateOnConflict then [Column.Id] else call.conflict)
  }

  /** The i-th field is the one that holds the i-th column. */
  predicate Holding(fields: seq<nat>, cols: seq<Column>) {
    |fields| == |cols| && forall i :: 0 <= i < |cols| ==> fields[i] < |ALL| && ALL[fields[i]] == cols[i]
  }

  lemma PlanRenders(lists: Lists, call: UpsertCall, s: Statement)
    requires Buildable(lists, call) && Asked(lists, call, s)
    requires s.returned == Rest(ALL, lists.insert(call), lists.update(call))
    ensures PlanFor(lists, call, NO_OPTIONS).value.query == Render(s)
  {
    var update := lists.update(call);
    ValuesIs(s.inserted);
    ListedJoins(s.target);
    SetListJoins(update);
    ListedJoins(s.returned);
    Nested(HEAD, Values(s.inserted), " ON CONFLICT ", Target(s.target, NO_OPTIONS),
           Act(call.updateOnConflict, update, NO_OPTIONS), Returning(s.returned));
  }

  lemma ReturnedRest(insert: seq<Column>, update: seq<Column>, c: Column)
    ensures c in Rest(ALL, insert, update) <==> !(c in insert && c in update)
  {
    PositionFinds(c);
    RestIs(ALL, insert, update, c);
  }

  /**
    Upsert's plan without options: the text of an insertion of the inferred columns that looks for conflicts in the
    columns given, does nothing on one exactly when it is not to update, and overwrites the inferred columns otherwise;
    parameters and results are bound to the fields of the inserted and the returned columns.
  */
  lemma PlanSays(lists: Lists, call: UpsertCall) returns (s: Statement)
    requires Buildable(lists, call)
    ensures
      var plan := PlanFor(lists, call, NO_OPTIONS).value;
      && plan.query == Render(s) && Asked(lists, call, s)
      && Holding(plan.bound, s.inserted) && Holding(plan.scanned, s.returned)
    ensures forall c :: c in s.returned <==> !(c in lists.insert(call) && c in lists.update(call))
  {
    var insert, update := lists.insert(call), lists.update(call);
    s := Statement(insert, Conflict(call, update), if call.updateOnConflict then Overwrite(update) else Nothing,
                   Rest(ALL, insert, update));
    FieldsFind(insert);
    FieldsFind(s.returned);
    PlanRenders(lists, call, s);
    forall c ensures c in s.returned <==> !(c in insert && c in update) {
      ReturnedRest(insert, update, c);
    }
  }

  // ---------------------------------------------------------------- the text tells the statement

  lemma Assoc(x: string, y: string, z: string)
    ensures x + y + z == x + (y + z)
  {
  }

  lemma FirstOf(x: string, u: string)
    requires x != ""
    ensures x + u != "" && (x + u)[0] == x[0]
  {
  }

  /** What follows the first of a list of parts. */
  function Onward(parts: seq<string>, separator: string, x: string): string {
    if parts == [] then x else separator + (Join(parts, separator) + x)
  }

  lemma {:induction false} JoinFront(parts: seq<string>, separator: string, x: string)
    requires parts != []
    ensures Join(parts, separator) + x == parts[0] + Onward(parts[1..], separator, x)
  {
    var n := |parts| - 1;
    if n > 0 {
      var before, last := parts[..n], parts[n];
      JoinFront(before, separator, separator + (last + x));
      Assoc(Join(before, separator) + separator, last, x);
      Assoc(Join(before, separator), separator, last + x);
      if n > 1 {
        assert before[1..] == parts[1..][..n-1];
        var middle := Join(before[1..], separator);
        Assoc(middle + separator, last, x);
        Assoc(middle, separator, last + x);
      } else {
        assert before[1..] == [] && parts[1..] == [last];
      }
    }
  }

  lemma Begins(m: string, u: string)
    ensures m <= m + u
  {
  }

  lemma NameDecodes(c: Column, d: Column, u: string, v: string)
    requires Name(c) + u == Name(d) + v
    ensures c == d && u == v
  {
    Begins(Name(c), u);
    Begins(Name(d), v);
    ReadsName(c, Name(c) + u);
    ReadsName(d, Name(c) + u);
    SameRest(Name(c), u, v);
  }

  lemma PartNests(c: Column, setting: bool, u: string)
    ensures Part(c, setting) + u == "\"" + (Name(c) + (Tail(c, setting) + u))
  {
    Assoc("\"" + Name(c), Tail(c, setting), u);
    Assoc("\"", Name(c), Tail(c, setting) + u);
  }

  /** A column is read back, as no name begins another. */
  lemma PartDecodes(c: Column, d: Column, setting: bool, u: string, v: string)
    requires Part(c, setting) + u == Part(d, setting) + v
    ensures c == d && u == v
  {
    var x, y := Tail(c, setting), Tail(d, setting);
    PartNests(c, setting, u);
    PartNests(d, setting, v);
    SameRest("\"", Name(c) + (x + u), Name(d) + (y + v));
    NameDecodes(c, d, x + u, y + v);
    SameRest(x, u, v);
  }

  lemma PartsFront(cols: seq<Column>, setting: bool, separator: string, x: string)
    requires cols != []
    ensures Join(Parts(cols, setting), separator) + x
            == Part(cols[0], setting) + Onward(Parts(cols[1..], setting), separator, x)
  {
    JoinFront(Parts(cols, setting), separator, x);
    MappedSlices(cols, Item(setting));
  }

  lemma SameOnward(p: seq<string>, q: seq<string>, separator: string, x: string, y: string)
    requires Onward(p, separator, x) == Onward(q, separator, y) && separator != "" && separator[0] == ','
    requires (x != "" ==> x[0] != ',') && (y != "" ==> y[0] != ',')
    ensures p == [] <==> q == []
    ensures if p == [] then x == y else Join(p, separator) + x == Join(q, separator) + y
  {
    FirstOf(separator, Join(p, separator) + x);
    FirstOf(separator, Join(q, separator) + y);
    if p != [] && q != [] {
      SameRest(separator, Join(p, separator) + x, Join(q, separator) + y);
    }
  }

  /** A list is read back up to what follows it, which does not begin with a comma. */
  lemma {:induction false} PartsDecode(a: seq<Column>, b: seq<Column>, setting: bool, separator: string, x: string, y: string)
    requires a != [] && b != [] && separator != "" && separator[0] == ','
    requires Join(Parts(a, setting), separator) + x == Join(Parts(b, setting), separator) + y
    requires (x != "" ==> x[0] != ',') && (y != "" ==> y[0] != ',')
    ensures a == b && x == y
    decreases |a|
  {
    var p, q := Parts(a[1..], setting), Parts(b[1..], setting);
    PartsFront(a, setting, separator, x);
    PartsFront(b, setting, separator, y);
    PartDecodes(a[0], b[0], setting, Onward(p, separator, x), Onward(q, separator, y));
    SameOnward(p, q, separator, x, y);
    if |a| > 1 {
      PartsDecode(a[1..], b[1..], setting, separator, x, y);
    }
    assert a == [a[0]] + a[1..] && b == [b[0]] + b[1..];
  }

  lemma ParenRest(p: string, q: string, x: string, y: string)
    requires Paren(p) + x == Paren(q) + y
    ensures p + (")" + x) == q + (")" + y)
  {
    Assoc("(" + p, ")", x);
    Assoc("(", p, ")" + x);
    Assoc("(" + q, ")", y);
    Assoc("(", q, ")" + y);
    SameRest("(", p + (")" + x), q + (")" + y));
  }

  lemma ListDecodes(a: seq<Column>, b: seq<Column>, x: string, y: string)
    requires a != [] && b != []
    requires Paren(Join(Parts(a, false), ", ")) + x == Paren(Join(Parts(b, false), ", ")) + y
    ensures a == b
  {
    ParenRest(Join(Parts(a, false), ", "), Join(Parts(b, false), ", "), x, y);
    PartsDecode(a, b, false, ", ", ")" + x, ")" + y);
  }

  lemma ValuesDecode(a: seq<Column>, b: seq<Column>, x: string, y: string)
    requires ValuesText(a) + x == ValuesText(b) + y
    ensures a == b && x == y
  {
    FirstOf(ValuesText(a), x);
    FirstOf(ValuesText(b), y);
    if a != [] && b != [] {
      var p, q := " VALUES " + Paren(Join(Numbered(|a|), ",")), " VALUES " + Paren(Join(Numbered(|b|), ","));
      Assoc(Paren(Join(Parts(a, false), ", ")), p, x);
      Assoc(Paren(Join(Parts(b, false), ", ")), q, y);
      ListDecodes(a, b, p + x, q + y);
    }
    SameRest(ValuesText(a), x, y);
  }

  lemma TargetDecodes(a: seq<Column>, b: seq<Column>, x: string, y: string)
    requires TargetText(a) + x == TargetText(b) + y && x != "" && y != "" && x[0] != '(' && y[0] != '('
    ensures a == b && x == y
  {
    if a != [] {
      FirstOf(TargetText(a), x);
    }
    if b != [] {
      FirstOf(TargetText(b), y);
    }
    if a != [] && b != [] {
      ListDecodes(a, b, x, y);
    }
    SameRest(TargetText(a), x, y);
  }

  lemma FirstPart(cols: seq<Column>, x: string)
    requires cols != []
    ensures var s := Join(Parts(cols, true), ",") + x; s != "" && s[0] == '"'
  {
    JoinFront(Parts(cols, true), ",", x);
    FirstOf(Part(cols[0], true), Onward(Parts(cols, true)[1..], ",", x));
  }

  lemma OverwriteDecodes(a: seq<Column>, b: seq<Column>, x: string, y: string)
    requires Join(Parts(a, true), ",") + x == Join(Parts(b, true), ",") + y
    requires (x != "" ==> x[0] == ' ') && (y != "" ==> y[0] == ' ')
    ensures a == b && x == y
  {
    if a != [] {
      FirstPart(a, x);
    } else {
      assert Join(Parts(a, true), ",") + x == x;
    }
    if b != [] {
      FirstPart(b, y);
    } else {
      assert Join(Parts(b, true), ",") + y == y;
    }
    if a != [] && b != [] {
      PartsDecode(a, b, true, ",", x, y);
    }
  }

  lemma ActionDecodes(a: OnConflict, b: OnConflict, x: string, y: string)
    requires ActionText(a) + x == ActionText(b) + y && (x != "" ==> x[0] == ' ') && (y != "" ==> y[0] == ' ')
    ensures a == b && x == y
  {
    assert (ActionText(a) + x)[4] == ActionText(a)[4] && (ActionText(b) + y)[4] == ActionText(b)[4];
    if a.Overwrite? && b.Overwrite? {
      var p, q := Join(Parts(a.cols, true), ","), Join(Parts(b.cols, true), ",");
      Assoc(" DO UPDATE SET ", p, x);
      Assoc(" DO UPDATE SET ", q, y);
      SameRest(" DO UPDATE SET ", p + x, q + y);
      OverwriteDecodes(a.cols, b.cols, x, y);
    } else {
      SameRest(" DO NOTHING", x, y);
    }
  }

  lemma ReturnedDecode(a: seq<Column>, b: seq<Column>)
    requires ReturnedText(a) == ReturnedText(b)
    ensures a == b
  {
    if a != [] && b != [] {
      SameRest(" RETURNING ", Join(Parts(a, false), ", "), Join(Parts(b, false), ", "));
      PartsDecode(a, b, false, ", ", "", "");
    }
  }

  lemma ActionFirst(o: OnConflict, x: string)
    ensures ActionText(o) + x != "" && (ActionText(o) + x)[0] == ' '
  {
    FirstOf(ActionText(o), x);
  }

  /** Two statements with one text are one statement. */
  lemma TextTells(a: Statement, b: Statement)
    requires Render(a) == Render(b)
    ensures a == b
  {
    var r, r' := ReturnedText(a.returned), ReturnedText(b.returned);
    var x, y := ActionText(a.onConflict) + r, ActionText(b.onConflict) + r';
    var u, v := TargetText(a.target) + x, TargetText(b.target) + y;
    SameRest(TABLE, ValuesText(a.inserted) + (" ON CONFLICT " + u), ValuesText(b.inserted) + (" ON CONFLICT " + v));
    ValuesDecode(a.inserted, b.inserted, " ON CONFLICT " + u, " ON CONFLICT " + v);
    SameRest(" ON CONFLICT ", u, v);
    ActionFirst(a.onConflict, r);
    ActionFirst(b.onConflict, r');
    TargetDecodes(a.target, b.target, x, y);
    ActionDecodes(a.onConflict, b.onConflict, r, r');
    ReturnedDecode(a.returned, b.returned);
  }

  // ---------------------------------------------------------------- the consumer's query

  /** Columns the table has no default for; an inferred insert names them all, and those with a value besides. */
  const WITHOUT_DEFAULT: seq<Column> := [Column.Id, To, Data, WalletIndex]

  /**
    The consumer's Upsert, which is not to update and gives the id as conflict target: its query is the text of a
    statement that, executed on any table, inserts or ignores as the consumer's step does. A known id keeps its
    row, a new one gets the row of the message.
  */
  lemma ConsumerInserts(lists: Lists, call: UpsertCall, rows: Table, row: Row) returns (s: Statement)
    requires !call.updateOnConflict && call.conflict == [Column.Id] && CreatedAt in call.nzDefaults
    requires forall c :: c in WITHOUT_DEFAULT || c in call.nzDefaults ==> c in lists.insert(call)
    requires row.Pending()
    ensures PlanFor(lists, call, NO_OPTIONS).Some? && PlanFor(lists, call, NO_OPTIONS).value.query == Render(s)
    ensures s.target == [Column.Id] && s.onConflict.Nothing?
    ensures Consumer.InsertsOrIgnores(Consumer.Upserted(rows, row, Execute(s, rows, row)))
  {
    s := PlanSays(lists, call);
    InsertsOrIgnores(s, rows, row);
  }

  lemma InsertsOrIgnores(s: Statement, rows: Table, row: Row)
    requires s.onConflict.Nothing? && row.Pending() && CreatedAt in s.inserted
    requires forall c :: c in WITHOUT_DEFAULT ==> c in s.inserted
    ensures Consumer.InsertsOrIgnores(Consumer.Upserted(rows, row, Execute(s, rows, row)))
  {
    var cols := set c | c in s.inserted;
    assert Column.Id in cols && To in cols && Data in cols && WalletIndex in cols && CreatedAt in cols by {
      var needed := WITHOUT_DEFAULT;
      assert needed[0] in needed && needed[1] in needed && needed[2] in needed && needed[3] in needed;
    }
    assert Overlay(EMPTY, row, cols) == row;
  }
}
