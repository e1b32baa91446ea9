/**
  The keys of the query caches: a column kind and column names written one after the other with no
  separator. Over the table's own columns that can be read back, so different calls have different keys.
*/
module CacheKeys {
  import opened Types

  function Name(c: Column): string {
    match c
    case Id => "id"
    case Nonce => "nonce"
    case GasPrice => "gas_price"
    case To => "to"
    case Data => "data"
    case Hash => "hash"
    case SubmittedBlockNumber => "submitted_block_number"
    case SubmittedBlockHash => "submitted_block_hash"
    case MinedBlockNumber => "mined_block_number"
    case MinedBlockHash => "mined_block_hash"
    case CreatedAt => "created_at"
    case UpdatedAt => "updated_at"
    case BoostedBlockNumber => "boosted_block_number"
    case BoostedBlockHash => "boosted_block_hash"
    case WalletIndex => "wallet_index"
  }

  function Names(cols: seq<Column>): (names: seq<string>)
    ensures |names| == |cols|
  {
    if cols == [] then [] else Names(cols[..|cols|-1]) + [Name(cols[|cols|-1])]
  }

  function Joined(names: seq<string>): string {
    if names == [] then "" else Joined(names[..|names|-1]) + names[|names|-1]
  }

  // ---------------------------------------------------------------- column kinds in decimal

  const DIGITS := "0123456789"

  predicate IsDigit(c: char) {
    '0' <= c <= '9'
  }

  function Digits(n: nat): (s: string)
    ensures s != [] && forall i :: 0 <= i < |s| ==> IsDigit(s[i])
  {
    if n < 10 then [DIGITS[n]] else Digits(n / 10) + [DIGITS[n % 10]]
  }

  /** strconv.Itoa */
  function Itoa(k: int): string {
    if k < 0 then "-" + Digits(-k) else Digits(k)
  }

  lemma {:induction false} DigitsInjective(m: nat, n: nat)
    requires Digits(m) == Digits(n)
    ensures m == n
  {
    var a, b := Digits(m), Digits(n);
    assert a[|a|-1] == DIGITS[m % 10] && b[|b|-1] == DIGITS[n % 10];
    assert m % 10 == n % 10;
    if m >= 10 && n >= 10 {
      assert a[..|a|-1] == Digits(m / 10) && b[..|b|-1] == Digits(n / 10);
      DigitsInjective(m / 10, n / 10);
    }
  }

  // ---------------------------------------------------------------- reading back

  /** Where a list of names ends: at the end of the key or at a dot. */
  predicate Stops(rest: string) {
    rest == "" || rest[0] == '.'
  }

  predicate NoDigit(rest: string) {
    rest == "" || !IsDigit(rest[0])
  }

  /** The column a text begins with, told from at most two of its characters. */
  function Reads(s: string): Option<Column> {
    if s == "" then None
    else if s[0] == 'i' then Some(Column.Id)
    else if s[0] == 'n' then Some(Nonce)
    else if s[0] == 'g' then Some(GasPrice)
    else if s[0] == 't' then Some(To)
    else if s[0] == 'd' then Some(Data)
    else if s[0] == 'h' then Some(Hash)
    else if s[0] == 's' then Some(if |s| > 16 && s[16] == 'n' then SubmittedBlockNumber else SubmittedBlockHash)
    else if s[0] == 'm' then Some(if |s| > 12 && s[12] == 'n' then MinedBlockNumber else MinedBlockHash)
    else if s[0] == 'c' then Some(CreatedAt)
    else if s[0] == 'u' then Some(UpdatedAt)
    else if s[0] == 'b' then Some(if |s| > 14 && s[14] == 'n' then BoostedBlockNumber else BoostedBlockHash)
    else if s[0] == 'w' then Some(WalletIndex)
    else None
  }

  lemma ReadsName(c: Column, s: string)
    requires Name(c) <= s
    ensures Reads(s) == Some(c)
  {
  }

  /** No column name begins another, and none begins with a dot, a digit or a sign. */
  lemma PrefixFree(a: Column, b: Column)
    ensures Name(a) <= Name(b) ==> a == b
    ensures Name(a) != "" && Name(a)[0] != '.' && !IsDigit(Name(a)[0])
  {
    if Name(a) <= Name(b) {
      ReadsName(a, Name(b));
      ReadsName(b, Name(b));
    }
  }

  lemma {:induction false} JoinedHead(names: seq<string>)
    requires names != []
    ensures Joined(names) == names[0] + Joined(names[1..])
  {
    if |names| > 1 {
      var before, last := names[..|names|-1], names[|names|-1];
      JoinedHead(before);
      assert names[1..][..|names|-2] == before[1..];
      assert names[1..] == before[1..] + [last];
    }
  }

  lemma {:induction false} NamesTail(cols: seq<Column>)
    requires cols != []
    ensures Names(cols)[0] == Name(cols[0]) && Names(cols)[1..] == Names(cols[1..])
  {
    if |cols| > 1 {
      var before := cols[..|cols|-1];
      NamesTail(before);
      assert cols[1..][..|cols|-2] == before[1..];
    }
  }

  lemma Shift(a: string, b: string, c: string)
    ensures (a + b) + c == a + (b + c)
  {
  }

  function Text(cols: seq<Column>): string {
    Joined(Names(cols))
  }

  lemma TextHead(cols: seq<Column>)
    requires cols != []
    ensures Text(cols) == Name(cols[0]) + Text(cols[1..])
  {
    NamesTail(cols);
    JoinedHead(Names(cols));
  }

  lemma SameFront(x: string, y: string, u: string, v: string)
    requires x + u == y + v
    ensures x <= y || y <= x
    ensures x == y ==> u == v
  {
    var whole := x + u;
    assert whole[..|x|] == x && (y + v)[..|y|] == y;
    if |x| <= |y| {
      assert y[..|x|] == whole[..|y|][..|x|] == whole[..|x|];
    } else {
      assert x[..|y|] == whole[..|x|][..|y|] == whole[..|y|];
    }
    if x == y {
      assert u == whole[|x|..] && v == (y + v)[|y|..];
    }
  }

  lemma SameRest(x: string, u: string, v: string)
    requires x + u == x + v
    ensures u == v
  {
    SameFront(x, x, u, v);
  }

  /** The first column and what follows it. */
  lemma HeadReads(cols: seq<Column>, rest: string)
    requires cols != []
    ensures Reads(Text(cols) + rest) == Some(cols[0])
    ensures Text(cols) + rest == Name(cols[0]) + (Text(cols[1..]) + rest)
  {
    TextHead(cols);
    Shift(Name(cols[0]), Text(cols[1..]), rest);
    ReadsName(cols[0], Name(cols[0]) + (Text(cols[1..]) + rest));
  }

  lemma NothingReads(rest: string)
    requires Stops(rest)
    ensures Reads(Text([]) + rest) == None && Text([]) + rest == rest
  {
    assert Text([]) + rest == rest;
  }

  /** A run of column names up to its end is read back in one way. */
  lemma {:induction false} TextDecodes(a: seq<Column>, b: seq<Column>, u: string, v: string)
    requires Text(a) + u == Text(b) + v && Stops(u) && Stops(v)
    ensures a == b && u == v
  {
    if a == [] {
      NothingReads(u);
      if b != [] { HeadReads(b, v); }
    } else if b == [] {
      NothingReads(v);
      HeadReads(a, u);
    } else {
      HeadReads(a, u);
      HeadReads(b, v);
      SameRest(Name(a[0]), Text(a[1..]) + u, Text(b[1..]) + v);
      TextDecodes(a[1..], b[1..], u, v);
      assert a == [a[0]] + a[1..] && b == [b[0]] + b[1..];
    }
  }

  lemma NextChar(x: string, y: string, u: string, v: string)
    requires x + u == y + v && |x| < |y|
    ensures u != "" && u[0] == y[|x|]
  {
    assert (x + u)[|x|] == y[|x|];
  }

  predicate AllDigits(s: string) {
    forall i :: 0 <= i < |s| ==> IsDigit(s[i])
  }

  lemma DigitsDecode(x: string, y: string, u: string, v: string)
    requires x + u == y + v && NoDigit(u) && NoDigit(v) && AllDigits(x) && AllDigits(y)
    ensures x == y && u == v
  {
    SameFront(x, y, u, v);
    if |x| < |y| {
      NextChar(x, y, u, v);
    } else if |y| < |x| {
      NextChar(y, x, v, u);
    }
  }

  function Signed(minus: bool, digits: string): string {
    if minus then "-" + digits else digits
  }

  lemma SameSign(s: bool, x: string, t: bool, y: string, u: string, v: string)
    requires Signed(s, x) + u == Signed(t, y) + v && AllDigits(x) && AllDigits(y) && x != "" && y != ""
    ensures s == t
  {
    var p, q := Signed(s, x), Signed(t, y);
    assert (p + u)[0] == p[0] && (q + v)[0] == q[0];
  }

  lemma SignedDecode(s: bool, x: string, t: bool, y: string, u: string, v: string)
    requires Signed(s, x) + u == Signed(t, y) + v && NoDigit(u) && NoDigit(v)
    requires AllDigits(x) && AllDigits(y) && x != "" && y != ""
    ensures s == t && x == y && u == v
  {
    SameSign(s, x, t, y, u, v);
    if s {
      Shift("-", x, u);
      Shift("-", y, v);
      SameRest("-", x + u, y + v);
    }
    DigitsDecode(x, y, u, v);
  }

  lemma ItoaDecodes(j: int, k: int, u: string, v: string)
    requires Itoa(j) + u == Itoa(k) + v && NoDigit(u) && NoDigit(v)
    ensures j == k && u == v
  {
    var m: nat, n: nat := if j < 0 then -j else j, if k < 0 then -k else k;
    SignedDecode(j < 0, Digits(m), k < 0, Digits(n), u, v);
    DigitsInjective(m, n);
  }

  /** A column choice as a caller gives it: the kind of list, and the list. */
  datatype Columns = Columns(kind: int, cols: seq<Column>)

  function ColumnsText(c: Columns): string {
    Itoa(c.kind) + Text(c.cols)
  }

  lemma StopsNoDigit(cols: seq<Column>, u: string)
    requires Stops(u)
    ensures NoDigit(Text(cols) + u)
  {
    if cols == [] {
      NothingReads(u);
    } else {
      HeadReads(cols, u);
    }
  }

  lemma ColumnsDecode(a: Columns, b: Columns, u: string, v: string)
    requires ColumnsText(a) + u == ColumnsText(b) + v && Stops(u) && Stops(v)
    ensures a == b && u == v
  {
    StopsNoDigit(a.cols, u);
    StopsNoDigit(b.cols, v);
    Shift(Itoa(a.kind), Text(a.cols), u);
    Shift(Itoa(b.kind), Text(b.cols), v);
    ItoaDecodes(a.kind, b.kind, Text(a.cols) + u, Text(b.cols) + v);
    TextDecodes(a.cols, b.cols, u, v);
  }

  // ---------------------------------------------------------------- the keys

  /** What makeCacheKey writes for any names at all. */
  function KeyOf(kind: int, cols: seq<string>, nzDefaults: seq<string>): string {
    Itoa(kind) + Joined(cols) + (if nzDefaults == [] then "" else "." + Joined(nzDefaults))
  }

  function CacheKey(columns: Columns, nzDefaults: seq<Column>): string {
    KeyOf(columns.kind, Names(columns.cols), Names(nzDefaults))
  }

  /** Two Insert or Update calls share a key only if they name the same columns in the same way. */
  lemma CacheKeyInjective(a: Columns, m: seq<Column>, b: Columns, n: seq<Column>)
    ensures CacheKey(a, m) == CacheKey(b, n) <==> a == b && m == n
  {
    if CacheKey(a, m) == CacheKey(b, n) {
      var u := if m == [] then "" else "." + Text(m);
      var v := if n == [] then "" else "." + Text(n);
      assert CacheKey(a, m) == ColumnsText(a) + u && CacheKey(b, n) == ColumnsText(b) + v;
      ColumnsDecode(a, b, u, v);
      if m != [] && n != [] {
        assert u[1..] == Text(m) && v[1..] == Text(n);
        assert Text(m) + "" == Text(m) && Text(n) + "" == Text(n);
        TextDecodes(m, n, "", "");
      }
    }
  }

  /** Without the table's prefix-free names it would not be so: here are two lists of names with one key. */
  lemma OtherNamesCollide()
    ensures KeyOf(2, ["i", "d"], []) == KeyOf(2, ["id"], []) && ["i", "d"] != ["id"]
  {
    assert Joined(["i", "d"][..1]) == "i";
    assert Joined(["i", "d"]) == "id";
    assert Joined(["id"]) == "id";
  }

  /** What a call of Upsert is keyed by. */
  datatype UpsertCall = UpsertCall(
    updateOnConflict: bool, conflict: seq<Column>, update: Columns, insert: Columns, nzDefaults: seq<Column>)

  function Flag(update: bool): string {
    if update then "t" else "f"
  }

  function UpsertKey(c: UpsertCall): string {
    Flag(c.updateOnConflict) + "." + Text(c.conflict)
    + "." + ColumnsText(c.update) + "." + ColumnsText(c.insert) + "." + Text(c.nzDefaults)
  }

  lemma Regroup(x0: string, x1: string, x2: string, x3: string, x4: string, dot: string)
    ensures x0 + dot + x1 + dot + x2 + dot + x3 + dot + x4
      == x0 + (dot + (x1 + (dot + (x2 + (dot + (x3 + (dot + x4)))))))
  {
    Shift(x0 + dot + x1 + dot + x2 + dot + x3, dot, x4);
    Shift(x0 + dot + x1 + dot + x2 + dot, x3, dot + x4);
    Shift(x0 + dot + x1 + dot + x2, dot, x3 + (dot + x4));
    Shift(x0 + dot + x1 + dot, x2, dot + (x3 + (dot + x4)));
    Shift(x0 + dot + x1, dot, x2 + (dot + (x3 + (dot + x4))));
    Shift(x0 + dot, x1, dot + (x2 + (dot + (x3 + (dot + x4)))));
    Shift(x0, dot, x1 + (dot + (x2 + (dot + (x3 + (dot + x4))))));
  }

  lemma AfterDot(x: string, y: string)
    requires "." + x == "." + y
    ensures x == y
  {
    SameRest(".", x, y);
  }

  lemma LastText(a: seq<Column>, b: seq<Column>)
    requires "." + Text(a) == "." + Text(b)
    ensures a == b
  {
    AfterDot(Text(a), Text(b));
    assert Text(a) + "" == Text(a) && Text(b) + "" == Text(b);
    TextDecodes(a, b, "", "");
  }

  lemma NextColumns(a: Columns, b: Columns, u: string, v: string)
    requires "." + (ColumnsText(a) + u) == "." + (ColumnsText(b) + v) && Stops(u) && Stops(v)
    ensures a == b && u == v
  {
    AfterDot(ColumnsText(a) + u, ColumnsText(b) + v);
    ColumnsDecode(a, b, u, v);
  }

  lemma NextText(a: seq<Column>, b: seq<Column>, u: string, v: string)
    requires "." + (Text(a) + u) == "." + (Text(b) + v) && Stops(u) && Stops(v)
    ensures a == b && u == v
  {
    AfterDot(Text(a) + u, Text(b) + v);
    TextDecodes(a, b, u, v);
  }

  lemma SameFlag(p: bool, q: bool, u: string, v: string)
    requires Flag(p) + u == Flag(q) + v
    ensures p == q && u == v
  {
    assert (Flag(p) + u)[0] == Flag(p)[0] && (Flag(q) + v)[0] == Flag(q)[0];
    SameRest(Flag(p), u, v);
  }

  /** Two Upsert calls share a key only if they agree in all they are keyed by. */
  lemma UpsertKeyInjective(a: UpsertCall, b: UpsertCall)
    ensures UpsertKey(a) == UpsertKey(b) <==> a == b
  {
    if UpsertKey(a) == UpsertKey(b) {
      Regroup(Flag(a.updateOnConflict), Text(a.conflict), ColumnsText(a.update), ColumnsText(a.insert), Text(a.nzDefaults), ".");
      Regroup(Flag(b.updateOnConflict), Text(b.conflict), ColumnsText(b.update), ColumnsText(b.insert), Text(b.nzDefaults), ".");
      var a3, b3 := "." + Text(a.nzDefaults), "." + Text(b.nzDefaults);
      var a2, b2 := "." + (ColumnsText(a.insert) + a3), "." + (ColumnsText(b.insert) + b3);
      var a1, b1 := "." + (ColumnsText(a.update) + a2), "." + (ColumnsText(b.update) + b2);
      var a0, b0 := "." + (Text(a.conflict) + a1), "." + (Text(b.conflict) + b1);
      SameFlag(a.updateOnConflict, b.updateOnConflict, a0, b0);
      NextText(a.conflict, b.conflict, a1, b1);
      NextColumns(a.update, b.update, a2, b2);
      NextColumns(a.insert, b.insert, a3, b3);
      LastText(a.nzDefaults, b.nzDefaults);
    }
  }
}
