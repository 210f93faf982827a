/** What internal/store/migrate.go knows of a database: its tables, the v0.2.0 check on an
    unversioned one, and the text form the check compares. The check sees tables through a LIKE
    pattern and compares columns as one line of text, so what passes is a question about patterns and
    text. Both are modelled as they are written, and what passes is then compared with what the check
    is there to let through. Migrate adds the versions and the runner. */
module Schema {
  /** A column as PRAGMA table_info reports it. */
  datatype Column = Column(name: string, notNull: int, pk: int)

  /** cols in name order, as sort.Slice leaves them. */
  datatype Table = Table(name: string, cols: seq<Column>)

  type Tables = seq<Table>

  const V020_KEYS: seq<Column> := [
    Column("created_at", 1, 0), Column("id", 0, 1), Column("name", 1, 0), Column("revoked_at", 0, 0),
      Column("secret_hash", 1, 0)]

  function Lower(c: char): char { if 'A' <= c <= 'Z' then c - 'A' + 'a' else c }

  /** name LIKE 'sqlite_%': in LIKE the underscore is any one character, and case does not count. */
  predicate LikeSqlite(name: string) {
    |name| >= 7 && Lower(name[0]) == 's' && Lower(name[1]) == 'q' && Lower(name[2]) == 'l' && Lower(name[3]) == 'i' &&
    Lower(name[4]) == 't' && Lower(name[5]) == 'e'
  }

  function LowerAll(s: string): string { if s == "" then "" else [Lower(s[0])] + LowerAll(s[1..]) }

  /** So it hides every name of seven characters or more that begins "sqlite" in any case. */
  lemma LikeMeans(name: string)
    ensures LikeSqlite(name) <==> |name| >= 7 && LowerAll(name[..6]) == "sqlite"
  {
    if |name| >= 7 { LowerSix(name[..6]); }
  }

  lemma LowerSix(s: string)
    requires |s| == 6
    ensures LowerAll(s) == [Lower(s[0]), Lower(s[1]), Lower(s[2]), Lower(s[3]), Lower(s[4]), Lower(s[5])]
  {
    assert LowerAll(s[6..]) == "";
    assert LowerAll(s[5..]) == [Lower(s[5])] by { assert s[5..][1..] == s[6..]; }
    assert LowerAll(s[4..]) == [Lower(s[4])] + LowerAll(s[5..]) by { assert s[4..][1..] == s[5..]; }
    assert LowerAll(s[3..]) == [Lower(s[3])] + LowerAll(s[4..]) by { assert s[3..][1..] == s[4..]; }
    assert LowerAll(s[2..]) == [Lower(s[2])] + LowerAll(s[3..]) by { assert s[2..][1..] == s[3..]; }
    assert LowerAll(s[1..]) == [Lower(s[1])] + LowerAll(s[2..]) by { assert s[1..][1..] == s[2..]; }
  }

  function Flags(c: Column): string { (if c.pk != 0 then " pk" else "") + (if c.notNull != 0 then " notnull" else "") }

  function Format(cols: seq<Column>): string {
    if cols == [] then ""
    else if |cols| == 1 then cols[0].name + Flags(cols[0])
    else cols[0].name + Flags(cols[0]) + ", " + Format(cols[1..])
  }

  /** The tables the check looks at. */
  function Seen(ts: Tables): Tables {
    if ts == [] then [] else (if LikeSqlite(ts[0].name) then [] else [ts[0]]) + Seen(ts[1..])
  }

  /** checkPreVersioningDatabase: none, or just a keys table whose columns print like v0.2.0's. */
  predicate PreVersioningOk(ts: Tables) {
    var seen := Seen(ts);
    seen == [] || (|seen| == 1 && seen[0].name == "keys" && Format(seen[0].cols) == Format(V020_KEYS))
  }

  // ----- what the text comparison establishes ----------------------------------------------------------

  predicate PlainName(s: string) { forall i :: 0 <= i < |s| ==> s[i] != ' ' && s[i] != ',' }

  predicate Plain(cols: seq<Column>) { forall i :: 0 <= i < |cols| ==> PlainName(cols[i].name) }

  predicate SameFlags(c: Column, d: Column) { (c.notNull != 0 <==> d.notNull != 0) && (c.pk != 0 <==> d.pk != 0) }

  /** Same columns, in order, with the same flags set. */
  predicate SameShape(a: seq<Column>, b: seq<Column>) {
    |a| == |b| && forall i :: 0 <= i < |a| ==> a[i].name == b[i].name && SameFlags(a[i], b[i])
  }

  /** A plain name, then something that is empty or starts with a space or comma. */
  predicate Ends(s: string) { s == "" || s[0] == ' ' || s[0] == ',' }

  lemma {:induction false} NameSplit(n: string, x: string, m: string, y: string)
    requires PlainName(n) && PlainName(m) && Ends(x) && Ends(y) && n + x == m + y
    ensures n == m && x == y
  {
    var s := n + x;
    assert s == m + y;
    assert forall k :: 0 <= k < |n| ==> s[k] == n[k];
    assert forall k :: 0 <= k < |m| ==> s[k] == m[k];
    assert |n| < |s| ==> s[|n|] == x[0];
    assert |m| < |s| ==> s[|m|] == y[0];
    assert n == s[..|n|] && m == s[..|m|] && x == s[|n|..] && y == s[|m|..];
  }

  /** What follows the flags. */
  function More(cols: seq<Column>): string
    requires cols != []
  {
    if |cols| == 1 then "" else ", " + Format(cols[1..])
  }

  /** What follows a column's name in the list. */
  function Tail(cols: seq<Column>): string
    requires cols != []
  {
    Flags(cols[0]) + More(cols)
  }

  lemma FormatHead(cols: seq<Column>)
    requires cols != []
    ensures Format(cols) == cols[0].name + Tail(cols) && Ends(Tail(cols))
  {
    var n, f := cols[0].name, Flags(cols[0]);
    if |cols| > 1 {
      var rest := Format(cols[1..]);
      assert n + f + ", " + rest == n + (f + (", " + rest));
    }
  }

  /** A flags suffix says which flags are set and where it ends. */
  lemma FlagsSplit(c: Column, x: string, d: Column, y: string)
    requires (x == "" || x[0] == ',') && (y == "" || y[0] == ',') && Flags(c) + x == Flags(d) + y
    ensures SameFlags(c, d) && x == y
  {
    var s, t := Flags(c) + x, Flags(d) + y;
    assert c.pk != 0 ==> s[1] == 'p';
    assert c.pk == 0 && c.notNull != 0 ==> s[1] == 'n';
    assert d.pk != 0 ==> t[1] == 'p';
    assert d.pk == 0 && d.notNull != 0 ==> t[1] == 'n';
    assert x == s[|Flags(c)|..] && y == t[|Flags(d)|..];
    assert c.pk == 0 && c.notNull == 0 ==> s == x;
    assert d.pk == 0 && d.notNull == 0 ==> t == y;
    assert c.pk != 0 && c.notNull != 0 ==> s[3] == ' ';
    assert d.pk != 0 && d.notNull != 0 ==> t[3] == ' ';
    assert c.pk != 0 && c.notNull == 0 && x != "" ==> s[3] == ',';
    assert d.pk != 0 && d.notNull == 0 && y != "" ==> t[3] == ',';
  }

  lemma ShapeCons(a: seq<Column>, b: seq<Column>)
    requires a != [] && b != []
    ensures SameShape(a, b) <==> (SameShape(a[1..], b[1..]) && a[0].name == b[0].name && SameFlags(a[0], b[0]))
  {
    forall i | 0 < i < |a| ensures a[i] == a[1..][i - 1] {}
    forall i | 0 < i < |b| ensures b[i] == b[1..][i - 1] {}
  }

  /** On plain names the text form is injective up to which flags are set. */
  lemma {:induction false} FormatInjective(a: seq<Column>, b: seq<Column>)
    requires a != [] && b != [] && Plain(a) && Plain(b)
    ensures Format(a) == Format(b) <==> SameShape(a, b)
  {
    FormatHead(a);
    FormatHead(b);
    ShapeCons(a, b);
    if |a| > 1 && |b| > 1 {
      FormatInjective(a[1..], b[1..]);
      assert Format(a[1..]) == More(a)[2..] && Format(b[1..]) == More(b)[2..];
    }
    if Format(a) == Format(b) {
      NameSplit(a[0].name, Tail(a), b[0].name, Tail(b));
      FlagsSplit(a[0], More(a), b[0], More(b));
    }
  }

  lemma V020IsPlain()
    ensures Plain(V020_KEYS) && Format(V020_KEYS) != ""
  {
    assert PlainName("created_at") && PlainName("id") && PlainName("name") && PlainName("revoked_at")
      && PlainName("secret_hash");
    FormatHead(V020_KEYS);
  }

  /** Which keys tables pass: every one of the v0.2.0 shape; and one that passes has that shape
      if and only if its column names are plain. */
  lemma KeysCheckMeans(cols: seq<Column>)
    ensures SameShape(cols, V020_KEYS) ==> Format(cols) == Format(V020_KEYS) && Plain(cols)
    ensures Format(cols) == Format(V020_KEYS) && Plain(cols) ==> SameShape(cols, V020_KEYS)
  {
    V020IsPlain();
    if SameShape(cols, V020_KEYS) { ShapePlain(cols, V020_KEYS); }
    if Plain(cols) && cols != [] { FormatInjective(cols, V020_KEYS); }
  }

  lemma ShapePlain(a: seq<Column>, b: seq<Column>)
    requires SameShape(a, b) && Plain(b)
    ensures Plain(a)
  {
    forall i | 0 <= i < |a| ensures PlainName(a[i].name) { assert PlainName(b[i].name); }
  }

  /** The comparison can be fooled: a single column named like the whole list prints the same. */
  lemma OddNamePasses()
    ensures var t := Table("keys", [Column(Format(V020_KEYS), 0, 0)]);
      PreVersioningOk([t]) && !SameShape(t.cols, V020_KEYS)
  {
  }

  // ----- which databases pass ------------------------------------------------------------------------------

  /** Table names are unique, as SQLite keeps them. */
  ghost predicate Distinct(ts: Tables) { forall i, j :: 0 <= i < j < |ts| ==> ts[i].name != ts[j].name }

  lemma {:induction false} SeenAre(ts: Tables)
    ensures forall t :: t in Seen(ts) <==> t in ts && !LikeSqlite(t.name)
    ensures Distinct(ts) ==> Distinct(Seen(ts))
  {
    if ts != [] {
      SeenAre(ts[1..]);
      assert ts == [ts[0]] + ts[1..];
      if Distinct(ts) {
        forall t | t in Seen(ts[1..]) ensures t.name != ts[0].name {
          var j :| 0 <= j < |ts[1..]| && ts[1..][j] == t;
          assert ts[j + 1] == t;
        }
      }
    }
  }

  /** A table the check lets pass. */
  ghost predicate Passes(t: Table) {
    LikeSqlite(t.name) || (t.name == "keys" && Format(t.cols) == Format(V020_KEYS))
  }

  /** The check passes exactly the databases all of whose tables pass. */
  lemma PreVersioningMeans(ts: Tables)
    requires Distinct(ts)
    ensures PreVersioningOk(ts) <==> forall t :: t in ts ==> Passes(t)
  {
    SeenAre(ts);
    var seen := Seen(ts);
    assert |seen| > 1 ==> seen[0].name != seen[1].name;
    if forall t :: t in ts ==> Passes(t) {
      forall i | 0 <= i < |seen| ensures Passes(seen[i]) && !LikeSqlite(seen[i].name) { assert seen[i] in seen; }
    }
    if PreVersioningOk(ts) {
      assert !LikeSqlite("keys");
      forall t | t in ts ensures Passes(t) { assert !LikeSqlite(t.name) ==> t in seen; }
    }
  }

  /** What the check is for: SQLite's own tables, whose names begin "sqlite_" in any case, and a
      keys table of the v0.2.0 shape. */
  ghost predicate Ours(t: Table) {
    (LikeSqlite(t.name) && t.name[6] == '_') || (t.name == "keys" && SameShape(t.cols, V020_KEYS))
  }

  /** No name that the check misreads. */
  ghost predicate NotOdd(t: Table) {
    (LikeSqlite(t.name) ==> t.name[6] == '_') && (t.name == "keys" ==> Plain(t.cols))
  }

  /** Every database made only of such tables passes; one that passes is made only of such tables
      if and only if it has no odd name. */
  lemma AcceptedMeans(ts: Tables)
    requires Distinct(ts)
    ensures (forall t :: t in ts ==> Ours(t)) ==> PreVersioningOk(ts)
    ensures PreVersioningOk(ts) ==> ((forall t :: t in ts ==> Ours(t)) <==> (forall t :: t in ts ==> NotOdd(t)))
  {
    PreVersioningMeans(ts);
    forall t | t in ts ensures Ours(t) ==> Passes(t) && NotOdd(t) { TableMeans(t); }
    forall t | t in ts ensures Passes(t) && NotOdd(t) ==> Ours(t) { TableMeans(t); }
  }

  lemma TableMeans(t: Table)
    ensures Ours(t) <==> Passes(t) && NotOdd(t)
  {
    KeysCheckMeans(t.cols);
    assert !LikeSqlite("keys");
  }

  /** A foreign table that passes: in LIKE the underscore stands for any character. */
  lemma ForeignTablePasses()
    ensures var t := Table("sqliteX", []); PreVersioningOk([t]) && !Ours(t)
  {
    assert LikeSqlite("sqliteX");
    assert Seen([Table("sqliteX", [])]) == [];
  }
}
