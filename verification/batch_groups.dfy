/** db/batch.go: rows bucketed by table and fields, in order of first appearance. */
module BatchGroups {

  /** A row with its own table, its field names in order, and an identity. */
  datatype Row = Row(table: string, names: seq<string>, id: nat)

  /** Which fields of a row a table has. */
  type Filter = (string, seq<string>) -> seq<string>

  datatype Group = Group(table: string, fields: seq<string>, rows: seq<Row>)

  // ---- keys ----

  function Join(fs: seq<string>): string {
    if fs == [] then "" else if |fs| == 1 then fs[0] else fs[0] + "," + Join(fs[1..])
  }

  function Key(table: string, fields: seq<string>): string {
    table + "\0" + Join(fields)
  }

  function TableOf(table: string, r: Row): string {
    if table == "" then r.table else table
  }

  function FieldsOf(keep: Filter, table: string, r: Row): seq<string> {
    keep(TableOf(table, r), r.names)
  }

  function KeyOf(keep: Filter, table: string, r: Row): string {
    Key(TableOf(table, r), FieldsOf(keep, table, r))
  }

  predicate NoComma(fs: seq<string>) {
    forall f | f in fs :: ',' !in f
  }

  /** One list, or none and the empty name alone. */
  predicate SameNames(a: seq<string>, b: seq<string>) {
    a == b || a + b == [""]
  }

  /** Two strings that go on after a mark in the same way have the same beginning. */
  lemma Cut(x: string, y: string, c: char, a: string, b: string)
    requires c !in x && c !in y && x + a == y + b
    requires (a == "" || a[0] == c) && (b == "" || b[0] == c)
    ensures x == y && a == b
  {
    if |x| < |y| {
      Longer(x, y, c, a, b);
    } else if |y| < |x| {
      Longer(y, x, c, b, a);
    }
    var s := x + a;
    assert s[..|x|] == x && s[..|y|] == y;
    assert s[|x|..] == a && s[|y|..] == b;
  }

  lemma Longer(x: string, y: string, c: char, a: string, b: string)
    requires |x| < |y| && x + a == y + b && (a == "" || a[0] == c)
    ensures c in y
  {
    assert |x + a| == |y + b|;
    assert (x + a)[|x|] == a[0] && (y + b)[|x|] == y[|x|];
  }

  /** What follows the first name. */
  function Tail(fs: seq<string>): string
    requires fs != []
  {
    if |fs| == 1 then "" else "," + Join(fs[1..])
  }

  lemma JoinParts(fs: seq<string>)
    requires fs != []
    ensures Join(fs) == fs[0] + Tail(fs)
  {
    if |fs| > 1 {
      assert fs[0] + "," + Join(fs[1..]) == fs[0] + ("," + Join(fs[1..]));
    }
  }

  lemma NoCommaParts(fs: seq<string>)
    requires NoComma(fs) && fs != []
    ensures ',' !in fs[0] && NoComma(fs[1..])
  {
    assert forall f | f in fs[1..] :: f in fs;
  }

  lemma TailStart(fs: seq<string>)
    requires fs != []
    ensures Tail(fs) == "" <==> |fs| == 1
    ensures Tail(fs) != "" ==> Tail(fs)[0] == ',' && Tail(fs)[1..] == Join(fs[1..])
  {
    hide Join;
  }

  lemma JoinEmpty(fs: seq<string>)
    ensures Join(fs) == "" <==> fs == [] || fs == [""]
  {
    if fs != [] {
      JoinParts(fs);
      TailStart(fs);
      hide Join, Tail;
      assert fs[0] == "" ==> fs[0] + Tail(fs) == Tail(fs);
      assert |fs| == 1 ==> fs == [fs[0]];
    }
  }

  /** Lists of names without commas are joined to one string only if they are one list, or [] and [""]. */
  lemma {:induction false} JoinIff(a: seq<string>, b: seq<string>)
    requires NoComma(a) && NoComma(b)
    ensures Join(a) == Join(b) <==> SameNames(a, b)
  {
    hide Join, Tail, NoComma;
    JoinEmpty(a);
    JoinEmpty(b);
    if a != [] && b != [] {
      JoinParts(a);
      JoinParts(b);
      TailStart(a);
      TailStart(b);
      NoCommaParts(a);
      NoCommaParts(b);
      assert a == [a[0]] + a[1..] && b == [b[0]] + b[1..];
      if Join(a) == Join(b) {
        Cut(a[0], b[0], ',', Tail(a), Tail(b));
        if |a| > 1 {
          JoinIff(a[1..], b[1..]);
        }
      }
    }
  }

  /** Without NUL in the table names a key tells the table and the joined names. */
  lemma KeyParts(t: string, fs: seq<string>, u: string, gs: seq<string>)
    requires '\0' !in t && '\0' !in u
    ensures Key(t, fs) == Key(u, gs) <==> t == u && Join(fs) == Join(gs)
  {
    if Key(t, fs) == Key(u, gs) {
      var a, b := "\0" + Join(fs), "\0" + Join(gs);
      assert t + a == Key(t, fs) && u + b == Key(u, gs);
      Cut(t, u, '\0', a, b);
      assert a[1..] == Join(fs) && b[1..] == Join(gs);
    }
  }

  /** Without NUL in table names and commas in field names a key stands for one table and one list of
      names, except that no names and the empty name alone share theirs. */
  lemma KeyIff(t: string, fs: seq<string>, u: string, gs: seq<string>)
    requires '\0' !in t && '\0' !in u && NoComma(fs) && NoComma(gs)
    ensures Key(t, fs) == Key(u, gs) <==> t == u && SameNames(fs, gs)
  {
    hide Key, Join, NoComma;
    KeyParts(t, fs, u, gs);
    JoinIff(fs, gs);
  }

  // ---- grouping ----

  function KeysOf(keep: Filter, table: string, rows: seq<Row>): seq<string> {
    if rows == [] then []
    else
      var ks, k := KeysOf(keep, table, rows[..|rows| - 1]), KeyOf(keep, table, rows[|rows| - 1]);
      if k in ks then ks else ks + [k]
  }

  /** The rows with a key, in their order. */
  function Members(keep: Filter, table: string, rows: seq<Row>, key: string): seq<Row> {
    if rows == [] then []
    else
      var init, r := rows[..|rows| - 1], rows[|rows| - 1];
      Members(keep, table, init, key) + if KeyOf(keep, table, r) == key then [r] else []
  }

  lemma {:induction false} MembersHaveKey(keep: Filter, table: string, rows: seq<Row>, key: string)
    ensures forall r | r in Members(keep, table, rows, key) :: r in rows && KeyOf(keep, table, r) == key
    ensures Members(keep, table, rows, key) != [] <==> key in KeysOf(keep, table, rows)
  {
    if rows != [] {
      MembersHaveKey(keep, table, rows[..|rows| - 1], key);
    }
  }

  lemma {:induction false} KeysDistinct(keep: Filter, table: string, rows: seq<Row>)
    ensures forall i, j | 0 <= i < j < |KeysOf(keep, table, rows)| ::
              KeysOf(keep, table, rows)[i] != KeysOf(keep, table, rows)[j]
    ensures forall r | r in rows :: KeyOf(keep, table, r) in KeysOf(keep, table, rows)
  {
    if rows != [] {
      KeysDistinct(keep, table, rows[..|rows| - 1]);
      assert forall r | r in rows :: r in rows[..|rows| - 1] || r == rows[|rows| - 1];
    }
  }

  lemma {:induction false} MembersAll(keep: Filter, table: string, rows: seq<Row>, r: Row)
    requires r in rows
    ensures r in Members(keep, table, rows, KeyOf(keep, table, r))
  {
    var n := |rows| - 1;
    if r != rows[n] {
      assert rows == rows[..n] + [rows[n]];
      MembersAll(keep, table, rows[..n], r);
    }
  }

  lemma {:induction false} JoinComma(pre: seq<string>, a: string, b: string, post: seq<string>)
    ensures Join(pre + [a + "," + b] + post) == Join(pre + [a, b] + post)
  {
    var x, y := pre + [a + "," + b] + post, pre + [a, b] + post;
    if pre == [] {
      assert x[1..] == post && y[1..] == [b] + post && y[1..][1..] == post;
    } else {
      JoinComma(pre[1..], a, b, post);
      assert x[1..] == pre[1..] + [a + "," + b] + post && y[1..] == pre[1..] + [a, b] + post;
    }
  }

  /** A comma in a field name, wherever it stands, puts two rows with different fields in one group. */
  lemma CommaMerges(keep: Filter, table: string, rows: seq<Row>, r: Row, q: Row, pre: seq<string>, a: string,
      b: string, post: seq<string>)
    requires r in rows && q in rows && TableOf(table, r) == TableOf(table, q)
    requires FieldsOf(keep, table, r) == pre + [a + "," + b] + post && FieldsOf(keep, table, q) == pre + [a, b] + post
    ensures FieldsOf(keep, table, r) != FieldsOf(keep, table, q)
    ensures var k := KeyOf(keep, table, r);
      k in KeysOf(keep, table, rows) && r in Members(keep, table, rows, k) && q in Members(keep, table, rows, k)
  {
    hide Join, KeysOf;
    JoinComma(pre, a, b, post);
    MembersAll(keep, table, rows, r);
    MembersAll(keep, table, rows, q);
    MembersHaveKey(keep, table, rows, KeyOf(keep, table, r));
    assert |FieldsOf(keep, table, r)| != |FieldsOf(keep, table, q)|;
  }

  lemma GroupOne(keep: Filter, table: string, rows: seq<Row>, r: Row, key: string)
    ensures Members(keep, table, rows + [r], key) ==
      Members(keep, table, rows, key) + if KeyOf(keep, table, r) == key then [r] else []
    ensures KeysOf(keep, table, rows + [r]) ==
      if KeyOf(keep, table, r) in KeysOf(keep, table, rows) then KeysOf(keep, table, rows)
      else KeysOf(keep, table, rows) + [KeyOf(keep, table, r)]
  {
    assert (rows + [r])[..|rows|] == rows;
  }

  function Cat(keep: Filter, table: string, rows: seq<Row>, ks: seq<string>): seq<Row> {
    if ks == [] then [] else Members(keep, table, rows, ks[0]) + Cat(keep, table, rows, ks[1..])
  }

  lemma {:induction false} CatOne(keep: Filter, table: string, rows: seq<Row>, r: Row, ks: seq<string>)
    requires forall i, j | 0 <= i < j < |ks| :: ks[i] != ks[j]
    ensures multiset(Cat(keep, table, rows + [r], ks)) ==
      multiset(Cat(keep, table, rows, ks)) + if KeyOf(keep, table, r) in ks then multiset{r} else multiset{}
  {
    hide Members, KeysOf;
    if ks != [] {
      GroupOne(keep, table, rows, r, ks[0]);
      CatOne(keep, table, rows, r, ks[1..]);
      assert ks == [ks[0]] + ks[1..];
    }
  }

  lemma {:induction false} CatNew(keep: Filter, table: string, rows: seq<Row>, ks: seq<string>, k: string)
    requires Members(keep, table, rows, k) == []
    ensures Cat(keep, table, rows, ks + [k]) == Cat(keep, table, rows, ks)
  {
    if ks == [] {
      assert (ks + [k])[1..] == [];
    } else {
      CatNew(keep, table, rows, ks[1..], k);
      assert (ks + [k])[1..] == ks[1..] + [k];
    }
  }

  /** Grouping is a partition: every row is in exactly one group, exactly as often as it was given. */
  lemma {:induction false} Partition(keep: Filter, table: string, rows: seq<Row>)
    ensures multiset(Cat(keep, table, rows, KeysOf(keep, table, rows))) == multiset(rows)
  {
    if rows != [] {
      var init, r := rows[..|rows| - 1], rows[|rows| - 1];
      assert rows == init + [r];
      Partition(keep, table, init);
      KeysDistinct(keep, table, rows);
      var ks := KeysOf(keep, table, init);
      GroupOne(keep, table, init, r, "");
      CatOne(keep, table, init, r, KeysOf(keep, table, rows));
      if KeyOf(keep, table, r) !in ks {
        MembersHaveKey(keep, table, init, KeyOf(keep, table, r));
        CatNew(keep, table, init, ks, KeyOf(keep, table, r));
      }
    }
  }

  /** groupRowsForInsert. */
  method GroupRows(keep: Filter, table: string, rows: seq<Row>) returns (out: seq<Group>)
    ensures |out| == |KeysOf(keep, table, rows)|
    ensures forall i | 0 <= i < |out| :: Filled(keep, table, rows, KeysOf(keep, table, rows)[i], out[i])
    ensures forall g | g in out ::
      && g.rows != [] && g.table == (if table != "" then table else g.rows[0].table)
      && g.fields == keep(g.table, g.rows[0].names)
  {
    hide Members, KeysOf, Filled, Join;
    var groups: map<string, Group>, order := map[], [];
    NoRows(keep, table, rows[..0]);
    for n := 0 to |rows|
      invariant order == KeysOf(keep, table, rows[..n])
      invariant forall k :: k in groups <==> k in order
      invariant forall k | k in groups :: Filled(keep, table, rows[..n], k, groups[k])
    {
      var row := rows[n];
      ghost var before := rows[..n];
      assert rows[..n + 1] == before + [row];
      var t := if table == "" then row.table else table;
      var fields := keep(t, row.names);
      var key := t + "\0" + Join(fields);
      GroupOne(keep, table, before, row, key);
      if key !in groups {
        FilledNew(keep, table, before, row);
        groups := groups[key := Group(t, fields, [])];
        order := order + [key];
      } else {
        FilledMore(keep, table, before, row, groups[key]);
      }
      ghost var was := groups;
      var g := groups[key];
      groups := groups[key := g.(rows := g.rows + [row])];
      forall k | k in groups ensures Filled(keep, table, rows[..n + 1], k, groups[k]) {
        if k != key {
          FilledOther(keep, table, before, row, k, groups[k]);
        }
      }
    }
    assert rows[..|rows|] == rows;
    out := [];
    for n := 0 to |order|
      invariant |out| == n && forall i | 0 <= i < n :: out[i] == groups[order[i]]
    {
      out := out + [groups[order[n]]];
    }
    forall i | 0 <= i < |out|
      ensures out[i].rows != [] && out[i].table == (if table != "" then table else out[i].rows[0].table)
      ensures out[i].fields == keep(out[i].table, out[i].rows[0].names)
    {
      FilledHead(keep, table, rows, order[i], out[i]);
    }
  }

  lemma FilledHead(keep: Filter, table: string, rows: seq<Row>, k: string, g: Group)
    requires Filled(keep, table, rows, k, g)
    ensures g.rows != [] && g.table == (if table != "" then table else g.rows[0].table)
    ensures g.fields == keep(g.table, g.rows[0].names)
  {
  }

  lemma NoRows(keep: Filter, table: string, rows: seq<Row>)
    requires rows == []
    ensures KeysOf(keep, table, rows) == []
  {
  }

  lemma FilledNew(keep: Filter, table: string, rows: seq<Row>, r: Row)
    requires KeyOf(keep, table, r) !in KeysOf(keep, table, rows)
    ensures Filled(keep, table, rows + [r], KeyOf(keep, table, r),
      Group(TableOf(table, r), FieldsOf(keep, table, r), [] + [r]))
  {
    hide KeysOf;
    MembersHaveKey(keep, table, rows, KeyOf(keep, table, r));
    GroupOne(keep, table, rows, r, KeyOf(keep, table, r));
  }

  lemma FilledMore(keep: Filter, table: string, rows: seq<Row>, r: Row, g: Group)
    requires Filled(keep, table, rows, KeyOf(keep, table, r), g)
    ensures Filled(keep, table, rows + [r], KeyOf(keep, table, r), g.(rows := g.rows + [r]))
  {
    hide Members, KeysOf;
    GroupOne(keep, table, rows, r, KeyOf(keep, table, r));
  }

  lemma FilledOther(keep: Filter, table: string, rows: seq<Row>, r: Row, k: string, g: Group)
    requires Filled(keep, table, rows, k, g) && k != KeyOf(keep, table, r)
    ensures Filled(keep, table, rows + [r], k, g)
  {
    hide Members, KeysOf;
    GroupOne(keep, table, rows, r, k);
  }

  /** A group holds exactly the rows with its key, in their order, and the table and fields of the first. */
  ghost predicate Filled(keep: Filter, table: string, rows: seq<Row>, k: string, g: Group) {
    && g.rows == Members(keep, table, rows, k) && g.rows != []
    && g.table == TableOf(table, g.rows[0]) && g.fields == FieldsOf(keep, table, g.rows[0])
  }

  /** Without commas in their names the rows of a group have one table and one list of names, or no names
      and the empty name alone. */
  lemma GroupIsUniform(keep: Filter, table: string, rows: seq<Row>, key: string, r: Row, q: Row)
    requires forall x | x in rows :: '\0' !in TableOf(table, x) && NoComma(FieldsOf(keep, table, x))
    requires r in Members(keep, table, rows, key) && q in Members(keep, table, rows, key)
    ensures TableOf(table, r) == TableOf(table, q)
    ensures SameNames(FieldsOf(keep, table, r), FieldsOf(keep, table, q))
  {
    hide NoComma;
    MembersHaveKey(keep, table, rows, key);
    KeyIff(TableOf(table, r), FieldsOf(keep, table, r), TableOf(table, q), FieldsOf(keep, table, q));
  }

  // ---- rows with fields ----

  function WithFields(keep: Filter, table: string, rows: seq<Row>): seq<Row> {
    if rows == [] then []
    else
      var init, r := WithFields(keep, table, rows[..|rows| - 1]), rows[|rows| - 1];
      if FieldsOf(keep, table, r) == [] then init else init + [r]
  }

  lemma {:induction false} WithFieldsCounts(keep: Filter, table: string, rows: seq<Row>, x: Row)
    ensures multiset(WithFields(keep, table, rows))[x] == if FieldsOf(keep, table, x) == [] then 0
      else multiset(rows)[x]
  {
    if rows != [] {
      WithFieldsCounts(keep, table, rows[..|rows| - 1], x);
      assert rows == rows[..|rows| - 1] + [rows[|rows| - 1]];
    }
  }

  lemma {:induction false} MembersCounts(keep: Filter, table: string, rows: seq<Row>, key: string, x: Row)
    ensures multiset(Members(keep, table, rows, key))[x] ==
      if KeyOf(keep, table, x) == key then multiset(rows)[x] else 0
  {
    hide KeyOf;
    if rows != [] {
      MembersCounts(keep, table, rows[..|rows| - 1], key, x);
      assert rows == rows[..|rows| - 1] + [rows[|rows| - 1]];
    }
  }

  /** No row without fields shares its group with one that has some. */
  ghost predicate Apart(keep: Filter, table: string, rows: seq<Row>) {
    forall r, q | r in rows && q in rows && KeyOf(keep, table, r) == KeyOf(keep, table, q) ::
      FieldsOf(keep, table, r) == [] <==> FieldsOf(keep, table, q) == []
  }

  /** Two rows of one table, one without fields, the other with the empty name alone. */
  predicate Clash(keep: Filter, table: string, r: Row, q: Row) {
    && TableOf(table, r) == TableOf(table, q)
    && FieldsOf(keep, table, r) == [] && FieldsOf(keep, table, q) == [""]
  }

  /** Whatever else the names are, this is the only pair that is not kept apart. */
  lemma ApartIff(keep: Filter, table: string, rows: seq<Row>)
    requires forall x | x in rows :: '\0' !in TableOf(table, x)
    ensures Apart(keep, table, rows) <==> forall r, q | r in rows && q in rows :: !Clash(keep, table, r, q)
  {
    hide Join, Key;
    forall r, q | r in rows && q in rows
      ensures KeyOf(keep, table, r) == KeyOf(keep, table, q) && FieldsOf(keep, table, r) == [] ==>
        FieldsOf(keep, table, q) == [] || Clash(keep, table, r, q)
      ensures Clash(keep, table, r, q) ==> KeyOf(keep, table, r) == KeyOf(keep, table, q)
    {
      KeyParts(TableOf(table, r), FieldsOf(keep, table, r), TableOf(table, q), FieldsOf(keep, table, q));
      JoinEmpty(FieldsOf(keep, table, r));
      JoinEmpty(FieldsOf(keep, table, q));
    }
  }
}
