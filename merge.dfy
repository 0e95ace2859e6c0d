/** The staging upsert's SQL (src/statusbrew_pipeline/bq.py): table paths, the
    clauses `_merge` builds from its column lists, the MERGE statement's text,
    and the effect that statement has on a target table (the `<merge statement>`
    of ISO/IEC 9075-2 as BigQuery runs it). */
module Merge {
  import opened Strings
  import opened PyValues
  import opened Models

  // ---------------------------------------------------------------------------
  // Names

  /** `table_path(table)`: `project.dataset.table`. */
  function TablePath(project: string, dataset: string, table: string): string {
    project + "." + dataset + "." + table
  }

  /** A path is the three names joined by dots, so when the project and the
      dataset hold no dot, splitting it at its dots gives them back, followed by
      the pieces of the table name. */
  lemma TablePathSplits(project: string, dataset: string, table: string)
    requires '.' !in project && '.' !in dataset
    ensures Split(TablePath(project, dataset, table), '.') == [project, dataset] + Split(table, '.')
  {
    assert TablePath(project, dataset, table) == project + ['.'] + (dataset + ['.'] + table);
    SplitAround(project, dataset + ['.'] + table, '.');
    SplitAround(dataset, table, '.');
  }

  /** The name `_load_temp_table` gives its scratch table: `tmp_` and a uuid4 in hex. */
  function TempTableName(hex: string): (r: string)
    ensures |r| == |hex| + 4 && r[..4] == "tmp_" && r[4..] == hex
  {
    "tmp_" + hex
  }

  /** A scratch table lives in the target tables' project and dataset. */
  lemma TempTableInDataset(project: string, dataset: string, target: string, hex: string)
    requires '.' !in project && '.' !in dataset && '.' !in hex
    ensures var temp := Split(TablePath(project, dataset, TempTableName(hex)), '.');
      temp == [project, dataset, TempTableName(hex)] && temp[..2] == Split(TablePath(project, dataset, target), '.')[..2]
  {
    TablePathSplits(project, dataset, TempTableName(hex));
    TablePathSplits(project, dataset, target);
    assert '.' !in TempTableName(hex) by {
      assert TempTableName(hex) == "tmp_" + hex;
    }
    SplitNoSeparator(TempTableName(hex), '.');
  }

  // ---------------------------------------------------------------------------
  // Column lists

  function Names(cols: seq<Column>): (r: seq<string>)
    ensures |r| == |cols| && forall i :: 0 <= i < |cols| ==> r[i] == cols[i].Name()
  {
    if cols == [] then [] else [cols[0].Name()] + Names(cols[1..])
  }

  /** `[c for c in cols if c not in drop]`: the columns of `cols` outside `drop`,
      in their order. */
  function Without(cols: seq<Column>, drop: set<Column>): (r: seq<Column>)
    ensures forall c :: c in r <==> c in cols && c !in drop
    ensures |r| <= |cols|
  {
    if cols == [] then []
    else if cols[0] in drop then Without(cols[1..], drop)
    else [cols[0]] + Without(cols[1..], drop)
  }

  /** `update_columns or [c for c in all_columns if c not in key_columns]`:
      `None` and an empty list both select the default. */
  function UpdateColumns(update: Option<seq<Column>>, all: seq<Column>, keys: seq<Column>): (r: seq<Column>)
    ensures update.Some? && update.value != [] ==> r == update.value
    ensures update.None? || update.value == [] ==> forall c :: c in r <==> c in all && c !in keys
  {
    if update.Some? && update.value != [] then update.value else Without(all, set c | c in keys)
  }

  /** The callers' lists drop `created_at` as well, so a non-empty caller list
      never updates `created_at`; an empty one falls back to the default, which
      does update it when the schema has it. */
  lemma UpdateColumnsCreatedAt(all: seq<Column>, keys: seq<Column>)
    ensures var callers := Without(all, (set c | c in keys) + {CreatedAt});
      && (callers != [] ==> CreatedAt !in UpdateColumns(Some(callers), all, keys))
      && (callers == [] && CreatedAt in all && CreatedAt !in keys ==> CreatedAt in UpdateColumns(Some(callers), all, keys))
  {
  }

  /** `T.k = S.k` for one key column. */
  function KeyCondition(c: Column): string {
    "T." + c.Name() + " = S." + c.Name()
  }

  function Conditions(keys: seq<Column>): (r: seq<string>)
    ensures |r| == |keys| && forall i :: 0 <= i < |keys| ==> r[i] == KeyCondition(keys[i])
  {
    if keys == [] then [] else [KeyCondition(keys[0])] + Conditions(keys[1..])
  }

  /** `col=S.col` for one update column. */
  function Assignment(c: Column): string {
    c.Name() + "=S." + c.Name()
  }

  function Assignments(cols: seq<Column>): (r: seq<string>)
    ensures |r| == |cols| && forall i :: 0 <= i < |cols| ==> r[i] == Assignment(cols[i])
  {
    if cols == [] then [] else [Assignment(cols[0])] + Assignments(cols[1..])
  }

  function SourceValues(cols: seq<Column>): (r: seq<string>)
    ensures |r| == |cols| && forall i :: 0 <= i < |cols| ==> r[i] == "S." + cols[i].Name()
  {
    if cols == [] then [] else ["S." + cols[0].Name()] + SourceValues(cols[1..])
  }

  function OnClause(keys: seq<Column>): string {
    Join(Conditions(keys), " AND ")
  }

  function UpdateClause(cols: seq<Column>): string {
    Join(Assignments(cols), ", ")
  }

  function InsertColumns(cols: seq<Column>): string {
    Join(Names(cols), ", ")
  }

  function InsertValues(cols: seq<Column>): string {
    Join(SourceValues(cols), ", ")
  }

  // ---------------------------------------------------------------------------
  // Reading a `", "`-separated list back

  /** The items of a `", "`-separated list: split at the commas, each piece stripped. */
  function ListItems(s: string): seq<string> {
    StripAll(Split(s, ','))
  }

  /** `[x.strip() for x in xs]`. */
  function StripAll(xs: seq<string>): seq<string> {
    seq(|xs|, i requires 0 <= i < |xs| => Strip(xs[i]))
  }

  /** Items fit in a `", "`-separated list when none is empty, holds a comma or
      has white space at either end. */
  predicate ListSafe(xs: seq<string>) {
    forall i :: 0 <= i < |xs| ==> xs[i] != [] && ',' !in xs[i] && Unpadded(xs[i])
  }

  /** `", ".join(xs)` is the items joined by `","` with a blank before every
      item but the first. */
  function Spaced(xs: seq<string>): (r: seq<string>)
    ensures |r| == |xs|
    ensures xs != [] ==> r[0] == xs[0]
    ensures forall i :: 1 <= i < |xs| ==> r[i] == " " + xs[i]
  {
    if xs == [] then [] else [xs[0]] + Blanked(xs[1..])
  }

  function Blanked(xs: seq<string>): (r: seq<string>)
    ensures |r| == |xs| && forall i :: 0 <= i < |xs| ==> r[i] == " " + xs[i]
  {
    if xs == [] then [] else [" " + xs[0]] + Blanked(xs[1..])
  }

  lemma JoinSpaced(xs: seq<string>)
    ensures Join(xs, ", ") == Join(Spaced(xs), ",")
  {
    if |xs| > 1 {
      var ys := Spaced(xs);
      assert ys[1..] == Blanked(xs[1..]);
      JoinBlanked(xs[1..]);
      calc {
        Join(xs, ", ");
        xs[0] + ", " + Join(xs[1..], ", ");
        xs[0] + (", " + Join(xs[1..], ", "));
        xs[0] + ("," + Join(Blanked(xs[1..]), ","));
        xs[0] + "," + Join(ys[1..], ",");
        Join(ys, ",");
      }
    }
  }

  lemma {:induction false} JoinBlanked(xs: seq<string>)
    requires xs != []
    ensures ", " + Join(xs, ", ") == "," + Join(Blanked(xs), ",")
  {
    var bs := Blanked(xs);
    if |xs| == 1 {
      assert ", " + xs[0] == "," + (" " + xs[0]);
    } else {
      assert bs[1..] == Blanked(xs[1..]);
      JoinBlanked(xs[1..]);
      calc {
        ", " + Join(xs, ", ");
        ", " + (xs[0] + ", " + Join(xs[1..], ", "));
        ", " + xs[0] + (", " + Join(xs[1..], ", "));
        ", " + xs[0] + ("," + Join(Blanked(xs[1..]), ","));
        "," + (" " + xs[0] + "," + Join(bs[1..], ","));
        "," + Join(bs, ",");
      }
    }
  }

  /** A list rendered with `", ".join` reads back as the items it was made of. */
  lemma ListItemsJoin(xs: seq<string>)
    requires xs != [] && ListSafe(xs)
    ensures ListItems(Join(xs, ", ")) == xs
  {
    JoinSpaced(xs);
    var ys := Spaced(xs);
    forall i | 0 <= i < |ys|
      ensures ',' !in ys[i]
    {
      if i > 0 {
        assert ys[i] == " " + xs[i];
      }
    }
    SplitJoin(ys, ',');
    forall i | 0 <= i < |ys|
      ensures Strip(ys[i]) == xs[i]
    {
      StripUnpadded(xs[i]);
      if i > 0 {
        StripBlank(xs[i]);
      }
    }
  }

  lemma StripBlank(s: string)
    requires s != [] && Unpadded(s)
    ensures Strip(" " + s) == s
  {
    assert (" " + s)[1..] == s;
    StripUnpadded(s);
  }

  /** The INSERT column list names `all_columns` in order. */
  lemma InsertColumnsRead(cols: seq<Column>)
    requires cols != [] && ListSafe(Names(cols))
    ensures ListItems(InsertColumns(cols)) == Names(cols)
  {
    ListItemsJoin(Names(cols));
  }

  /** The VALUES list takes `S.col` for each of `all_columns`, in the same order. */
  lemma InsertValuesRead(cols: seq<Column>)
    requires cols != [] && ListSafe(Names(cols))
    ensures ListItems(InsertValues(cols)) == SourceValues(cols)
  {
    var vs := SourceValues(cols);
    forall i | 0 <= i < |vs|
      ensures vs[i] != [] && ',' !in vs[i] && Unpadded(vs[i])
    {
      SourceValueSafe(cols[i].Name());
    }
    ListItemsJoin(vs);
  }

  lemma SourceValueSafe(name: string)
    requires name != [] && ',' !in name && Unpadded(name)
    ensures var v := "S." + name; v != [] && ',' !in v && Unpadded(v)
  {
    var v := "S." + name;
    assert v[|v| - 1] == name[|name| - 1];
    assert forall k :: 2 <= k < |v| ==> v[k] == name[k - 2];
  }

  // ---------------------------------------------------------------------------
  // The statement

  /** A MERGE as `_merge` builds it: target and staging paths, the key columns
      of the ON clause, the columns set on a match and the columns inserted. */
  datatype MergeStatement = MergeStatement(
    target: string,
    source: string,
    on: seq<Column>,
    update: seq<Column>,
    insert: seq<Column>)

  /** `_merge(target_table, temp_table, key_columns, all_columns, update_columns)`
      up to the query it sends. */
  function BuildMerge(project: string, dataset: string, target: string, temp: string,
                      keys: seq<Column>, all: seq<Column>, update: Option<seq<Column>>): (m: MergeStatement)
    ensures m.target == TablePath(project, dataset, target) && m.source == TablePath(project, dataset, temp)
    ensures m.on == keys && m.insert == all
    ensures m.update == UpdateColumns(update, all, keys)
  {
    MergeStatement(TablePath(project, dataset, target), TablePath(project, dataset, temp),
      keys, UpdateColumns(update, all, keys), all)
  }

  /** The query text `_merge` sends: its lines, joined by line breaks. */
  function Render(m: MergeStatement): string {
    Join(Lines(m), "\n")
  }

  function Lines(m: MergeStatement): seq<string> {
    [ "",
      "        MERGE `" + m.target + "` AS T",
      "        USING `" + m.source + "` AS S",
      "        ON " + OnClause(m.on),
      "        WHEN MATCHED THEN",
      "          UPDATE SET " + UpdateClause(m.update),
      "        WHEN NOT MATCHED THEN",
      "          INSERT (" + InsertColumns(m.insert) + ")",
      "          VALUES (" + InsertValues(m.insert) + ")",
      "        " ]
  }

  // ---------------------------------------------------------------------------
  // Reading the statement back

  /** A column name that is one word: no white space and no comma. */
  predicate Word(s: string) {
    s != [] && forall k :: 0 <= k < |s| ==> !IsSpace(s[k]) && s[k] != ','
  }

  predicate WordNames(cols: seq<Column>) {
    forall i :: 0 <= i < |cols| ==> Word(cols[i].Name())
  }

  /** The words of an ON clause: `T.k`, `=`, `S.k` for every key, in key
      order, with `AND` between two keys. */
  function OnWords(keys: seq<Column>): (r: seq<string>)
    requires keys != []
    ensures |r| == 4 * |keys| - 1
    ensures r[..3] == ["T." + keys[0].Name(), "=", "S." + keys[0].Name()]
  {
    var eq := ["T." + keys[0].Name(), "=", "S." + keys[0].Name()];
    if |keys| == 1 then eq else eq + ["AND"] + OnWords(keys[1..])
  }

  lemma {:induction false} OnClauseSpaced(keys: seq<Column>)
    requires keys != []
    ensures OnClause(keys) == Join(OnWords(keys), " ")
  {
    var n := keys[0].Name();
    var eq := ["T." + n, "=", "S." + n];
    KeyConditionWords(keys[0]);
    if |keys| > 1 {
      var rest := OnWords(keys[1..]);
      OnClauseSpaced(keys[1..]);
      assert Conditions(keys)[1..] == Conditions(keys[1..]);
      AndJoin(eq, rest);
    }
  }

  lemma KeyConditionWords(c: Column)
    ensures Join(["T." + c.Name(), "=", "S." + c.Name()], " ") == KeyCondition(c)
  {
    var n := c.Name();
    var eq := ["T." + n, "=", "S." + n];
    assert eq[1..][1..] == ["S." + n];
    assert Join(eq[1..], " ") == "=" + " " + ("S." + n);
  }

  lemma AndJoin(eq: seq<string>, rest: seq<string>)
    requires eq != [] && rest != []
    ensures Join(eq + ["AND"] + rest, " ") == Join(eq, " ") + " AND " + Join(rest, " ")
  {
    JoinAppend(eq, ["AND"] + rest, " ");
    assert (["AND"] + rest)[1..] == rest;
    assert eq + ["AND"] + rest == eq + (["AND"] + rest);
  }

  lemma {:induction false} OnWordsAreWords(keys: seq<Column>)
    requires keys != [] && WordNames(keys)
    ensures forall i :: 0 <= i < |OnWords(keys)| ==> ' ' !in OnWords(keys)[i]
  {
    var n := keys[0].Name();
    assert ' ' !in n by {
      assert Word(n);
    }
    if |keys| > 1 {
      OnWordsAreWords(keys[1..]);
    }
  }

  /** The ON clause, split at its blanks, is `T.k = S.k` for every key in
      order, joined by `AND`. */
  lemma OnClauseWords(keys: seq<Column>)
    requires keys != [] && WordNames(keys)
    ensures Split(OnClause(keys), ' ') == OnWords(keys)
  {
    OnClauseSpaced(keys);
    OnWordsAreWords(keys);
    SplitJoin(OnWords(keys), ' ');
  }

  lemma AssignmentSafe(n: string)
    requires Word(n)
    ensures var a := n + "=S." + n; a != [] && ',' !in a && Unpadded(a)
  {
    var a := n + "=S." + n;
    assert a[0] == n[0] && a[|a| - 1] == n[|n| - 1];
    assert forall k :: 0 <= k < |a| ==> a[k] == '=' || a[k] == 'S' || a[k] == '.' || a[k] in n;
  }

  /** The UPDATE SET list sets `col=S.col` for every update column, in order. */
  lemma UpdateClauseRead(cols: seq<Column>)
    requires cols != [] && WordNames(cols)
    ensures ListItems(UpdateClause(cols)) == Assignments(cols)
  {
    var xs := Assignments(cols);
    forall i | 0 <= i < |xs|
      ensures xs[i] != [] && ',' !in xs[i] && Unpadded(xs[i])
    {
      AssignmentSafe(cols[i].Name());
    }
    ListItemsJoin(xs);
  }

  lemma NamesSafe(cols: seq<Column>)
    requires WordNames(cols)
    ensures ListSafe(Names(cols))
  {
  }

  lemma {:induction false} ClausesOneLine(m: MergeStatement)
    requires WordNames(m.on) && WordNames(m.update) && WordNames(m.insert)
    ensures '\n' !in OnClause(m.on) && '\n' !in UpdateClause(m.update)
    ensures '\n' !in InsertColumns(m.insert) && '\n' !in InsertValues(m.insert)
  {
    assert forall i :: 0 <= i < |m.on| ==> '\n' !in Conditions(m.on)[i] by {
      forall i | 0 <= i < |m.on| ensures '\n' !in Conditions(m.on)[i] {
        assert Word(m.on[i].Name());
      }
    }
    assert forall i :: 0 <= i < |m.update| ==> '\n' !in Assignments(m.update)[i] by {
      forall i | 0 <= i < |m.update| ensures '\n' !in Assignments(m.update)[i] {
        assert Word(m.update[i].Name());
      }
    }
    assert forall i :: 0 <= i < |m.insert| ==> '\n' !in Names(m.insert)[i] && '\n' !in SourceValues(m.insert)[i] by {
      forall i | 0 <= i < |m.insert|
        ensures '\n' !in Names(m.insert)[i] && '\n' !in SourceValues(m.insert)[i]
      {
        assert Word(m.insert[i].Name());
      }
    }
    JoinAvoids(Conditions(m.on), " AND ", '\n');
    JoinAvoids(Assignments(m.update), ", ", '\n');
    JoinAvoids(Names(m.insert), ", ", '\n');
    JoinAvoids(SourceValues(m.insert), ", ", '\n');
  }

  lemma LinesOneLine(m: MergeStatement)
    requires '\n' !in m.target && '\n' !in m.source
    requires WordNames(m.on) && WordNames(m.update) && WordNames(m.insert)
    ensures forall i :: 0 <= i < |Lines(m)| ==> '\n' !in Lines(m)[i]
  {
    ClausesOneLine(m);
    HeadOneLine(m);
    TailOneLine(m);
  }

  lemma HeadOneLine(m: MergeStatement)
    requires '\n' !in m.target && '\n' !in m.source && '\n' !in OnClause(m.on)
    ensures forall i :: 0 <= i < 5 ==> '\n' !in Lines(m)[i]
  {
    var l := Lines(m);
    forall i | 0 <= i < 5 ensures '\n' !in l[i] {
      assert i in {0, 1, 2, 3, 4};
    }
  }

  lemma TailOneLine(m: MergeStatement)
    requires '\n' !in UpdateClause(m.update)
    requires '\n' !in InsertColumns(m.insert) && '\n' !in InsertValues(m.insert)
    ensures forall i :: 5 <= i < 10 ==> '\n' !in Lines(m)[i]
  {
    var l := Lines(m);
    forall i | 5 <= i < 10 ensures '\n' !in l[i] {
      assert i in {5, 6, 7, 8, 9};
    }
  }

  lemma LinesSplit(m: MergeStatement)
    requires '\n' !in m.target && '\n' !in m.source
    requires WordNames(m.on) && WordNames(m.update) && WordNames(m.insert)
    ensures Split(Render(m), '\n') == Lines(m)
  {
    LinesOneLine(m);
    SplitJoin(Lines(m), '\n');
  }

  /** Read line by line, a MERGE statement's text names its target and its
      staging table, joins on `T.k = S.k` for every key in order, sets
      `col=S.col` for every update column in order, and inserts every insert
      column from its staging value `S.col`, in order. */
  lemma RenderRead(m: MergeStatement)
    requires '\n' !in m.target && '\n' !in m.source
    requires m.on != [] && m.update != [] && m.insert != []
    requires WordNames(m.on) && WordNames(m.update) && WordNames(m.insert)
    ensures var lines := Split(Render(m), '\n');
      && |lines| == 10
      && lines[1] == "        MERGE `" + m.target + "` AS T"
      && lines[2] == "        USING `" + m.source + "` AS S"
      && |lines[3]| >= 11 && lines[3][..11] == "        ON "
      && Split(lines[3][11..], ' ') == OnWords(m.on)
      && |lines[5]| >= 21 && lines[5][..21] == "          UPDATE SET "
      && ListItems(lines[5][21..]) == Assignments(m.update)
      && |lines[7]| >= 19 && lines[7][..18] == "          INSERT (" && lines[7][|lines[7]| - 1] == ')'
      && ListItems(lines[7][18..|lines[7]| - 1]) == Names(m.insert)
      && |lines[8]| >= 19 && lines[8][..18] == "          VALUES (" && lines[8][|lines[8]| - 1] == ')'
      && ListItems(lines[8][18..|lines[8]| - 1]) == SourceValues(m.insert)
  {
    LinesSplit(m);
    OnLineRead(m);
    UpdateLineRead(m);
    InsertLinesRead(m);
  }

  lemma OnLineRead(m: MergeStatement)
    requires m.on != [] && WordNames(m.on)
    ensures var l := Lines(m)[3];
      |l| >= 11 && l[..11] == "        ON " && Split(l[11..], ' ') == OnWords(m.on)
  {
    assert Lines(m)[3][11..] == OnClause(m.on);
    OnClauseWords(m.on);
  }

  lemma UpdateLineRead(m: MergeStatement)
    requires m.update != [] && WordNames(m.update)
    ensures var l := Lines(m)[5];
      |l| >= 21 && l[..21] == "          UPDATE SET " && ListItems(l[21..]) == Assignments(m.update)
  {
    assert Lines(m)[5][21..] == UpdateClause(m.update);
    UpdateClauseRead(m.update);
  }

  lemma InsertLinesRead(m: MergeStatement)
    requires m.insert != [] && WordNames(m.insert)
    ensures var l := Lines(m)[7];
      |l| >= 19 && l[..18] == "          INSERT (" && l[|l| - 1] == ')'
      && ListItems(l[18..|l| - 1]) == Names(m.insert)
    ensures var l := Lines(m)[8];
      |l| >= 19 && l[..18] == "          VALUES (" && l[|l| - 1] == ')'
      && ListItems(l[18..|l| - 1]) == SourceValues(m.insert)
  {
    NamesSafe(m.insert);
    InsertColumnsRead(m.insert);
    InsertValuesRead(m.insert);
    Parenthesised("          INSERT (", InsertColumns(m.insert));
    Parenthesised("          VALUES (", InsertValues(m.insert));
  }

  lemma Parenthesised(head: string, x: string)
    requires |head| == 18 && x != []
    ensures var l := head + x + ")";
      |l| >= 19 && l[..18] == head && l[|l| - 1] == ')' && l[18..|l| - 1] == x
  {
  }

  /** The query `_merge` sends reads back as the MERGE of `table_path(target)`
      from `table_path(temp)` on the key columns, updating the resolved update
      columns and inserting all columns. */
  lemma RenderReadsBack(project: string, dataset: string, target: string, temp: string,
                        keys: seq<Column>, all: seq<Column>, update: Option<seq<Column>>)
    requires '\n' !in project && '\n' !in dataset && '\n' !in target && '\n' !in temp
    requires keys != [] && all != [] && UpdateColumns(update, all, keys) != []
    requires WordNames(keys) && WordNames(all) && WordNames(UpdateColumns(update, all, keys))
    ensures var lines := Split(Render(BuildMerge(project, dataset, target, temp, keys, all, update)), '\n');
      && |lines| == 10
      && lines[1] == "        MERGE `" + TablePath(project, dataset, target) + "` AS T"
      && lines[2] == "        USING `" + TablePath(project, dataset, temp) + "` AS S"
      && |lines[3]| >= 11 && Split(lines[3][11..], ' ') == OnWords(keys)
      && |lines[5]| >= 21 && ListItems(lines[5][21..]) == Assignments(UpdateColumns(update, all, keys))
      && |lines[7]| >= 19 && ListItems(lines[7][18..|lines[7]| - 1]) == Names(all)
      && |lines[8]| >= 19 && ListItems(lines[8][18..|lines[8]| - 1]) == SourceValues(all)
  {
    RenderRead(BuildMerge(project, dataset, target, temp, keys, all, update));
  }

  // ---------------------------------------------------------------------------
  // Its effect

  /** A table keyed by the values of its key columns, in key order. */
  type Key = seq<Cell>
  type Table = map<Key, Row>

  /** A column of a row; a column the row lacks reads as NULL. */
  function Get(r: Row, c: Column): Cell {
    if c in r then r[c] else Value(JNull)
  }

  function KeyOf(r: Row, on: seq<Column>): (k: Key)
    ensures |k| == |on| && forall i :: 0 <= i < |on| ==> k[i] == Get(r, on[i])
  {
    seq(|on|, i requires 0 <= i < |on| => Get(r, on[i]))
  }

  /** `WHEN MATCHED THEN UPDATE SET col = S.col, ...`. */
  function Matched(t: Row, s: Row, update: seq<Column>): (r: Row)
    ensures forall c :: c in r <==> c in t || c in update
    ensures forall c :: c in update ==> r[c] == Get(s, c)
    ensures forall c :: c in t && c !in update ==> r[c] == t[c]
  {
    t + map c | c in update :: Get(s, c)
  }

  /** `WHEN NOT MATCHED THEN INSERT (cols) VALUES (S.cols)`. */
  function Inserted(s: Row, insert: seq<Column>): (r: Row)
    ensures forall c :: c in r <==> c in insert
    ensures forall c :: c in insert ==> r[c] == Get(s, c)
  {
    map c | c in insert :: Get(s, c)
  }

  /** What one staging row does to the table. */
  function ApplyRow(t: Table, s: Row, m: MergeStatement): Table {
    var k := KeyOf(s, m.on);
    if k in t then t[k := Matched(t[k], s, m.update)] else t[k := Inserted(s, m.insert)]
  }

  /** The staging rows' effects, one after the other. */
  function ApplyAll(t: Table, source: seq<Row>, m: MergeStatement): Table
    decreases |source|
  {
    if source == [] then t else ApplyAll(ApplyRow(t, source[0], m), source[1..], m)
  }

  /** No two staging rows share a key. */
  predicate DistinctKeys(source: seq<Row>, on: seq<Column>) {
    forall i, j :: 0 <= i < j < |source| ==> KeyOf(source[i], on) != KeyOf(source[j], on)
  }

  /** The staging row with key `k`, if any (the first one). */
  function SourceFor(source: seq<Row>, on: seq<Column>, k: Key): (r: Option<Row>)
    ensures r.Some? ==> r.value in source && KeyOf(r.value, on) == k
    ensures r.None? ==> forall i :: 0 <= i < |source| ==> KeyOf(source[i], on) != k
  {
    if source == [] then None
    else if KeyOf(source[0], on) == k then Some(source[0])
    else SourceFor(source[1..], on, k)
  }

  /** The MERGE as run: a staging batch in which two rows share a key is
      refused; otherwise every staging row updates or inserts its key. */
  function MergeEffect(t: Table, source: seq<Row>, m: MergeStatement): Result<Table> {
    if DistinctKeys(source, m.on) then Ok(ApplyAll(t, source, m))
    else Err(BigQueryError(DuplicateSourceKey))
  }

  /** The declarative meaning of the MERGE: a key that a staging row carries is
      updated from it when the table had it and inserted otherwise; every other
      row is unchanged and no row disappears. */
  ghost predicate MergedFrom(r: Table, t: Table, source: seq<Row>, m: MergeStatement) {
    && (forall k :: k in r <==> k in t || SourceFor(source, m.on, k).Some?)
    && (forall k :: k in t && SourceFor(source, m.on, k).None? ==> r[k] == t[k])
    && (forall k :: SourceFor(source, m.on, k).Some? ==>
          r[k] == if k in t then Matched(t[k], SourceFor(source, m.on, k).value, m.update)
                  else Inserted(SourceFor(source, m.on, k).value, m.insert))
  }

  lemma {:induction false} ApplyAllMerges(t: Table, source: seq<Row>, m: MergeStatement)
    requires DistinctKeys(source, m.on)
    ensures MergedFrom(ApplyAll(t, source, m), t, source, m)
    decreases |source|
  {
    if source != [] {
      DistinctTail(source, m.on);
      ApplyAllMerges(ApplyRow(t, source[0], m), source[1..], m);
      MergedStep(ApplyAll(t, source, m), t, source, m);
    }
  }

  /** The rows after the first of a batch with distinct keys have distinct keys,
      none of them the first row's. */
  lemma DistinctTail(source: seq<Row>, on: seq<Column>)
    requires source != [] && DistinctKeys(source, on)
    ensures DistinctKeys(source[1..], on)
    ensures SourceFor(source[1..], on, KeyOf(source[0], on)).None?
  {
    var rest := source[1..];
    forall i, j | 0 <= i < j < |rest|
      ensures KeyOf(rest[i], on) != KeyOf(rest[j], on)
    {
      assert rest[i] == source[i + 1] && rest[j] == source[j + 1];
    }
    forall i | 0 <= i < |rest|
      ensures KeyOf(rest[i], on) != KeyOf(source[0], on)
    {
      assert rest[i] == source[i + 1];
    }
  }

  /** Applying the first staging row, then the MERGE of the rest, means the
      MERGE of the whole batch. */
  lemma MergedStep(r: Table, t: Table, source: seq<Row>, m: MergeStatement)
    requires source != []
    requires SourceFor(source[1..], m.on, KeyOf(source[0], m.on)).None?
    requires MergedFrom(r, ApplyRow(t, source[0], m), source[1..], m)
    ensures MergedFrom(r, t, source, m)
  {
    var s := source[0];
    var ks := KeyOf(s, m.on);
    forall k
      ensures SourceFor(source, m.on, k) == if k == ks then Some(s) else SourceFor(source[1..], m.on, k)
    {
    }
  }

  /** The MERGE of a batch with distinct keys satisfies its declarative meaning. */
  lemma MergeEffectMeaning(t: Table, source: seq<Row>, m: MergeStatement)
    requires DistinctKeys(source, m.on)
    ensures MergeEffect(t, source, m).Ok?
    ensures MergedFrom(MergeEffect(t, source, m).value, t, source, m)
  {
    ApplyAllMerges(t, source, m);
  }

  /** Two tables that both mean the same MERGE are equal. */
  lemma MergedFromUnique(r1: Table, r2: Table, t: Table, source: seq<Row>, m: MergeStatement)
    requires MergedFrom(r1, t, source, m) && MergedFrom(r2, t, source, m)
    ensures r1 == r2
  {
    assert r1.Keys == r2.Keys;
  }

  /** Running the same batch a second time changes nothing, as long as every
      update column is also inserted. */
  lemma MergeIdempotent(t: Table, source: seq<Row>, m: MergeStatement)
    requires DistinctKeys(source, m.on)
    requires forall c :: c in m.update ==> c in m.insert
    ensures var once := MergeEffect(t, source, m).value;
      MergeEffect(once, source, m) == Ok(once)
  {
    var once := ApplyAll(t, source, m);
    ApplyAllMerges(t, source, m);
    ApplyAllMerges(once, source, m);
    MergedAgain(once, t, source, m);
    MergedFromUnique(ApplyAll(once, source, m), once, once, source, m);
  }

  /** The result of a MERGE means the same MERGE applied to itself. */
  lemma MergedAgain(once: Table, t: Table, source: seq<Row>, m: MergeStatement)
    requires MergedFrom(once, t, source, m)
    requires forall c :: c in m.update ==> c in m.insert
    ensures MergedFrom(once, once, source, m)
  {
    forall k | SourceFor(source, m.on, k).Some?
      ensures once[k] == Matched(once[k], SourceFor(source, m.on, k).value, m.update)
    {
      var s := SourceFor(source, m.on, k).value;
      if k in t {
        MatchedTwice(t[k], s, m.update);
      } else {
        MatchedInserted(s, m.insert, m.update);
      }
    }
  }

  lemma MatchedTwice(t: Row, s: Row, update: seq<Column>)
    ensures Matched(Matched(t, s, update), s, update) == Matched(t, s, update)
  {
  }

  lemma MatchedInserted(s: Row, insert: seq<Column>, update: seq<Column>)
    requires forall c :: c in update ==> c in insert
    ensures Matched(Inserted(s, insert), s, update) == Inserted(s, insert)
  {
  }

  /** A matched row keeps its `created_at` when `created_at` is not updated, and
      rows the batch does not touch keep everything. */
  lemma MergeKeepsCreatedAt(t: Table, source: seq<Row>, m: MergeStatement, k: Key)
    requires DistinctKeys(source, m.on)
    requires CreatedAt !in m.update
    requires k in t && CreatedAt in t[k]
    ensures var r := MergeEffect(t, source, m).value;
      k in r && CreatedAt in r[k] && r[k][CreatedAt] == t[k][CreatedAt]
  {
    ApplyAllMerges(t, source, m);
  }

  /** Each row sits under its own key. */
  predicate KeyedBy(t: Table, on: seq<Column>) {
    forall k :: k in t ==> KeyOf(t[k], on) == k
  }

  /** A MERGE that inserts its key columns keeps every row under its own key. */
  lemma MergeKeepsKeys(t: Table, source: seq<Row>, m: MergeStatement)
    requires DistinctKeys(source, m.on) && KeyedBy(t, m.on)
    requires forall c :: c in m.on ==> c in m.insert
    ensures KeyedBy(MergeEffect(t, source, m).value, m.on)
  {
    var r := ApplyAll(t, source, m);
    ApplyAllMerges(t, source, m);
    forall k | k in r
      ensures KeyOf(r[k], m.on) == k
    {
      var sk := SourceFor(source, m.on, k);
      if sk.Some? {
        var s := sk.value;
        forall i | 0 <= i < |m.on|
          ensures Get(r[k], m.on[i]) == k[i]
        {
          var c := m.on[i];
          assert c in m.insert;
          assert KeyOf(s, m.on)[i] == k[i];
          if k in t {
            assert KeyOf(t[k], m.on)[i] == k[i];
          }
        }
      }
    }
  }
}
