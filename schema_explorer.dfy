/** The SQL Server explorer (mcp-server/src/main.py): the `schema://main`
    resource folds the flat rows of a catalog query into an insertion-ordered
    dictionary from table name to the list of its column descriptors, and the
    `query_data` tool joins the printed rows of a query with newlines.

    A Python dictionary is modelled by its keys in insertion order together
    with a `map` from key to value. The database round trip is an input: the
    rows it fetched, or the text of the exception it raised. */
module SchemaExplorer {
  import opened Wrappers
  import opened Text

  /** One row of the schema query: table, column, type name, `max_length`,
      `is_nullable` (`row[0]` to `row[4]`). */
  datatype CatalogRow = CatalogRow(
    table: string,
    column: string,
    dataType: string,
    maxLength: int,
    nullable: bool)

  /** The dictionary `{"column", "type", "length", "nullable"}` built for one row. */
  datatype ColumnInfo = ColumnInfo(column: string, dataType: string, length: int, nullable: bool)

  /** The descriptor the loop appends for a row: fields `row[1]` to `row[4]`. */
  function Describe(row: CatalogRow): (info: ColumnInfo)
    ensures Attach(row.table, info) == row
  {
    ColumnInfo(row.column, row.dataType, row.maxLength, row.nullable)
  }

  /** The inverse of `Describe`: puts the table name back in front. */
  function Attach(table: string, info: ColumnInfo): CatalogRow
  {
    CatalogRow(table, info.column, info.dataType, info.length, info.nullable)
  }

  // ---------------------------------------------------------------------------
  // What the grouping loop computes, stated one row at a time

  /** The table names in order of first occurrence: the key order of the dictionary. */
  function TableOrder(rows: seq<CatalogRow>): seq<string>
  {
    if rows == [] then []
    else
      var prior := TableOrder(rows[..|rows| - 1]);
      var t := rows[|rows| - 1].table;
      if t in prior then prior else prior + [t]
  }

  /** The descriptors of the rows of table `t`, in row order. */
  function ColumnsOf(rows: seq<CatalogRow>, t: string): seq<ColumnInfo>
  {
    if rows == [] then []
    else
      var prior := ColumnsOf(rows[..|rows| - 1], t);
      var last := rows[|rows| - 1];
      if last.table == t then prior + [Describe(last)] else prior
  }

  /** The value part of the schema dictionary. */
  function SchemaOf(rows: seq<CatalogRow>): map<string, seq<ColumnInfo>>
  {
    map t | t in TableOrder(rows) :: ColumnsOf(rows, t)
  }

  /** The `for row in schema_info` loop of `get_schema`: a key is inserted with
      an empty list the first time its table is seen, and every row appends its
      descriptor to the list of its table. */
  method GroupColumns(rows: seq<CatalogRow>) returns (tables: seq<string>, schema: map<string, seq<ColumnInfo>>)
    ensures tables == TableOrder(rows)
    ensures schema == SchemaOf(rows)
  {
    tables, schema := [], map[];
    for i := 0 to |rows|
      invariant tables == TableOrder(rows[..i])
      invariant schema == SchemaOf(rows[..i])
    {
      var row := rows[i];
      var tableName := row.table;
      if tableName !in schema {
        schema := schema[tableName := []];
        tables := tables + [tableName];
      }
      schema := schema[tableName := schema[tableName] + [Describe(row)]];
      assert rows[..i + 1] == rows[..i] + [row];
      SchemaStep(rows[..i], row);
    }
    assert rows[..|rows|] == rows;
  }

  /** The effect of one more row on the key order and on the dictionary. */
  lemma SchemaStep(rows: seq<CatalogRow>, row: CatalogRow)
    ensures TableOrder(rows + [row]) ==
      if row.table in TableOrder(rows) then TableOrder(rows) else TableOrder(rows) + [row.table]
    ensures SchemaOf(rows + [row]) ==
      SchemaOf(rows)[row.table := (if row.table in SchemaOf(rows) then SchemaOf(rows)[row.table] else []) + [Describe(row)]]
  {
    var all := rows + [row];
    assert all[..|rows|] == rows;
    ColumnsPresent(rows, row.table);
    var expected := SchemaOf(rows)[row.table := (if row.table in SchemaOf(rows) then SchemaOf(rows)[row.table] else []) + [Describe(row)]];
    assert SchemaOf(all).Keys == expected.Keys;
    forall k | k in expected ensures SchemaOf(all)[k] == expected[k] {
    }
  }

  // ---------------------------------------------------------------------------
  // Properties of the grouping

  /** Python's `x in seq(...)` over the table column of a prefix. */
  ghost predicate Occurs(rows: seq<CatalogRow>, t: string)
  {
    exists i :: 0 <= i < |rows| && rows[i].table == t
  }

  /** The keys are exactly the table names of the input rows. */
  lemma {:induction false} KeysAreTableNames(rows: seq<CatalogRow>, t: string)
    ensures t in TableOrder(rows) <==> Occurs(rows, t)
    ensures t in SchemaOf(rows) <==> Occurs(rows, t)
  {
    if rows != [] {
      var init := rows[..|rows| - 1];
      KeysAreTableNames(init, t);
      if Occurs(init, t) {
        var i :| 0 <= i < |init| && init[i].table == t;
        assert rows[i].table == t;
      }
      if Occurs(rows, t) && rows[|rows| - 1].table != t {
        var i :| 0 <= i < |rows| && rows[i].table == t;
        assert init[i].table == t;
      }
    }
  }

  /** No table name is a key twice. */
  lemma {:induction false} KeysDistinct(rows: seq<CatalogRow>)
    ensures Distinct(TableOrder(rows))
  {
    if rows != [] {
      KeysDistinct(rows[..|rows| - 1]);
    }
  }

  ghost predicate Distinct(tables: seq<string>)
  {
    forall a, b :: 0 <= a < b < |tables| ==> tables[a] != tables[b]
  }

  /** Keys come in order of first occurrence: wherever a later key's table
      appears in the input, an earlier key's table has appeared before it. */
  lemma {:induction false} KeysInFirstOccurrenceOrder(rows: seq<CatalogRow>)
    ensures var order := TableOrder(rows);
      forall a, b, j :: 0 <= a < b < |order| && 0 <= j < |rows| && rows[j].table == order[b] ==>
        Occurs(rows[..j], order[a])
  {
    if rows != [] {
      var n := |rows|;
      var init := rows[..n - 1];
      var r := rows[n - 1];
      var prior := TableOrder(init);
      var order := TableOrder(rows);
      KeysInFirstOccurrenceOrder(init);
      forall a, b, j | 0 <= a < b < |order| && 0 <= j < n && rows[j].table == order[b]
        ensures Occurs(rows[..j], order[a])
      {
        assert order[a] == prior[a];
        KeysAreTableNames(init, order[a]);
        if b < |prior| && j < n - 1 {
          assert init[j] == rows[j];
          assert init[..j] == rows[..j];
        } else if b < |prior| {
          assert rows[..j] == init;
        } else {
          assert order[b] == r.table && r.table !in prior;
          KeysAreTableNames(init, r.table);
          assert j == n - 1;
          assert rows[..j] == init;
        }
      }
    }
  }

  /** Every key's list is non-empty, and a table name that is not a key has no
      descriptors. */
  lemma {:induction false} ColumnsPresent(rows: seq<CatalogRow>, t: string)
    ensures ColumnsOf(rows, t) != [] <==> t in TableOrder(rows)
  {
    if rows != [] {
      ColumnsPresent(rows[..|rows| - 1], t);
    }
  }

  /** The positions, in increasing order, of the rows of table `t`. */
  ghost function RowsOf(rows: seq<CatalogRow>, t: string): seq<int>
  {
    if rows == [] then []
    else RowsOf(rows[..|rows| - 1], t) + (if rows[|rows| - 1].table == t then [|rows| - 1] else [])
  }

  /** The list of table `t` holds one descriptor per row of `t`, taken field
      by field from that row, in the order of the rows. */
  lemma {:induction false} ColumnsFollowRows(rows: seq<CatalogRow>, t: string)
    ensures var ix := RowsOf(rows, t); var cols := ColumnsOf(rows, t);
      && |ix| == |cols|
      && (forall k :: 0 <= k < |ix| ==>
            0 <= ix[k] < |rows| && rows[ix[k]].table == t && cols[k] == Describe(rows[ix[k]]))
      && (forall k, l :: 0 <= k < l < |ix| ==> ix[k] < ix[l])
      && (forall i :: 0 <= i < |rows| && rows[i].table == t ==> i in ix)
  {
    if rows != [] {
      var n := |rows|;
      var init := rows[..n - 1];
      ColumnsFollowRows(init, t);
      var ix := RowsOf(rows, t);
      var prior := RowsOf(init, t);
      forall k | 0 <= k < |prior| ensures rows[prior[k]] == init[prior[k]] {
      }
      forall i | 0 <= i < n && rows[i].table == t ensures i in ix {
        if i < n - 1 {
          assert init[i] == rows[i];
        }
      }
    }
  }

  // ---------------------------------------------------------------------------
  // Flattening the dictionary back into rows

  /** The rows obtained by putting each key back in front of its descriptors. */
  function Ungroup(tables: seq<string>, schema: map<string, seq<ColumnInfo>>): seq<CatalogRow>
    requires forall k :: k in tables ==> k in schema
  {
    if tables == [] then []
    else
      var t := tables[|tables| - 1];
      Ungroup(tables[..|tables| - 1], schema) + AttachAll(t, schema[t])
  }

  function AttachAll(t: string, infos: seq<ColumnInfo>): (rows: seq<CatalogRow>)
    ensures |rows| == |infos|
  {
    seq(|infos|, i requires 0 <= i < |infos| => Attach(t, infos[i]))
  }

  /** The total length of the lists of the given keys. */
  function ColumnCount(tables: seq<string>, schema: map<string, seq<ColumnInfo>>): nat
    requires forall k :: k in tables ==> k in schema
  {
    if tables == [] then 0
    else ColumnCount(tables[..|tables| - 1], schema) + |schema[tables[|tables| - 1]]|
  }

  lemma {:induction false} UngroupLength(tables: seq<string>, schema: map<string, seq<ColumnInfo>>)
    requires forall k :: k in tables ==> k in schema
    ensures |Ungroup(tables, schema)| == ColumnCount(tables, schema)
  {
    if tables != [] {
      UngroupLength(tables[..|tables| - 1], schema);
    }
  }

  /** Flattening reads only the lists of the keys it is given. */
  lemma {:induction false} UngroupFrame(tables: seq<string>, s1: map<string, seq<ColumnInfo>>, s2: map<string, seq<ColumnInfo>>)
    requires forall k :: k in tables ==> k in s1 && k in s2 && s1[k] == s2[k]
    ensures Ungroup(tables, s1) == Ungroup(tables, s2)
  {
    if tables != [] {
      UngroupFrame(tables[..|tables| - 1], s1, s2);
    }
  }

  /** Appending one descriptor to the list of a key that occurs once adds
      exactly one row to the flattening. */
  lemma {:induction false} UngroupBump(tables: seq<string>, schema: map<string, seq<ColumnInfo>>, t: string, info: ColumnInfo)
    requires Distinct(tables) && t in tables
    requires forall k :: k in tables ==> k in schema
    ensures var bumped := schema[t := schema[t] + [info]];
      multiset(Ungroup(tables, bumped)) == multiset(Ungroup(tables, schema)) + multiset{Attach(t, info)}
  {
    var bumped := schema[t := schema[t] + [info]];
    var init := tables[..|tables| - 1];
    var last := tables[|tables| - 1];
    assert AttachAll(t, schema[t] + [info]) == AttachAll(t, schema[t]) + [Attach(t, info)];
    if last == t {
      forall k | k in init ensures k != t {
        var a :| 0 <= a < |init| && init[a] == k;
      }
      UngroupFrame(init, schema, bumped);
    } else {
      UngroupBump(init, schema, t, info);
    }
  }

  /** Appending one descriptor to the list of the last key, which occurs
      nowhere else, appends exactly one row to the flattening. */
  lemma UngroupAppendToLast(tables: seq<string>, schema: map<string, seq<ColumnInfo>>, t: string, info: ColumnInfo)
    requires Distinct(tables) && tables != [] && tables[|tables| - 1] == t
    requires forall k :: k in tables ==> k in schema
    ensures Ungroup(tables, schema[t := schema[t] + [info]]) == Ungroup(tables, schema) + [Attach(t, info)]
  {
    var bumped := schema[t := schema[t] + [info]];
    var front := tables[..|tables| - 1];
    forall k | k in front ensures k in schema && k in bumped && bumped[k] == schema[k] {
      var a :| 0 <= a < |front| && front[a] == k;
      assert tables[a] == k;
    }
    UngroupFrame(front, bumped, schema);
    assert AttachAll(t, schema[t] + [info]) == AttachAll(t, schema[t]) + [Attach(t, info)];
  }

  /** Grouping loses no row and invents none: flattening the dictionary gives a
      permutation of the input rows. */
  lemma {:induction false} GroupingIsPermutation(rows: seq<CatalogRow>)
    ensures multiset(Ungroup(TableOrder(rows), SchemaOf(rows))) == multiset(rows)
  {
    if rows != [] {
      var n := |rows|;
      var init := rows[..n - 1];
      var r := rows[n - 1];
      assert rows == init + [r];
      GroupingIsPermutation(init);
      SchemaStep(init, r);
      var prior := TableOrder(init);
      var s0, s1 := SchemaOf(init), SchemaOf(rows);
      if r.table in prior {
        assert TableOrder(rows) == prior;
        assert s1 == s0[r.table := s0[r.table] + [Describe(r)]];
        KeysDistinct(init);
        UngroupBump(prior, s0, r.table, Describe(r));
        assert Attach(r.table, Describe(r)) == r;
        calc {
          multiset(Ungroup(prior, s1));
          multiset(Ungroup(prior, s0)) + multiset{r};
          multiset(init) + multiset([r]);
          multiset(init + [r]);
        }
      } else {
        assert TableOrder(rows) == prior + [r.table];
        assert r.table !in s0;
        assert [] + [Describe(r)] == [Describe(r)];
        assert s1 == s0[r.table := [Describe(r)]];
        UngroupFrame(prior, s1, s0);
        assert AttachAll(r.table, [Describe(r)]) == [r];
        assert Ungroup(prior + [r.table], s1) == Ungroup(prior, s1) + [r];
        calc {
          multiset(Ungroup(prior + [r.table], s1));
          multiset(Ungroup(prior, s0) + [r]);
          multiset(init) + multiset([r]);
          multiset(init + [r]);
        }
      }
    }
  }

  /** Each input row contributes exactly one descriptor: the list lengths add up
      to the number of rows. */
  lemma ColumnCountIsRowCount(rows: seq<CatalogRow>)
    ensures ColumnCount(TableOrder(rows), SchemaOf(rows)) == |rows|
  {
    GroupingIsPermutation(rows);
    UngroupLength(TableOrder(rows), SchemaOf(rows));
    assert |multiset(rows)| == |rows|;
    assert |multiset(Ungroup(TableOrder(rows), SchemaOf(rows)))| == |Ungroup(TableOrder(rows), SchemaOf(rows))|;
  }

  /** The rows of each table stand together (the schema query orders by table
      name, which gives this under a case-sensitive collation): going row by
      row, a table seen before may only continue the block that the previous
      row belongs to. */
  ghost predicate Contiguous(rows: seq<CatalogRow>)
    decreases |rows|
  {
    rows == [] ||
    var n := |rows|;
    && Contiguous(rows[..n - 1])
    && forall i :: 0 <= i < n - 1 && rows[i].table == rows[n - 1].table ==> rows[n - 2].table == rows[n - 1].table
  }

  /** With contiguous input, the last key is the table of the last row. */
  lemma {:induction false} LastKeyIsLastTable(rows: seq<CatalogRow>)
    requires Contiguous(rows) && rows != []
    ensures var order := TableOrder(rows); |order| > 0 && order[|order| - 1] == rows[|rows| - 1].table
  {
    var n := |rows|;
    var init := rows[..n - 1];
    var r := rows[n - 1];
    if r.table in TableOrder(init) {
      KeysAreTableNames(init, r.table);
      var i :| 0 <= i < |init| && init[i].table == r.table;
      assert rows[i].table == r.table;
      assert init[n - 2] == rows[n - 2];
      LastKeyIsLastTable(init);
    }
  }

  /** When each table's rows stand together, flattening the dictionary gives
      back exactly the input rows. */
  lemma {:induction false} GroupingRoundTrip(rows: seq<CatalogRow>)
    requires Contiguous(rows)
    ensures Ungroup(TableOrder(rows), SchemaOf(rows)) == rows
  {
    if rows != [] {
      var n := |rows|;
      var init := rows[..n - 1];
      var r := rows[n - 1];
      assert rows == init + [r];
      GroupingRoundTrip(init);
      SchemaStep(init, r);
      var prior := TableOrder(init);
      var s0, s1 := SchemaOf(init), SchemaOf(rows);
      if r.table in prior {
        assert TableOrder(rows) == prior;
        assert s1 == s0[r.table := s0[r.table] + [Describe(r)]];
        LastKeyIsLastTable(rows);
        KeysDistinct(init);
        UngroupAppendToLast(prior, s0, r.table, Describe(r));
      } else {
        assert TableOrder(rows) == prior + [r.table];
        assert r.table !in s0;
        assert [] + [Describe(r)] == [Describe(r)];
        assert s1 == s0[r.table := [Describe(r)]];
        UngroupFrame(prior, s1, s0);
        assert AttachAll(r.table, [Describe(r)]) == [r];
        assert Ungroup(prior + [r.table], s1) == Ungroup(prior, s1) + [r];
      }
    }
  }

  // ---------------------------------------------------------------------------
  // The resource and the tool

  /** The `schema://main` resource: the grouped dictionary serialised by
      `dumps` (`json.dumps(..., indent=2)`, not modelled), or `"Error: "` and
      the exception text when the catalog query raised. */
  method GetSchema(fetched: Result<seq<CatalogRow>, string>,
                   dumps: (seq<string>, map<string, seq<ColumnInfo>>) -> string)
    returns (text: string)
    ensures fetched.Failure? ==> text == "Error: " + fetched.error
    ensures fetched.Success? ==> text == dumps(TableOrder(fetched.value), SchemaOf(fetched.value))
  {
    match fetched
    case Failure(message) =>
      text := "Error: " + message;
    case Success(rows) =>
      var tables, schema := GroupColumns(rows);
      text := dumps(tables, schema);
  }

  /** The `query_data` tool: the printed rows (`str(row)`, given as `show`)
      joined with newlines, or `"Error: "` and the exception text. */
  function QueryData<R>(fetched: Result<seq<R>, string>, show: R -> string): (text: string)
    ensures fetched.Failure? ==> text == "Error: " + fetched.error
    ensures fetched.Success? && fetched.value == [] ==> text == ""
  {
    match fetched
    case Failure(message) => "Error: " + message
    case Success(rows) => Join(seq(|rows|, i requires 0 <= i < |rows| => show(rows[i])), "\n")
  }

  /** When no printed row contains a newline, the output of `query_data` has
      one line per row, in row order: n rows give n - 1 separators. */
  lemma QueryDataLines<R>(rows: seq<R>, show: R -> string)
    requires rows != []
    requires forall i :: 0 <= i < |rows| ==> '\n' !in show(rows[i])
    ensures var lines := Split(QueryData(Success(rows), show), '\n');
      |lines| == |rows| && forall i :: 0 <= i < |rows| ==> lines[i] == show(rows[i])
  {
    SplitJoin(seq(|rows|, i requires 0 <= i < |rows| => show(rows[i])), '\n');
  }
}
