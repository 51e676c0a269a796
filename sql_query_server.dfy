/** The SQL query server (fastmcp/server.py): `DatabaseTools.execute_query`
    normalises whatever the ODBC driver does into one `QueryResult` record, and
    the three tools (`execute_sql_query`, `get_table_info`, `list_tables`)
    build a query text and hand it to it.

    The driver is abstract: for a given query text the connection yields an
    `Outcome`, which records either the step of the try block that raised and
    the text of the exception, or what the cursor reported. */
module SqlQueryServer {
  import opened Wrappers
  import opened Text

  /** A value in a fetched row, as the driver hands it over. */
  datatype Value =
    | Null
    | Bool(b: bool)
    | Int(i: int)
    | Str(s: string)
    | Binary(bytes: seq<bv8>)
    | Other(repr: string)   // decimals, floats, dates: kept opaque

  /** One entry of `cursor.description`: the column name comes first. */
  datatype ColumnDescription = ColumnDescription(
    name: string,
    typeCode: string,
    displaySize: Option<int>,
    internalSize: Option<int>,
    precision: Option<int>,
    scale: Option<int>,
    nullOk: bool)

  /** A driver-native row object; `list(row)` gives its values in order. */
  datatype DriverRow = DriverRow(values: seq<Value>)

  /** The statements of the try block that can raise, in program order. */
  datatype Stage = OpenCursor | Execute | Fetch | Close

  /** What happened when a query was run on the connection. */
  datatype Outcome =
    | Raised(stage: Stage, message: string)
    | Completed(description: Option<seq<ColumnDescription>>, fetched: seq<DriverRow>, rowcount: int)

  /** The connection of a `DatabaseTools` object, seen one call at a time: each
      call fixes the outcome it gives for each query text, taken in isolation
      (the database's changing state is not modelled). */
  type Connection = string -> Outcome

  /** The uniform result shape every tool returns. */
  datatype QueryResult = QueryResult(
    columns: seq<string>,
    rows: seq<seq<Value>>,
    rowCount: int,
    error: Option<string>)

  /** Python's truth test on `cursor.description`: `None` and an empty
      sequence are both false. */
  predicate HasDescription(o: Outcome)
  {
    o.Completed? && o.description.Some? && |o.description.value| > 0
  }

  /** The invariant every result satisfies: an error comes with no data at all,
      and whenever rows or column names are present the count is the number
      of rows. */
  predicate WellFormed(r: QueryResult)
  {
    && (r.error.Some? ==> r.columns == [] && r.rows == [] && r.rowCount == 0)
    && (r.columns != [] ==> r.rowCount == |r.rows|)
    && (r.rows != [] ==> r.columns != [])
  }

  /** `DatabaseTools.execute_query`: total, never raises, and classifies the
      outcome into the error, row-set and affected-rows shapes. */
  function ExecuteQuery(o: Outcome): (r: QueryResult)
    ensures WellFormed(r)
    ensures r.error.Some? <==> o.Raised?
    ensures o.Raised? ==> r.columns == [] && r.rows == [] && r.rowCount == 0 && r.error == Some(o.message)
    ensures HasDescription(o) ==>
      && |r.columns| == |o.description.value|
      && (forall i :: 0 <= i < |r.columns| ==> r.columns[i] == o.description.value[i].name)
    ensures HasDescription(o) ==>
      && r.rowCount == |r.rows| == |o.fetched|
      && (forall i :: 0 <= i < |r.rows| ==> r.rows[i] == o.fetched[i].values)
    ensures o.Completed? && !HasDescription(o) ==>
      r.columns == [] && r.rows == [] && r.rowCount == o.rowcount
  {
    match o
    case Raised(_, msg) => QueryResult([], [], 0, Some(msg))
    case Completed(description, fetched, rowcount) =>
      if HasDescription(o) then
        var desc := description.value;
        var columns := seq(|desc|, i requires 0 <= i < |desc| => desc[i].name);
        var rows := seq(|fetched|, i requires 0 <= i < |fetched| => fetched[i].values);
        QueryResult(columns, rows, |fetched|, None)
      else
        QueryResult([], [], rowcount, None)
  }

  /** What becomes of the cursor `execute_query` opens. */
  datatype CursorFate = NeverOpened | LeftOpen | CloseRaised | Closed

  /** `cursor.close()` is reached on the success path only; an exception after
      the cursor was opened returns without closing it. */
  function CursorAfter(o: Outcome): (fate: CursorFate)
    ensures fate == Closed <==> ExecuteQuery(o).error.None?
    ensures fate == LeftOpen <==> o.Raised? && (o.stage == Execute || o.stage == Fetch)
  {
    match o
    case Completed(_, _, _) => Closed
    case Raised(OpenCursor, _) => NeverOpened
    case Raised(Close, _) => CloseRaised
    case Raised(_, _) => LeftOpen
  }

  /** Without a description the driver's `rowcount` is returned as it is, so
      the "-1 = unknown" of ODBC reaches the caller as a negative count with no
      error. */
  lemma NegativeRowCountPassesThrough()
    ensures exists o :: ExecuteQuery(o).error == None && ExecuteQuery(o).rowCount < 0
  {
    var o := Completed(None, [], -1);
    assert ExecuteQuery(o).rowCount == -1;
  }

  /** An empty row set from a row-returning statement is a success with the
      column names and a count of zero. */
  lemma EmptyRowSet(o: Outcome)
    requires HasDescription(o) && o.fetched == []
    ensures var r := ExecuteQuery(o);
      r.error == None && r.rows == [] && r.rowCount == 0 && |r.columns| == |o.description.value| > 0
  {
  }

  /** `execute_sql_query`: the query text goes to the driver untouched and the
      normalised result comes back unchanged. */
  function ExecuteSqlQuery(conn: Connection, query: string): (r: QueryResult)
    ensures r == ExecuteQuery(conn(query))
  {
    ExecuteQuery(conn(query))
  }

  /** The text of the `get_table_info` query before and after the table name. */
  const TableInfoPrefix: string :=
    "\n    SELECT \n        c.name AS column_name,\n        t.name AS data_type,\n" +
    "        c.max_length,\n        c.is_nullable\n    FROM sys.columns c\n" +
    "    JOIN sys.types t ON c.user_type_id = t.user_type_id\n" +
    "    WHERE c.object_id = OBJECT_ID('"
  const TableInfoSuffix: string := "')\n    "

  /** The catalog query of `get_table_info`: the table name is spliced into the
      text of the `OBJECT_ID('...')` literal with no escaping. */
  function TableInfoQuery(tableName: string): (q: string)
    ensures |q| == |TableInfoPrefix| + |tableName| + |TableInfoSuffix|
    ensures q[..|TableInfoPrefix|] == TableInfoPrefix
    ensures q[|TableInfoPrefix|..|TableInfoPrefix| + |tableName|] == tableName
    ensures q[|TableInfoPrefix| + |tableName|..] == TableInfoSuffix
  {
    TableInfoPrefix + tableName + TableInfoSuffix
  }

  /** The text between the opening quote of the `OBJECT_ID` literal and the
      next quote character. */
  function ObjectIdArgument(query: string): string
    requires |query| >= |TableInfoPrefix|
  {
    TakeUntil(query[|TableInfoPrefix|..], '\'')
  }

  /** The table name is exactly the quoted argument of `OBJECT_ID` if and only
      if it contains no quote: a name with a quote closes the literal early and
      the rest of it becomes SQL text. */
  lemma TableNameSpliced(tableName: string)
    ensures ObjectIdArgument(TableInfoQuery(tableName)) == tableName <==> '\'' !in tableName
  {
    var q := TableInfoQuery(tableName);
    assert q[|TableInfoPrefix|..] == tableName + TableInfoSuffix;
    if '\'' in tableName {
      ScanStopsInside(tableName, '\'', TableInfoSuffix);
    } else {
      assert tableName + TableInfoSuffix == tableName + ['\''] + TableInfoSuffix[1..];
      ScanPastPiece(tableName, '\'', TableInfoSuffix[1..]);
    }
  }

  /** `get_table_info`: the catalog query for the table, run through `execute_query`. */
  function GetTableInfo(conn: Connection, tableName: string): (r: QueryResult)
    ensures r == ExecuteQuery(conn(TableInfoQuery(tableName)))
  {
    ExecuteQuery(conn(TableInfoQuery(tableName)))
  }

  /** The fixed catalog query of `list_tables`. */
  const ListTablesQuery: string :=
    "\n    SELECT \n        s.name AS schema_name,\n        t.name AS table_name\n" +
    "    FROM sys.tables t\n    JOIN sys.schemas s ON t.schema_id = s.schema_id\n" +
    "    ORDER BY s.name, t.name\n    "

  /** `list_tables`: the fixed catalog query, run through `execute_query`. */
  function ListTables(conn: Connection): (r: QueryResult)
    ensures r == ExecuteQuery(conn(ListTablesQuery))
  {
    ExecuteQuery(conn(ListTablesQuery))
  }
}
