# SQL Server query tools, modelled in Dafny

This project models the core of an example that puts SQL Server behind the
Model Context Protocol. Two servers expose the database to a language-model
client:

- `fastmcp/server.py` is the "SQL Query Server". It has three tools:
  - `execute_sql_query` passes arbitrary SQL through;
  - `get_table_info` splices a table name into a catalog query;
  - `list_tables` runs a fixed catalog query.

  All three go through `DatabaseTools.execute_query`. It normalises whatever
  the driver does into a `QueryResult`, which holds columns, rows, a row count
  and an optional error.
- `mcp-server/src/main.py` is the "SQL Server Explorer". It has:
  - the `schema://main` resource, which groups catalog rows by table in
    first-occurrence order;
  - the `query_data` tool, which prints one row per line.
- `mcp-server/src/database.py` builds the ODBC connection string and the
  SQLAlchemy URL from environment settings. It then:
  - creates the engine and the session factory;
  - probes the database up to three times, pausing five seconds after every
    failed probe;
  - hands out scoped sessions;
  - reports a connection test.

The database driver is abstract. One query's whole driver behaviour is a
value: either the stage at which it raised, with the exception text, or the
cursor description, the fetched rows and `rowcount`. A liveness probe is
likewise its outcome. Functions passed as parameters stand for:

- `json.dumps`;
- `str(row)`;
- `quote_plus` and its inverse.

The files:

- `wrappers.dfy`: `Option` and `Result`.
- `text.dfy`: Python's `str.join` and `str.split`, and a scan to a
  separator. It also holds their round-trip lemmas.
- `sql_query_server.dfy`: module `SqlQueryServer`, modelling `fastmcp/server.py`.
- `schema_explorer.dfy`: module `SchemaExplorer`, modelling `mcp-server/src/main.py`.
- `database.dfy`: module `DatabaseSetup`, modelling `mcp-server/src/database.py`.

Behaviours of the code worth knowing, each stated by a member of the model:

- **Negative row count.** `execute_query` copies the driver's `rowcount`
  unchanged when a statement returns no rows. ODBC reports -1 when the count
  is unknown, so an error-free result can carry a row count of -1
  (`NegativeRowCountPassesThrough`).
- **Failed probes.** `init_db` raises only when `create_engine` or
  `sessionmaker` raises. When all three liveness probes fail it still
  finishes normally (`Database.InitDb`, `AllProbesFail`).
- **Error text.** The error carried by a result is exactly the exception's
  text, `str(e)`. That text may be empty, so the model does not claim the
  error is non-empty.
- **Cursor release.** When `execute` or `fetchall` raises, `execute_query`
  returns without closing its cursor (`CursorAfter`).
- **Missing settings.** Any setting that is missing, other than the port, is
  written into the connection string as the text `None`.

## Model

| member | source | states |
|---|---|---|
| Text.Join | mcp-server/src/main.py:72 | joining no pieces gives the empty string, and joining one piece gives that piece; `Text.SplitJoin` shows that, for one or more pieces, splitting undoes it when no piece holds the separator |
| SqlQueryServer.ExecuteQuery | fastmcp/server.py:38-71 | The result is always well formed: an error means no columns, no rows and a count of 0. There is an error exactly when the driver raised, carrying its text. With a description, the columns are the description's names in order, the rows are the fetched rows' values in order, and the count is their number. With no description (`None` or empty), the result has no columns or rows and the driver's rowcount |
| SqlQueryServer.CursorAfter | fastmcp/server.py:40-71 | the cursor is closed exactly when the result carries no error; it is left open exactly when execute or fetch raised |
| SqlQueryServer.NegativeRowCountPassesThrough | fastmcp/server.py:51-55 | some outcome yields an error-free result with a negative row count |
| SqlQueryServer.EmptyRowSet | fastmcp/server.py:45-50 | a row-returning statement with no rows gives its column names, no rows, a count of 0 and no error |
| SqlQueryServer.ExecuteSqlQuery | fastmcp/server.py:77-89 | the query text reaches the driver unchanged and the normalised result is returned as is |
| SqlQueryServer.TableInfoQuery | fastmcp/server.py:102-111 | the query is the fixed head, the table name verbatim, then the fixed tail, with no escaping; `SqlQueryServer.TableNameSpliced` states what that splice means |
| SqlQueryServer.TableNameSpliced | fastmcp/server.py:102-111 | the `OBJECT_ID` argument read back from the query equals the table name exactly when the name holds no quote |
| SqlQueryServer.GetTableInfo | fastmcp/server.py:91-112 | runs the catalog query built around the table name and returns its normalised result |
| SqlQueryServer.ListTables | fastmcp/server.py:114-130 | runs the fixed table-listing query and returns its normalised result |
| SchemaExplorer.Describe | mcp-server/src/main.py:53-58 | the per-column record keeps column, type, length and nullability; attaching the table name gives back the row |
| SchemaExplorer.GroupColumns | mcp-server/src/main.py:47-58 | The loop yields the table keys in first-occurrence order. It also yields the dictionary mapping each table to its column records in row order |
| SchemaExplorer.SchemaStep | mcp-server/src/main.py:49-58 | one more row creates its table's list when missing and appends its record; every other table is unchanged |
| SchemaExplorer.KeysAreTableNames | mcp-server/src/main.py:48-51 | a name is a dictionary key (and in the key order) exactly when some row has that table |
| SchemaExplorer.KeysDistinct | mcp-server/src/main.py:50-51 | no table appears twice in the key order |
| SchemaExplorer.KeysInFirstOccurrenceOrder | mcp-server/src/main.py:48-51 | a key that comes earlier has already occurred before any row of a later key |
| SchemaExplorer.ColumnsPresent | mcp-server/src/main.py:50-53 | a table's list is non-empty exactly when the table occurs |
| SchemaExplorer.ColumnsFollowRows | mcp-server/src/main.py:48-58 | A table's list matches its rows one for one. Entry k describes the k-th row of that table, in increasing row order, and every row of that table is covered |
| SchemaExplorer.GroupingIsPermutation | mcp-server/src/main.py:47-58 | flattening the grouped dictionary back into rows gives the input rows up to order, so nothing is lost or duplicated |
| SchemaExplorer.ColumnCountIsRowCount | mcp-server/src/main.py:47-58 | the grouped lists hold as many records as there were rows |
| SchemaExplorer.GroupingRoundTrip | mcp-server/src/main.py:40-58 | when each table's rows are contiguous (what `ORDER BY t.name` gives under a case-sensitive collation), flattening gives back exactly the input rows |
| SchemaExplorer.GetSchema | mcp-server/src/main.py:26-63 | a failed catalog query gives `Error: ` plus its text; otherwise the serialisation of the grouped keys and dictionary |
| SchemaExplorer.QueryData | mcp-server/src/main.py:65-74 | a failure gives `Error: ` plus its text; no rows gives the empty string |
| SchemaExplorer.QueryDataLines | mcp-server/src/main.py:72 | for one or more rows, when no printed row holds a newline, the output splits into exactly one line per row, in order (zero rows give `""`, which splits into one empty line) |
| DatabaseSetup.GetEnv | mcp-server/src/database.py:12 | a variable is present exactly when it is set, with its value |
| DatabaseSetup.ConfigFromEnvironment | mcp-server/src/database.py:11-16 | the port defaults to `1433` when unset; every other setting is `None` exactly when unset, else the variable's value |
| DatabaseSetup.ConnectionString | mcp-server/src/database.py:18-29 | the connection string is six `KEY=value;` fields, in order: DRIVER, SERVER (host,port), DATABASE, UID, PWD, TrustServerCertificate; `DatabaseSetup.ConnectionStringRoundTrip` states when they read back |
| DatabaseSetup.ConnectionStringText | mcp-server/src/database.py:21-28 | the string starts with `DRIVER={ODBC Driver 18 for SQL Server};` and ends with `TrustServerCertificate=yes;` |
| DatabaseSetup.ParseSerialized | mcp-server/src/database.py:18-29 | reading back fields written as `KEY=value;` gives the fields when keys hold no `=` or `;` and values no `;` |
| DatabaseSetup.ConnectionStringRoundTrip | mcp-server/src/database.py:18-29 | a reader that splits at `;` and then at the first `=` reads back exactly the six intended fields if and only if no setting holds `;` |
| DatabaseSetup.SqlalchemyUrl | mcp-server/src/database.py:31-35 | for every configuration, the URL is `mssql+pyodbc:///?odbc_connect=` followed by the quoted connection string; `DatabaseSetup.UrlCarriesConnectionString` states what the tail carries |
| DatabaseSetup.UrlCarriesConnectionString | mcp-server/src/database.py:31-35 | when no setting holds `;` and the unquoting undoes the quoting, unquoting the URL's tail gives a connection string that reads back the six fields |
| DatabaseSetup.TestConnection | mcp-server/src/database.py:80-88 | never raises; true exactly when the probe completed |
| DatabaseSetup.ProbeLoop | mcp-server/src/database.py:65-68 | the loop's events are exactly the start-up log of probes and pauses |
| DatabaseSetup.StartupLogShape | mcp-server/src/database.py:65-68 | Each failed probe is followed by one five-second pause. The loop stops right after the first successful probe, with at most three probes |
| DatabaseSetup.StartupCounts | mcp-server/src/database.py:65-68 | the number of probes is one more than the number of failures, or three when all fail; the number of pauses equals the number of failed probes |
| DatabaseSetup.AllProbesFail | mcp-server/src/database.py:64-70 | if the database never answers, there are three probes, three failures and three pauses |
| DatabaseSetup.Database.constructor | mcp-server/src/database.py:38-43 | keeps the configuration; no engine, no session factory, no start-up events yet |
| DatabaseSetup.Database.InitDb | mcp-server/src/database.py:46-70 | If engine creation raises, the result is the wrapped failure and nothing changes. If the session factory raises, the engine is set and the failure is wrapped. Otherwise both are set, the probe loop's events are appended, and no failure is reported, whatever the probes did |
| DatabaseSetup.Database.GetSession | mcp-server/src/database.py:72-78 | Without a factory, the call raises and no session is made. Otherwise a fresh session is closed however the caller's block ends, and the block's exception passes through |
| DatabaseSetup.TestDbConnection | mcp-server/src/database.py:100-126 | Success exactly when both the direct query and the engine probe succeed; success carries the fixed message and the version. Otherwise the status is `error` with `Database connection failed: ` plus the first failure's text, and no version |

## Left out

- `SchemaExplorer.GetSchema`: `json.dumps(..., indent=2)` is a parameter, so the JSON text is not modelled. The contract is stated on the keys and dictionary handed to it.
- `SchemaExplorer.QueryData`: `str(row)` is a parameter, so the printed form of a row is not modelled.
- `DatabaseSetup.UrlCarriesConnectionString`: `quote_plus` and its inverse are parameters. The lemma assumes only that the inverse undoes the quoting.
- `get_connection` in `mcp-server/src/main.py`, the SQLAlchemy engine and its pool settings are abstract. The pool settings are size 5, overflow 10, timeout 30 and pre-ping. The engine is a value holding its URL.
- `time.sleep(5)` is recorded as a pause event rather than performed.
- Logging calls are not modelled, nor are the three statements run at import time: the module-level `db = Database()`, `print(test_db_connection())` and `DatabaseTools.__init__`'s eager `pyodbc.connect`.
- `DatabaseSetup.Database.constructor`: `Database.__init__` ends by calling `init_db`. The model splits this into the constructor followed by `InitDb`.
- SQL semantics are not modelled: what the catalog queries return, how SQL Server treats a `'` inside the table name, and multi-statement batches. The model states only how the text is built.
- `SqlQueryServer.ExecuteQuery`: the driver's values are kept as an opaque `Value` type. The conversion of pyodbc `Row` objects to lists is modelled as taking each row's values.
- The Streamlit client and the files `models.py`, `typedefs.py` and `config.py` in `mcp-server/src` are not part of this model.
- `DatabaseSetup.ConnectionStringRoundTrip`: ODBC brace quoting (`{...}` around a value) is not modelled. The reader in the proof splits at every `;`, so the lemma says nothing about how a real driver reads a value written in braces or one that opens a brace and never closes it.
- `SchemaExplorer.GroupingRoundTrip`: SQL Server collations are not modelled. Under a case-insensitive collation, `ORDER BY t.name` can interleave the rows of two tables whose names differ only in case, and the dictionary keeps those tables apart. The lemma then does not apply, though `GroupingIsPermutation` still does.
