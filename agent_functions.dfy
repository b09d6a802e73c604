/**
 * The three tools the language models may call: `query_database`,
 * `generate_chart` and `list_tables`, their declarations, and the binding of a
 * model's keyword arguments to them. The database behind DATABASE_URL is an
 * oracle: creating the engine, connecting, and executing a statement each
 * either succeed or raise an exception of a known class.
 */
module AgentFunctions {
  import opened Wrappers
  import opened Values
  import Timestamps

  // ---------------------------------------------------------------------------
  // The database oracle

  /** `exc.OperationalError`, any other `exc.SQLAlchemyError`, or any other exception. */
  datatype ErrorClass = OperationalError | OtherSqlAlchemyError | OtherException

  /** A raised exception: its class and `str(e)`. */
  datatype DbError = DbError(cls: ErrorClass, message: string)

  predicate IsSqlAlchemy(e: DbError) {
    e.cls != OtherException
  }

  /** The result of executing a statement: the column names and the fetched rows. */
  datatype Outcome = Rows(columns: seq<string>, rows: seq<seq<Value>>) | Raised(error: DbError)

  datatype Database = Database(
    engineError: Option<DbError>,   // what create_engine(DATABASE_URL) raises, if anything
    connectError: Option<DbError>,  // what engine.connect() raises, if anything
    dialect: string,                // engine.dialect.name
    exec: string -> Outcome)        // conn.execute(text(sql)) followed by fetchall()

  // ---------------------------------------------------------------------------
  // query_database

  function Record(key: string, text: string): Value {
    Dict([(key, Str(text))])
  }

  const NoQueryWarning: Value := Record("warning", "No SQL query provided.")

  /** The query is present: a non-empty string. */
  predicate IsQuery(sqlQuery: Value) {
    sqlQuery.Str? && sqlQuery.s != ""
  }

  /** The prefix of the error record for an exception raised while creating the engine. */
  function ConnectionPrefix(e: DbError): string {
    if IsSqlAlchemy(e) then "Database connection error: " else "Unexpected error during DB connection: "
  }

  /** The prefix of the error record for an exception raised while connecting or querying. */
  function QueryPrefix(e: DbError): string {
    match e.cls
    case OperationalError => "Database operational query error: "
    case OtherSqlAlchemyError => "Database query error: "
    case OtherException => "Unexpected database query error: "
  }

  /** A cell after the Decimal-to-float pass. */
  function ConvertCell(v: Value): (r: Value)
    ensures !r.Decimal?
    ensures !v.Decimal? ==> r == v
  {
    if v.Decimal? then Float(DecimalToFloat(v.coefficient, v.exponent)) else v
  }

  function ConvertCells(e: Entries): (r: Entries)
    ensures Keys(r) == Keys(e)
  {
    seq(|e|, i requires 0 <= i < |e| => (e[i].0, ConvertCell(e[i].1)))
  }

  lemma PutPreservesDistinct(e: Entries, key: string, value: Value)
    requires DistinctKeys(e)
    ensures DistinctKeys(Put(e, key, value))
  {
    var r := Put(e, key, value);
    PutKeys(e, key, value);
    forall i, j | 0 <= i < j < |r| ensures r[i].0 != r[j].0 {
      assert Keys(r)[i] == r[i].0 && Keys(r)[j] == r[j].0;
      if j < |e| {
        assert Keys(e)[i] == e[i].0 && Keys(e)[j] == e[j].0;
      } else {
        assert Keys(e)[i] == e[i].0;
      }
    }
  }

  /** Replacing the value of a present key of a dict updates that entry in place. */
  lemma {:induction false} PutExisting(e: Entries, k: nat, value: Value)
    requires DistinctKeys(e) && k < |e|
    ensures Put(e, e[k].0, value) == e[k := (e[k].0, value)]
  {
    if k > 0 {
      PutExisting(e[1..], k - 1, value);
      assert e[1..][k - 1 := (e[k].0, value)] == e[k := (e[k].0, value)][1..];
    }
  }

  /** `dict(zip(columns, row))`: pairs up to the shorter length, a repeated column keeps its first place and its last value. */
  function ZipDict(columns: seq<string>, row: seq<Value>): (d: Entries)
    ensures DistinctKeys(d)
    decreases |columns|
  {
    var n := if |columns| < |row| then |columns| else |row|;
    if n == 0 then []
    else
      var prev := ZipDict(columns[..n - 1], row[..n - 1]);
      PutPreservesDistinct(prev, columns[n - 1], row[n - 1]);
      Put(prev, columns[n - 1], row[n - 1])
  }

  /** The record for one fetched row. */
  function RowRecord(columns: seq<string>, row: seq<Value>): Value {
    Dict(ConvertCells(ZipDict(columns, row)))
  }

  /** What `query_database(sql_query)` returns against the database `db`. */
  function QueryResult(sqlQuery: Value, db: Database): seq<Value> {
    if !IsQuery(sqlQuery) then [NoQueryWarning]
    else if db.engineError.Some? then
      [Record("error", ConnectionPrefix(db.engineError.value) + db.engineError.value.message)]
    else if db.connectError.Some? then
      [Record("error", QueryPrefix(db.connectError.value) + db.connectError.value.message)]
    else
      match db.exec(sqlQuery.s)
      case Raised(e) => [Record("error", QueryPrefix(e) + e.message)]
      case Rows(columns, rows) => seq(|rows|, i requires 0 <= i < |rows| => RowRecord(columns, rows[i]))
  }

  /** `query_database`: one record per fetched row, its Decimal cells replaced in place. */
  method QueryDatabase(sqlQuery: Value, db: Database) returns (result: seq<Value>)
    ensures result == QueryResult(sqlQuery, db)
  {
    if !IsQuery(sqlQuery) {
      return [NoQueryWarning];
    }
    if db.engineError.Some? {
      var e := db.engineError.value;
      return [Record("error", ConnectionPrefix(e) + e.message)];
    }
    if db.connectError.Some? {
      var e := db.connectError.value;
      return [Record("error", QueryPrefix(e) + e.message)];
    }
    match db.exec(sqlQuery.s)
    case Raised(e) =>
      return [Record("error", QueryPrefix(e) + e.message)];
    case Rows(columns, rows) =>
      result := [];
      for r := 0 to |rows|
        invariant result == seq(r, i requires 0 <= i < r => RowRecord(columns, rows[i]))
      {
        var rowDict := ConvertDecimals(ZipDict(columns, rows[r]));
        result := result + [Dict(rowDict)];
      }
  }

  /** The inner loop of `query_database`: every Decimal value of the row's dict is replaced by its float. */
  method ConvertDecimals(zipped: Entries) returns (rowDict: Entries)
    requires DistinctKeys(zipped)
    ensures rowDict == ConvertCells(zipped)
  {
    rowDict := zipped;
    for k := 0 to |rowDict|
      invariant |rowDict| == |zipped|
      invariant forall j :: 0 <= j < k ==> rowDict[j] == (zipped[j].0, ConvertCell(zipped[j].1))
      invariant forall j :: k <= j < |zipped| ==> rowDict[j] == zipped[j]
    {
      var (key, value) := rowDict[k];
      if value.Decimal? {
        DistinctByKeys(rowDict, zipped);
        PutExisting(rowDict, k, Float(DecimalToFloat(value.coefficient, value.exponent)));
        rowDict := Put(rowDict, key, Float(DecimalToFloat(value.coefficient, value.exponent)));
      }
    }
  }

  lemma KeysOfConcat(a: Entries, b: Entries)
    ensures Keys(a + b) == Keys(a) + Keys(b)
  {
  }

  lemma DistinctByKeys(a: Entries, b: Entries)
    requires |a| == |b| && (forall i :: 0 <= i < |a| ==> a[i].0 == b[i].0) && DistinctKeys(b)
    ensures DistinctKeys(a)
  {
  }

  // ---------------------------------------------------------------------------
  // Properties of query_database

  /** An empty or non-string query yields the warning record whatever the database holds. */
  lemma NoQueryIgnoresDatabase(sqlQuery: Value, db1: Database, db2: Database)
    requires !IsQuery(sqlQuery)
    ensures QueryResult(sqlQuery, db1) == QueryResult(sqlQuery, db2) == [NoQueryWarning]
  {
  }

  /** The five failure paths: a single record whose only key is "error", holding the class-specific prefix and `str(e)`. */
  lemma FailureIsOneErrorRecord(sqlQuery: Value, db: Database)
    requires IsQuery(sqlQuery)
    requires db.engineError.Some? || db.connectError.Some? || db.exec(sqlQuery.s).Raised?
    ensures var r := QueryResult(sqlQuery, db);
            |r| == 1 && r[0].Dict? && Keys(r[0].entries) == ["error"]
            && exists e: DbError, prefix ::
                 prefix in {"Database connection error: ", "Unexpected error during DB connection: ",
                            "Database operational query error: ", "Database query error: ",
                            "Unexpected database query error: "}
                 && r[0].entries[0].1 == Str(prefix + e.message)
  {
    var r := QueryResult(sqlQuery, db);
    if db.engineError.Some? {
      var e := db.engineError.value;
      assert r[0].entries[0].1 == Str(ConnectionPrefix(e) + e.message);
    } else if db.connectError.Some? {
      var e := db.connectError.value;
      assert r[0].entries[0].1 == Str(QueryPrefix(e) + e.message);
    } else {
      var e := db.exec(sqlQuery.s).error;
      assert r[0].entries[0].1 == Str(QueryPrefix(e) + e.message);
    }
  }

  /** On success: one record per row, in row order. */
  lemma OneRecordPerRow(sqlQuery: Value, db: Database)
    requires IsQuery(sqlQuery) && db.engineError.None? && db.connectError.None?
    requires db.exec(sqlQuery.s).Rows?
    ensures var out := db.exec(sqlQuery.s);
            var r := QueryResult(sqlQuery, db);
            |r| == |out.rows|
            && forall i :: 0 <= i < |r| ==> r[i] == RowRecord(out.columns, out.rows[i])
  {
  }

  /** With distinct column names and full rows, a record pairs each column with its cell, positionally. */
  lemma {:induction false} ZipPositional(columns: seq<string>, row: seq<Value>)
    requires |row| == |columns|
    requires forall i, j :: 0 <= i < j < |columns| ==> columns[i] != columns[j]
    ensures ZipDict(columns, row) == seq(|columns|, j requires 0 <= j < |columns| => (columns[j], row[j]))
    decreases |columns|
  {
    var n := |columns|;
    if n > 0 {
      var prev := ZipDict(columns[..n - 1], row[..n - 1]);
      ZipPositional(columns[..n - 1], row[..n - 1]);
      assert Keys(prev) == columns[..n - 1];
      assert columns[n - 1] !in Keys(prev);
      PutNew(prev, columns[n - 1], row[n - 1]);
    }
  }

  /**
   * Decimal cells are the only ones replaced: the record's keys are those of
   * `dict(zip(...))`, no cell is a Decimal, and every other cell is unchanged.
   */
  lemma RowRecordConverts(columns: seq<string>, row: seq<Value>)
    ensures var z := ZipDict(columns, row);
            var r := RowRecord(columns, row);
            Keys(r.entries) == Keys(z)
            && (forall i :: 0 <= i < |z| ==> !r.entries[i].1.Decimal?)
            && (forall i :: 0 <= i < |z| && !z[i].1.Decimal? ==> r.entries[i].1 == z[i].1)
            && (forall i :: 0 <= i < |z| && z[i].1.Decimal? ==>
                  r.entries[i].1 == Float(DecimalToFloat(z[i].1.coefficient, z[i].1.exponent)))
  {
  }

  /** A record is JSON-serialisable when every cell of its row is serialisable or a Decimal. */
  lemma RowRecordSerialisable(columns: seq<string>, row: seq<Value>)
    requires forall i :: 0 <= i < |row| ==> row[i].Decimal? || DumpsError(row[i]).None?
    ensures DumpsError(RowRecord(columns, row)).None?
  {
    var z := ZipDict(columns, row);
    ZipCellsFromRow(columns, row);
    assert CellsFrom(z, row);
    var r := RowRecord(columns, row);
    var xs := seq(|r.entries|, i requires 0 <= i < |r.entries| => DumpsError(r.entries[i].1));
    forall i | 0 <= i < |xs| ensures xs[i].None? {
      assert z[i].1 in row;
    }
  }

  predicate CellsFrom(z: Entries, row: seq<Value>) {
    forall i :: 0 <= i < |z| ==> z[i].1 in row
  }

  /** Every value of `dict(zip(columns, row))` is a cell of the row. */
  lemma {:induction false} ZipCellsFromRow(columns: seq<string>, row: seq<Value>)
    ensures CellsFrom(ZipDict(columns, row), row)
    decreases |columns|
  {
    var n := if |columns| < |row| then |columns| else |row|;
    if n > 0 {
      var before := row[..n - 1];
      var prev := ZipDict(columns[..n - 1], before);
      ZipCellsFromRow(columns[..n - 1], before);
      var c, v := columns[n - 1], row[n - 1];
      var z := Put(prev, c, v);
      assert ZipDict(columns, row) == z;
      assert row == before + [v] + row[n..];
      if c in Keys(prev) {
        var k :| 0 <= k < |prev| && Keys(prev)[k] == c;
        PutExisting(prev, k, v);
        assert z == prev[k := (c, v)];
      } else {
        PutNew(prev, c, v);
        assert z == prev + [(c, v)];
      }
      forall i | 0 <= i < |z| ensures z[i].1 in row {
        if z[i].1 != v {
          assert z[i] == prev[i];
          assert prev[i].1 in before;
        }
      }
    }
  }

  // ---------------------------------------------------------------------------
  // generate_chart

  const NoDataRecord: Value := Dict([("success", Bool(false)), ("error", Str("No data returned from query"))])

  /** What `generate_chart(...)` returns; its handler for exceptions is never reached, `query_database` raises nothing. */
  function GenerateChart(chartType: Value, sqlQuery: Value, title: Value, xColumn: Value, yColumn: Value,
                         db: Database): Value
  {
    var data := QueryResult(sqlQuery, db);
    if |data| == 0 then NoDataRecord else ChartRecord(chartType, title, xColumn, yColumn, data)
  }

  function ChartRecord(chartType: Value, title: Value, xColumn: Value, yColumn: Value, data: seq<Value>): Value {
    Dict([("success", Bool(true)), ("chart_type", chartType), ("title", title),
          ("x_column", xColumn), ("y_column", yColumn), ("data", List(data))])
  }

  lemma ChartRecordKeys(chartType: Value, title: Value, xColumn: Value, yColumn: Value, data: seq<Value>)
    ensures var c := ChartRecord(chartType, title, xColumn, yColumn, data);
            c.Dict? && Keys(c.entries) == ["success", "chart_type", "title", "x_column", "y_column", "data"]
  {
  }

  lemma ChartRecordValues(chartType: Value, title: Value, xColumn: Value, yColumn: Value, data: seq<Value>)
    ensures var e := ChartRecord(chartType, title, xColumn, yColumn, data).entries;
            Get(e, "success") == Some(Bool(true))
            && Get(e, "chart_type") == Some(chartType) && Get(e, "title") == Some(title)
            && Get(e, "x_column") == Some(xColumn) && Get(e, "y_column") == Some(yColumn)
            && Get(e, "data") == Some(List(data))
  {
    var e := ChartRecord(chartType, title, xColumn, yColumn, data).entries;
    assert DistinctKeys(e);
    GetAt(e, 0);
    GetAt(e, 1);
    GetAt(e, 2);
    GetAt(e, 3);
    GetAt(e, 4);
    GetAt(e, 5);
  }

  /** On success the four chart parameters come back unchanged and `data` is the query's result. */
  lemma ChartPassesThrough(chartType: Value, sqlQuery: Value, title: Value, xColumn: Value, yColumn: Value,
                           db: Database)
    requires |QueryResult(sqlQuery, db)| > 0
    ensures var c := GenerateChart(chartType, sqlQuery, title, xColumn, yColumn, db);
            c.Dict? && Keys(c.entries) == ["success", "chart_type", "title", "x_column", "y_column", "data"]
            && Get(c.entries, "chart_type") == Some(chartType) && Get(c.entries, "title") == Some(title)
            && Get(c.entries, "x_column") == Some(xColumn) && Get(c.entries, "y_column") == Some(yColumn)
            && Get(c.entries, "data") == Some(List(QueryResult(sqlQuery, db)))
  {
    ChartRecordKeys(chartType, title, xColumn, yColumn, QueryResult(sqlQuery, db));
    ChartRecordValues(chartType, title, xColumn, yColumn, QueryResult(sqlQuery, db));
  }

  /** In a dict, looking up the key of an entry finds that entry's value. */
  lemma {:induction false} GetAt(e: Entries, i: nat)
    requires DistinctKeys(e) && i < |e|
    ensures Get(e, e[i].0) == Some(e[i].1)
  {
    if i > 0 {
      GetAt(e[1..], i - 1);
    }
  }

  /** A warning or error record is data too: the chart reports success and carries the record. */
  lemma FailedQueryChartsSuccessfully(chartType: Value, sqlQuery: Value, title: Value, xColumn: Value,
                                      yColumn: Value, db: Database)
    requires !IsQuery(sqlQuery) || db.engineError.Some? || db.connectError.Some? || db.exec(sqlQuery.s).Raised?
    ensures var c := GenerateChart(chartType, sqlQuery, title, xColumn, yColumn, db);
            c.Dict? && Get(c.entries, "success") == Some(Bool(true))
            && exists rec :: Get(c.entries, "data") == Some(List([rec]))
  {
    var data := QueryResult(sqlQuery, db);
    assert data == [data[0]];
    ChartRecordValues(chartType, title, xColumn, yColumn, data);
  }

  /**
   * The chart is refused, with the fixed "No data returned from query" record,
   * exactly when the query ran and fetched no rows.
   */
  lemma NoDataExactlyWhenNoRows(chartType: Value, sqlQuery: Value, title: Value, xColumn: Value,
                               yColumn: Value, db: Database)
    ensures var c := GenerateChart(chartType, sqlQuery, title, xColumn, yColumn, db);
            c.Dict? && (Get(c.entries, "success") == Some(Bool(false)) <==>
              IsQuery(sqlQuery) && db.engineError.None? && db.connectError.None?
              && db.exec(sqlQuery.s).Rows? && db.exec(sqlQuery.s).rows == [])
    ensures var c := GenerateChart(chartType, sqlQuery, title, xColumn, yColumn, db);
            c.Dict? && Get(c.entries, "success") == Some(Bool(false)) ==> c == NoDataRecord
  {
    var data := QueryResult(sqlQuery, db);
    if |data| > 0 {
      ChartRecordValues(chartType, title, xColumn, yColumn, data);
    }
  }

  // ---------------------------------------------------------------------------
  // list_tables

  const PostgresCatalogQuery := "SELECT table_name FROM information_schema.tables WHERE table_schema = 'public'"
  const SqliteCatalogQuery := "SELECT name FROM sqlite_master WHERE type='table'"

  /** The record for an exception inside the connection block; the braces are literal, the message is not interpolated. */
  function ListingError(e: DbError): seq<Value> {
    if IsSqlAlchemy(e) then [Str("Error listing tables: {str(e)}")]
    else [Str("Unknown error listing tables: {str(e)}")]
  }

  /** The first cell of every row, or None when a row has none (`row[0]` raises IndexError). */
  function FirstCells(rows: seq<seq<Value>>): (r: Option<seq<Value>>)
    ensures r.Some? <==> forall i :: 0 <= i < |rows| ==> rows[i] != []
    ensures r.Some? ==> |r.value| == |rows| && forall i :: 0 <= i < |rows| ==> r.value[i] == rows[i][0]
  {
    if rows == [] then Some([])
    else if rows[0] == [] then None
    else match FirstCells(rows[1..])
      case None => None
      case Some(rest) => Some([rows[0][0]] + rest)
  }

  /**
   * What `list_tables()` returns, or the exception it raises: creating the
   * engine is outside its `try`, so that failure propagates.
   */
  function ListTables(db: Database): Result<seq<Value>, DbError> {
    if db.engineError.Some? then Failure(db.engineError.value)
    else if db.connectError.Some? then Success(ListingError(db.connectError.value))
    else if db.dialect != "postgresql" && db.dialect != "sqlite" then Success([Str("Unsupported database type")])
    else
      match db.exec(CatalogQuery(db.dialect))
      case Raised(e) => Success(ListingError(e))
      case Rows(_, rows) =>
        match FirstCells(rows)
        case Some(names) => Success(names)
        case None => Success(ListingError(DbError(OtherException, "tuple index out of range")))
  }

  /** The dialect switch: each supported dialect reads its own catalog; any other gets the fixed answer. */
  lemma ListTablesByDialect(db: Database)
    requires db.engineError.None? && db.connectError.None?
    ensures CatalogQuery("postgresql") == PostgresCatalogQuery && CatalogQuery("sqlite") == SqliteCatalogQuery
    ensures var out := db.exec(CatalogQuery(db.dialect));
            (db.dialect == "postgresql" || db.dialect == "sqlite") && out.Rows?
            && (forall i :: 0 <= i < |out.rows| ==> out.rows[i] != [])
            ==> ListTables(db) == Success(seq(|out.rows|, i requires 0 <= i < |out.rows| => out.rows[i][0]))
    ensures db.dialect != "postgresql" && db.dialect != "sqlite" ==> ListTables(db) == Success([Str("Unsupported database type")])
  {
    var out := db.exec(CatalogQuery(db.dialect));
    if (db.dialect == "postgresql" || db.dialect == "sqlite") && out.Rows?
       && forall i :: 0 <= i < |out.rows| ==> out.rows[i] != [] {
      var names := FirstCells(out.rows).value;
      assert names == seq(|out.rows|, i requires 0 <= i < |out.rows| => out.rows[i][0]);
    }
  }

  function CatalogQuery(dialect: string): string {
    if dialect == "postgresql" then PostgresCatalogQuery else SqliteCatalogQuery
  }

  /** Only engine creation raises; a failed connection or catalog read gives a single-string list. */
  lemma ListTablesFailures(db: Database)
    ensures ListTables(db).Failure? <==> db.engineError.Some?
    ensures db.engineError.None?
            && (db.connectError.Some?
                || ((db.dialect == "postgresql" || db.dialect == "sqlite") && db.exec(CatalogQuery(db.dialect)).Raised?))
            ==> |ListTables(db).value| == 1 && ListTables(db).value[0].Str?
  {
  }

  // ---------------------------------------------------------------------------
  // The tool declarations and keyword binding

  datatype Tool = QueryDatabaseTool | GenerateChartTool | ListTablesTool

  const AllTools: seq<Tool> := [QueryDatabaseTool, GenerateChartTool, ListTablesTool]

  function ToolName(tool: Tool): string {
    match tool
    case QueryDatabaseTool => "query_database"
    case GenerateChartTool => "generate_chart"
    case ListTablesTool => "list_tables"
  }

  /** The tool's parameters, in declaration order; all of them are required. */
  function Parameters(tool: Tool): seq<string> {
    match tool
    case QueryDatabaseTool => ["sql_query"]
    case GenerateChartTool => ["chart_type", "sql_query", "title", "x_column", "y_column"]
    case ListTablesTool => []
  }

  /** A tool schema: the `*_declaration` dicts. */
  datatype Declaration = Declaration(name: string, description: string, parameters: Value)

  function StringProperty(description: string): Value {
    Dict([("type", Str("string")), ("description", Str(description))])
  }

  function ObjectSchema(properties: Entries, required: seq<string>): Value {
    Dict([("type", Str("object")), ("properties", Dict(properties)),
          ("required", List(seq(|required|, i requires 0 <= i < |required| => Str(required[i]))))])
  }

  const SqlQueryDescription := "The SQL query to execute against the database."

  const QueryDatabaseDeclaration: Declaration := Declaration(
    "query_database",
    "Executes a SQL query string and returns the results as a list of dictionaries.",
    ObjectSchema([("sql_query", StringProperty(SqlQueryDescription))], ["sql_query"]))

  const GenerateChartDeclaration: Declaration := Declaration(
    "generate_chart",
    "Generates a chart based on the provided SQL query and parameters.",
    ObjectSchema(
      [("chart_type", Dict([("type", Str("string")), ("enum", List([Str("bar"), Str("line")])),
                           ("description", Str("The type of chart to generate ('bar', 'line')."))])),
       ("sql_query", StringProperty(SqlQueryDescription)),
       ("title", StringProperty("The title of the chart.")),
       ("x_column", StringProperty("The column name for the x-axis. Make sure it is a valid column in the query result.")),
       ("y_column", StringProperty("The columns names for the y-axis. To set one column, send just the string like 'col_1'. "
                                   + "You can set more than one column if format the list as a string like '['col_1', ...]'. "
                                   + "Make sure that this column exists in the query result. "
                                   + "If needed make the query forehand to ensure the columns are present."))],
      ["chart_type", "sql_query", "title", "x_column", "y_column"]))

  const ListTablesDeclaration: Declaration := Declaration(
    "list_tables",
    "Lists all tables in the connected database.",
    ObjectSchema([], []))

  function DeclarationOf(tool: Tool): Declaration {
    match tool
    case QueryDatabaseTool => QueryDatabaseDeclaration
    case GenerateChartTool => GenerateChartDeclaration
    case ListTablesTool => ListTablesDeclaration
  }

  /**
   * Each declaration names its function and declares exactly that function's
   * parameters, in order, all of them required.
   */
  lemma DeclarationMatchesSignature(tool: Tool)
    ensures var d := DeclarationOf(tool);
            d.name == ToolName(tool)
            && d.parameters.Dict? && Keys(d.parameters.entries) == ["type", "properties", "required"]
            && d.parameters.entries[1].1.Dict? && Keys(d.parameters.entries[1].1.entries) == Parameters(tool)
            && d.parameters.entries[2].1 == List(seq(|Parameters(tool)|, i requires 0 <= i < |Parameters(tool)| => Str(Parameters(tool)[i])))
  {
  }

  /** The prefix CPython gives a function in the message about `**` arguments. */
  const ModuleName := "backend.app.llm.agent_functions"

  /** The first key of the argument dict that is not a parameter. */
  function FirstUnknown(keys: seq<string>, params: seq<string>): (r: Option<string>)
    ensures r.None? <==> forall i :: 0 <= i < |keys| ==> keys[i] in params
    ensures r.Some? ==> r.value in keys && r.value !in params
  {
    if keys == [] then None
    else if keys[0] !in params then Some(keys[0])
    else FirstUnknown(keys[1..], params)
  }

  /** The parameters, in order, that the argument dict does not supply. */
  function Missing(params: seq<string>, keys: seq<string>): (r: seq<string>)
    ensures forall p :: p in r <==> p in params && p !in keys
  {
    if params == [] then []
    else (if params[0] in keys then [] else [params[0]]) + Missing(params[1..], keys)
  }

  function Quoted(name: string): string {
    "'" + name + "'"
  }

  /** The names quoted and separated by ", ". */
  function Commas(names: seq<string>): string {
    if |names| == 0 then ""
    else if |names| == 1 then Quoted(names[0])
    else Quoted(names[0]) + ", " + Commas(names[1..])
  }

  /** CPython's listing of missing names: 'a'; 'a' and 'b'; 'a', 'b', and 'c' (a comma before the "and"). */
  function NameList(names: seq<string>): string {
    if |names| == 0 then ""
    else if |names| == 1 then Quoted(names[0])
    else if |names| == 2 then Quoted(names[0]) + " and " + Quoted(names[1])
    else Commas(names[..|names| - 1]) + ", and " + Quoted(names[|names| - 1])
  }

  /** Three missing names are listed with a comma before the "and". */
  lemma NameListThree(a: string, b: string, c: string)
    ensures NameList([a, b, c]) == "'" + a + "', '" + b + "', and '" + c + "'"
  {
    assert [a, b, c][..2] == [a, b];
    assert [a, b][1..] == [b];
    assert Commas([a, b]) == Quoted(a) + ", " + Quoted(b);
    assert NameList([a, b, c]) == Quoted(a) + ", " + Quoted(b) + ", and " + Quoted(c);
  }

  function Count(n: nat): string {
    Timestamps.Digits(n, 0)
  }

  /** Binding `f(**args)`: the values of the parameters in order, or the TypeError's message. */
  function Bind(tool: Tool, args: Value): Result<seq<Value>, string> {
    var f := ToolName(tool);
    if !args.Dict? then
      Failure(ModuleName + "." + f + "() argument after ** must be a mapping, not " + TypeName(args))
    else
      var keys := Keys(args.entries);
      var params := Parameters(tool);
      match FirstUnknown(keys, params)
      case Some(k) => Failure(f + "() got an unexpected keyword argument '" + k + "'")
      case None =>
        var missing := Missing(params, keys);
        if missing != [] then
          Failure(f + "() missing " + Count(|missing|) + " required positional argument"
                  + (if |missing| == 1 then "" else "s") + ": " + NameList(missing))
        else
          Success(seq(|params|, i requires 0 <= i < |params| => Get(args.entries, params[i]).GetOr(Null)))
  }

  /** Of generate_chart's parameters, the keys chart_type and sql_query leave the last three missing. */
  lemma ChartMissingNames(keys: seq<string>)
    requires keys == ["chart_type", "sql_query"]
    ensures FirstUnknown(keys, Parameters(GenerateChartTool)).None?
    ensures Missing(Parameters(GenerateChartTool), keys) == ["title", "x_column", "y_column"]
  {
    var params := Parameters(GenerateChartTool);
    assert |"title"| == 5 && |"x_column"| == 8 && |"y_column"| == 8;
    assert "title" !in keys && "x_column" !in keys && "y_column" !in keys;
    assert Missing(params[4..], keys) == ["y_column"] by {
      assert params[4..][1..] == [];
    }
    assert Missing(params[3..], keys) == ["x_column", "y_column"] by {
      assert params[3..][1..] == params[4..];
    }
    assert Missing(params[2..], keys) == ["title", "x_column", "y_column"] by {
      assert params[2..][1..] == params[3..];
    }
    assert Missing(params[1..], keys) == Missing(params[2..], keys) by {
      assert params[1..][1..] == params[2..];
    }
  }

  /**
   * A generate_chart call given only its first two arguments is refused with
   * CPython's message naming the three missing ones:
   * generate_chart() missing 3 required positional arguments: 'title', 'x_column', and 'y_column'
   */
  lemma ChartMissingThree(args: Value)
    requires args.Dict? && Keys(args.entries) == ["chart_type", "sql_query"]
    ensures Bind(GenerateChartTool, args)
            == Failure("generate_chart" + "() missing " + "3" + " required positional argument" + "s" + ": "
                       + ("'" + "title" + "', '" + "x_column" + "', and '" + "y_column" + "'"))
  {
    var missing := Missing(Parameters(GenerateChartTool), Keys(args.entries));
    ChartMissingNames(Keys(args.entries));
    assert Bind(GenerateChartTool, args)
           == Failure(ToolName(GenerateChartTool) + "() missing " + Count(|missing|) + " required positional argument"
                      + "s" + ": " + NameList(missing));
    assert Count(3) == "3";
    NameListThree("title", "x_column", "y_column");
  }

  /** A call binds exactly when the arguments form a dict whose keys are the tool's parameters. */
  lemma BindSucceedsIff(tool: Tool, args: Value)
    ensures Bind(tool, args).Success? <==>
              args.Dict? && (forall k :: k in Keys(args.entries) <==> k in Parameters(tool))
  {
    if args.Dict? {
      var keys := Keys(args.entries);
      var params := Parameters(tool);
      assert Bind(tool, args).Success? <==> FirstUnknown(keys, params).None? && Missing(params, keys) == [];
      if FirstUnknown(keys, params).None? && Missing(params, keys) == [] {
        forall k | k in params ensures k in keys {
          assert k !in Missing(params, keys);
        }
      }
      if forall k :: k in keys <==> k in params {
        if Missing(params, keys) != [] {
          assert Missing(params, keys)[0] in Missing(params, keys);
        }
      }
    }
  }

  /** A bound call passes each parameter the value of its key. */
  lemma BindValues(tool: Tool, args: Value)
    requires Bind(tool, args).Success?
    ensures var vals := Bind(tool, args).value;
            |vals| == |Parameters(tool)|
            && forall i :: 0 <= i < |vals| ==> Get(args.entries, Parameters(tool)[i]) == Some(vals[i])
  {
    var keys := Keys(args.entries);
    var params := Parameters(tool);
    assert Missing(params, keys) == [];
    forall i | 0 <= i < |params| ensures params[i] in keys {
      assert params[i] !in Missing(params, keys);
    }
  }

  /** `function_to_call(**args)`: the tool's return value, or the message of what it raised. */
  function Invoke(tool: Tool, args: Value, db: Database): Result<Value, string> {
    match Bind(tool, args)
    case Failure(m) => Failure(m)
    case Success(vals) =>
      match tool
      case QueryDatabaseTool => Success(List(QueryResult(vals[0], db)))
      case GenerateChartTool => Success(GenerateChart(vals[0], vals[1], vals[2], vals[3], vals[4], db))
      case ListTablesTool =>
        match ListTables(db)
        case Success(names) => Success(List(names))
        case Failure(e) => Failure(e.message)
  }

  /** Bound tools raise only when `list_tables` cannot create the engine. */
  lemma InvokeRaisesOnlyOnBinding(tool: Tool, args: Value, db: Database)
    requires Bind(tool, args).Success?
    ensures Invoke(tool, args, db).Failure? <==> tool == ListTablesTool && db.engineError.Some?
  {
  }
}
