/**
 The pure parts of the Postgres `DataHelper`: how the constructor splits its
 configuration mapping, how `write_pg` and `truncate_table` build their SQL
 text, and how `query_string` / `query_string_all` splice the schema, the
 filters and the active-product predicate into their query templates.
 Executing a statement is left to the database; here every operation returns
 the exact text it would send.
 */
module DataHelper {
  import opened Outcomes
  import opened Strings

  // ---------------------------------------------------------------------------
  // Construction
  // ---------------------------------------------------------------------------

  /** `DataHelper.required`: the keys handed on to the database driver. */
  const Required: set<string> := {"user", "password", "host", "dbname", "port"}

  /** A configuration mapping (the caller's dict or a parsed `connection.json`).
      Each value is held as its text. */
  type Config = map<string, string>

  /** A constructed helper: the popped `schema` and the driver's parameters. */
  datatype Helper = Helper(schema: Option<string>, connectionParams: Config)

  datatype ConfigError =
    | MissingHome              // `GSK_HOME` is not in the environment
    | Unreadable(path: string) // the JSON file at `path` cannot be opened

  /** Where the configuration comes from. */
  datatype ConfigSource = GivenParams(params: Config) | JsonFile(path: string)

  /** `os.path.join(dir, name)` for two components on POSIX. */
  function PathJoin(dir: string, name: string): (p: string)
    ensures |p| >= |name| && p[|p| - |name|..] == name
    ensures |name| > 0 && name[0] == '/' ==> p == name
    ensures (|name| == 0 || name[0] != '/') ==>
              && |p| == |dir| + |name| + (if dir != "" && dir[|dir| - 1] != '/' then 1 else 0)
              && p[..|dir|] == dir
    ensures |p| == |dir| + |name| + 1 ==> p[|dir|] == '/'
  {
    if |name| > 0 && name[0] == '/' then name
    else if dir == "" || dir[|dir| - 1] == '/' then dir + name
    else dir + "/" + name
  }

  /** The `try`/`except` of `__init__`: a given mapping wins; otherwise the JSON
      path, defaulting to `connection.json` under `GSK_HOME`. */
  function ChooseSource(jsonPath: Option<string>, connectionParams: Option<Config>,
                        home: Option<string>): (r: Result<ConfigSource, ConfigError>)
    ensures connectionParams.Some? ==> r == Ok(GivenParams(connectionParams.value))
    ensures connectionParams.None? && jsonPath.Some? ==> r == Ok(JsonFile(jsonPath.value))
    ensures connectionParams.None? && jsonPath.None? ==>
              (r.Ok? <==> home.Some?) &&
              (r.Ok? ==> r.value == JsonFile(PathJoin(home.value, "connection.json"))) &&
              (r.Err? ==> r.error == MissingHome)
  {
    match connectionParams
    case Some(p) => Ok(GivenParams(p))
    case None =>
      match jsonPath
      case Some(j) => Ok(JsonFile(j))
      case None =>
        match home
        case Some(h) => Ok(JsonFile(PathJoin(h, "connection.json")))
        case None => Err(MissingHome)
  }

  /** The mapping the source yields: a copy of the given dict, or the parsed
      file; `files` holds the parsed contents of every readable JSON file. */
  function LoadConfig(source: ConfigSource, files: map<string, Config>): (r: Result<Config, ConfigError>)
    ensures source.GivenParams? ==> r == Ok(source.params)
    ensures source.JsonFile? ==> (r.Ok? <==> source.path in files)
    ensures source.JsonFile? && r.Ok? ==> r.value == files[source.path]
    ensures source.JsonFile? && r.Err? ==> r.error == Unreadable(source.path)
  {
    match source
    case GivenParams(p) => Ok(p)
    case JsonFile(path) => if path in files then Ok(files[path]) else Err(Unreadable(path))
  }

  /** The `finally` clause and the key filter: pop `schema`, then keep exactly
      the required keys that are present. Missing required keys are not an error. */
  function Init(d: Config): (h: Helper)
    ensures h.schema == (if "schema" in d then Some(d["schema"]) else None)
    ensures "schema" !in h.connectionParams
    ensures h.connectionParams.Keys == d.Keys * Required
    ensures forall k | k in h.connectionParams :: h.connectionParams[k] == d[k]
    ensures Required <= d.Keys ==> h.connectionParams.Keys == Required
  {
    var schema := if "schema" in d then Some(d["schema"]) else None;
    var rest := d - {"schema"};
    Helper(schema, map k | k in rest.Keys * Required :: rest[k])
  }

  /** `DataHelper(json_path, connection_params)`. */
  function New(jsonPath: Option<string>, connectionParams: Option<Config>,
               home: Option<string>, files: map<string, Config>): (r: Result<Helper, ConfigError>)
    ensures connectionParams.Some? ==> r == Ok(Init(connectionParams.value))
    ensures r.Ok? ==> "schema" !in r.value.connectionParams && r.value.connectionParams.Keys <= Required
    ensures connectionParams.None? && jsonPath.Some? ==>
              (r.Ok? <==> jsonPath.value in files) &&
              (r.Ok? ==> r.value == Init(files[jsonPath.value]))
  {
    var source :- ChooseSource(jsonPath, connectionParams, home);
    var d :- LoadConfig(source, files);
    Ok(Init(d))
  }

  /** A supplied mapping makes the JSON path, the environment and the file
      system irrelevant. */
  lemma GivenParamsIgnoreJsonPath(p: Config, j1: Option<string>, j2: Option<string>,
                                  home1: Option<string>, home2: Option<string>,
                                  files1: map<string, Config>, files2: map<string, Config>)
    ensures New(j1, Some(p), home1, files1) == New(j2, Some(p), home2, files2)
    ensures New(j1, Some(p), home1, files1).Ok?
  {
  }

  // ---------------------------------------------------------------------------
  // write_pg and truncate_table
  // ---------------------------------------------------------------------------

  /** A dataframe cell as `write_pg` sees it. `shown` is the cell's `str()` text;
      Python's rendering of floats, ints and `None` is not modelled. */
  datatype Value =
    | Str(text: string)
    | DateTime(shown: string)  // a `datetime.datetime`, pandas `Timestamp` included
    | Other(shown: string)     // every other cell type

  /** `stringable(x)`: a `str` or a `datetime`. */
  predicate Stringable(v: Value) {
    v.Str? || v.DateTime?
  }

  /** `f"{x}"` of a cell. */
  function Shown(v: Value): string {
    match v
    case Str(t) => t
    case DateTime(s) => s
    case Other(s) => s
  }

  /** `format_if_string`, rendered: stringable cells are `$$`-quoted, the rest appear as-is. */
  function FormatIfString(v: Value): (r: string)
    ensures Stringable(v) ==> |r| == |Shown(v)| + 4
    ensures !Stringable(v) ==> r == Shown(v)
  {
    if Stringable(v) then "$$" + Shown(v) + "$$" else Shown(v)
  }

  /** Whether a text is a `$$`-quoted literal. */
  predicate IsDollarQuoted(r: string) {
    |r| >= 4 && r[..2] == "$$" && r[|r| - 2..] == "$$"
  }

  /** The text between the `$$` delimiters. */
  function Unquote(r: string): (t: string)
    requires IsDollarQuoted(r)
    ensures |t| == |r| - 4
  {
    r[2..|r| - 2]
  }

  /** A stringable cell is quoted, and unquoting gives back its text. */
  lemma FormatIfStringQuotes(v: Value)
    requires Stringable(v)
    ensures IsDollarQuoted(FormatIfString(v))
    ensures Unquote(FormatIfString(v)) == Shown(v)
  {
    var r := FormatIfString(v);
    assert r == "$$" + Shown(v) + "$$";
    assert r[..2] == "$$";
    assert r[|r| - 2..] == "$$";
    assert r[2..|r| - 2] == Shown(v);
  }

  /** A dataframe: its column names and its rows, each row listing its cells in
      column order (what `to_dict(orient="record")` and `row[col]` give back). */
  datatype Frame = Frame(columns: seq<string>, rows: seq<seq<Value>>)

  /** Every row has one cell per column. */
  predicate Rectangular(df: Frame) {
    forall i | 0 <= i < |df.rows| :: |df.rows[i]| == |df.columns|
  }

  /** The formatted cells of one row, in column order. */
  function FormattedRow(row: seq<Value>): (r: seq<string>)
    ensures |r| == |row|
    ensures forall j | 0 <= j < |row| :: r[j] == FormatIfString(row[j])
  {
    seq(|row|, j requires 0 <= j < |row| => FormatIfString(row[j]))
  }

  /** `row_vals(row)`. */
  function RowVals(row: seq<Value>): string {
    Join(", ", FormattedRow(row))
  }

  /** One parenthesised group per record. */
  function Groups(rows: seq<seq<Value>>): (r: seq<string>)
    ensures |r| == |rows|
    ensures forall i | 0 <= i < |rows| :: r[i] == "(" + RowVals(rows[i]) + ")"
  {
    seq(|rows|, i requires 0 <= i < |rows| => "(" + RowVals(rows[i]) + ")")
  }

  /** `all_records`: the text after `VALUES`. */
  function AllRecords(rows: seq<seq<Value>>): string {
    Join(", ", Groups(rows))
  }

  /** `schema.table`. */
  function Qualified(schema: string, table: string): string {
    schema + "." + table
  }

  const InsertLead := "\n            INSERT INTO "
  const InsertValues := ") \n            VALUES "
  const ConflictKeyword := " ON CONFLICT "
  const StatementTrail := "\n        "

  /** The `write_pg` f-string up to `VALUES `: target table and column list. */
  function InsertHeader(schema: string, table: string, columns: seq<string>): string {
    InsertLead + Qualified(schema, table) + " (" + Join(", ", columns) + InsertValues
  }

  /** The `write_pg` f-string after the VALUES text. */
  function ConflictClause(onConflict: string): string {
    ConflictKeyword + onConflict + StatementTrail
  }

  datatype WriteError = ValueError(message: string)

  /** `write_pg`: the statement handed to `sql_execute`, or the `ValueError`
      raised before anything is executed when no schema is given. */
  function WritePg(tableName: string, df: Frame, onConflict: string := "DO NOTHING",
                   schema: Option<string> := None): (r: Result<string, WriteError>)
    ensures schema.None? <==> r.Err?
    ensures r.Err? ==> r.error == ValueError("Schema must be provided.")
    ensures r.Ok? ==> r.value == InsertHeader(schema.value, tableName, df.columns)
                                 + AllRecords(df.rows) + ConflictClause(onConflict)
  {
    match schema
    case None => Err(ValueError("Schema must be provided."))
    case Some(s) => Ok(InsertHeader(s, tableName, df.columns) + AllRecords(df.rows) + ConflictClause(onConflict))
  }

  /** Without an explicit `on_conflict` the statement ends in `ON CONFLICT DO NOTHING`. */
  lemma DefaultConflictIsDoNothing(tableName: string, df: Frame, schema: string)
    ensures WritePg(tableName, df, schema := Some(schema)).Ok?
    ensures var s := WritePg(tableName, df, schema := Some(schema)).value;
            |s| >= 23 + |StatementTrail| &&
            s[|s| - |StatementTrail| - 23..] == " ON CONFLICT DO NOTHING" + StatementTrail
  {
    var pre := InsertHeader(schema, tableName, df.columns) + AllRecords(df.rows);
    assert ConflictClause("DO NOTHING") == " ON CONFLICT DO NOTHING" + StatementTrail;
  }

  /** Record `i` is the `i`-th group of the VALUES text, followed by `", "`
      unless it is the last, which ends the text. */
  lemma RecordGroupAt(rows: seq<seq<Value>>, i: nat)
    requires i < |rows|
    ensures var o := JoinOffset(", ", Groups(rows), i);
            var g := "(" + RowVals(rows[i]) + ")";
            && o + |g| <= |AllRecords(rows)|
            && AllRecords(rows)[o..o + |g|] == g
            && (i + 1 < |rows| ==>
                  && JoinOffset(", ", Groups(rows), i + 1) == o + |g| + 2
                  && o + |g| + 2 <= |AllRecords(rows)|
                  && AllRecords(rows)[o + |g|..o + |g| + 2] == ", ")
            && (i + 1 == |rows| ==> o + |g| == |AllRecords(rows)|)
  {
    JoinPlacesItem(", ", Groups(rows), i);
  }

  /** Cell `j` of a row is the `j`-th formatted value of `row_vals`, followed by
      `", "` unless it is the last. */
  lemma CellValueAt(row: seq<Value>, j: nat)
    requires j < |row|
    ensures var o := JoinOffset(", ", FormattedRow(row), j);
            var f := FormatIfString(row[j]);
            && o + |f| <= |RowVals(row)|
            && RowVals(row)[o..o + |f|] == f
            && (j + 1 < |row| ==>
                  && JoinOffset(", ", FormattedRow(row), j + 1) == o + |f| + 2
                  && o + |f| + 2 <= |RowVals(row)|
                  && RowVals(row)[o + |f|..o + |f| + 2] == ", ")
            && (j + 1 == |row| ==> o + |f| == |RowVals(row)|)
  {
    JoinPlacesItem(", ", FormattedRow(row), j);
  }

  /** Where cell `(i, j)` of the frame lands in the insert statement. */
  function CellOffset(schema: string, table: string, df: Frame, i: nat, j: nat): nat
    requires i < |df.rows| && j < |df.rows[i]|
  {
    |InsertHeader(schema, table, df.columns)| + JoinOffset(", ", Groups(df.rows), i) + 1
      + JoinOffset(", ", FormattedRow(df.rows[i]), j)
  }

  /** Every cell of the frame appears, formatted, at its place in the statement:
      row `i`'s group, column `j`'s position inside it. */
  lemma InsertedCellAt(tableName: string, df: Frame, onConflict: string, schema: string, i: nat, j: nat)
    requires Rectangular(df)
    requires i < |df.rows| && j < |df.columns|
    ensures var s := WritePg(tableName, df, onConflict, Some(schema)).value;
            var o := CellOffset(schema, tableName, df, i, j);
            var f := FormatIfString(df.rows[i][j]);
            o + |f| <= |s| && s[o..o + |f|] == f
  {
    var row := df.rows[i];
    GroupSlice(df.rows, i);
    CellSlice(row, j);
    LocateCell(WritePg(tableName, df, onConflict, Some(schema)).value,
               InsertHeader(schema, tableName, df.columns), AllRecords(df.rows), ConflictClause(onConflict),
               RowVals(row), FormatIfString(row[j]),
               JoinOffset(", ", Groups(df.rows), i), JoinOffset(", ", FormattedRow(row), j),
               CellOffset(schema, tableName, df, i, j));
  }

  /** The parenthesised group of record `i`, found at its offset in the VALUES text. */
  lemma GroupSlice(rows: seq<seq<Value>>, i: nat)
    requires i < |rows|
    ensures var o := JoinOffset(", ", Groups(rows), i);
            var t := RowVals(rows[i]);
            o + |t| + 2 <= |AllRecords(rows)| && AllRecords(rows)[o..o + |t| + 2] == "(" + t + ")"
  {
    RecordGroupAt(rows, i);
  }

  /** The formatted cell `j`, found at its offset in `row_vals`. */
  lemma CellSlice(row: seq<Value>, j: nat)
    requires j < |row|
    ensures var o := JoinOffset(", ", FormattedRow(row), j);
            var f := FormatIfString(row[j]);
            o + |f| <= |RowVals(row)| && RowVals(row)[o..o + |f|] == f
  {
    CellValueAt(row, j);
  }

  /** A value found inside a parenthesised group of the VALUES text is found
      inside the whole statement. */
  lemma LocateCell(s: string, header: string, values: string, clause: string,
                   rowText: string, f: string, go: nat, co: nat, at: nat)
    requires s == header + values + clause
    requires go + |rowText| + 2 <= |values| && values[go..go + |rowText| + 2] == "(" + rowText + ")"
    requires co + |f| <= |rowText| && rowText[co..co + |f|] == f
    requires at == |header| + go + 1 + co
    ensures at + |f| <= |s| && s[at..at + |f|] == f
  {
    var g := "(" + rowText + ")";
    MiddleSlice(header, values, clause);
    MiddleSlice("(", rowText, ")");
    NestedSlice(g, rowText, f, 1, co);
    NestedSlice(values, g, f, go, 1 + co);
    NestedSlice(s, values, f, |header|, go + 1 + co);
  }

  /** The middle part of a three-part concatenation. */
  lemma MiddleSlice(a: string, b: string, c: string)
    ensures (a + b + c)[|a|..|a| + |b|] == b
  {
    assert (a + b + c)[|a|..] == b + c;
  }

  /** A slice of a slice is a slice. */
  lemma NestedSlice(s: string, x: string, y: string, p: nat, q: nat)
    requires p + |x| <= |s| && s[p..p + |x|] == x
    requires q + |y| <= |x| && x[q..q + |y|] == y
    ensures s[p + q..p + q + |y|] == y
  {
    var t := s[p + q..p + q + |y|];
    forall k | 0 <= k < |y|
      ensures t[k] == y[k]
    {
      assert t[k] == s[p..p + |x|][q + k];
      assert y[k] == x[q..q + |y|][k];
    }
  }

  const TruncateLead := "\n            TRUNCATE TABLE  "

  /** `truncate_table`: the statement handed to `sql_execute`. The schema is a
      required argument here, so there is no guard. */
  function TruncateTable(tableName: string, schema: string): (r: string)
    ensures |r| == |TruncateLead| + |Qualified(schema, tableName)| + |StatementTrail|
    ensures r[..|TruncateLead|] == TruncateLead
    ensures r[|TruncateLead|..|r| - |StatementTrail|] == Qualified(schema, tableName)
    ensures r[|r| - |StatementTrail|..] == StatementTrail
  {
    TruncateLead + Qualified(schema, tableName) + StatementTrail
  }
}
