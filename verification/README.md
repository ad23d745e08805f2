# Python data-analysis helpers: a Dafny model of the pure cores

The repository is a set of standalone data-science scripts. This project models the three pieces in it that hold real logic, once I/O is cut away:

- **`DataHelper`** (`data_helper.py`), a Postgres access helper. The model covers:
  - how the constructor picks its configuration source, pops `schema` and keeps only the driver keys;
  - how `write_pg` `$$`-quotes strings and datetimes and builds one bulk `INSERT … VALUES … ON CONFLICT` statement, refusing to run without a schema;
  - the exact `TRUNCATE TABLE` text;
  - how `query_string`, `load_market_category` and `query_string_all` fill their SQL templates, in particular how `only_active` switches the `and product_status_flag` predicate.
- **`FileOpt`** (`file_operation.py`). `find_files_by_wildcard` keeps the directory entries that match `prefix*suffix`. `find_latest_file` picks the entry with the latest `os.path.getctime` value (its ctime: on POSIX the time of the last status change, such as a `chmod` or rename, not its creation; on Windows the creation time). The model includes the `fnmatch` semantics those calls rely on.
- **`run_with_retry`** (`databricks_run_jobs_together.py`), the notebook retry loop. The model runs it against a given sequence of call outcomes.

Each Python operation becomes a Dafny function or method that returns what the original returns, or the statement text the original would hand to the database. A raised exception becomes an `Err` or `Raised` value.

Modules:

| file | module | models |
|---|---|---|
| outcomes.dfy | `Outcomes` | `Option` (Python `None`) and `Result` (return or raise) |
| strings.dfy | `Strings` | `str.join` and where each item lands in the joined text |
| data_helper.dfy | `DataHelper` | construction, `stringable`, `write_pg`, `truncate_table` |
| sql_template.dfy | `SqlTemplate` | f-string templates as lists of literal pieces and holes |
| market_queries.dfy | `MarketQueries` | `query_string`, `load_market_category`, `query_string_all` |
| fnmatch.dfy | `Fnmatch` | `fnmatch.fnmatch` with `*` wildcards, POSIX case rules |
| file_operation.dfy | `FileOperation` | `FileOpt.find_files_by_wildcard`, `FileOpt.find_latest_file` |
| run_jobs.dfy | `RunJobs` | `run_with_retry` |

Where the code and its docstrings or parameter names (`max_retries`, "no value means the default path") suggest different behaviour, the model follows the code:

- A configuration that lacks required keys does **not** make construction fail. The constructor keeps whichever of `user, password, host, dbname, port` are present (`DataHelper.Init`).
- `write_pg` without a schema raises `ValueError("Schema must be provided.")` (`DataHelper.WritePg`).
- The `schema` that `write_pg` and `truncate_table` use is their own argument, not the schema stored on the helper. Only the two query templates use the helper's stored schema. When that schema is unset, the queries name `None.dim_geography` and so on (`MarketQueries.PyStr`).
- `folder=None` does not select the default directory, as the `FileOpt` docstrings say a missing value does. `None` passes the test `folder != ''`, and `os.listdir(None)` lists the current working directory (`FileOperation.CheckPath`).
- The `FileOpt` docstrings say `prefix` and `suffix` can be null, but `prefix + '*' + suffix` then raises TypeError at the first directory entry. An empty listing gives `[]`, and `find_latest_file` then raises from `max` (`FileOperation.FindFilesByWildcard`, `FileOperation.FindLatestFile`).
- `run_with_retry` makes `max_retries + 2` calls before it re-raises, not `max_retries + 1`. The guard `num_retries > max_retries` lets a retry through when `num_retries == max_retries` (`RunJobs.RunWithRetry`).

## Model

| member | source | states |
|---|---|---|
| `Strings.JoinPlacesItem` | data_helper.py:110-112 | in `sep.join(xs)` item `i` starts at the sum of the earlier items' lengths plus one separator each; a separator follows every item but the last, and the last item ends the text |
| `DataHelper.PathJoin` | data_helper.py:73 | `os.path.join(dir, name)` ends with `name`; it is `name` alone when `name` is absolute, otherwise `dir`, then one `/` exactly when `dir` is non-empty and does not already end in `/`, then `name` |
| `DataHelper.ChooseSource` | data_helper.py:69-75 | a given mapping wins over any JSON path; if there is none, the path is `json_path`; if `json_path` is also missing, it is `connection.json` under `GSK_HOME`, and an unset `GSK_HOME` is an error |
| `DataHelper.LoadConfig` | data_helper.py:70-75 | a given mapping is used unchanged (it is a copy); a JSON source yields the file's contents, or an error naming the path when the file cannot be read |
| `DataHelper.Init` | data_helper.py:65-79 | `schema` is the input's `schema` value if that key is present, else None; `schema` never appears among the connection parameters; the parameters are the input restricted to the five required keys, values unchanged; with all five present, exactly those five |
| `DataHelper.New` | data_helper.py:67-79 | with `connection_params` given, the helper is `Init` of that mapping whatever `json_path` is; a successful construction never passes `schema` on and passes only required keys; with only a JSON path, construction succeeds exactly when that file is readable |
| `DataHelper.GivenParamsIgnoreJsonPath` | data_helper.py:69-70 | two constructions with the same `connection_params` agree, whatever their JSON paths, environments and files, and both succeed |
| `DataHelper.FormatIfString` | data_helper.py:106-107 | `format_if_string`, with `stringable` (data_helper.py lines 17-18) deciding which cells are quoted: a `str` or `datetime` cell becomes its text plus four delimiter characters; any other cell is rendered as its own text |
| `DataHelper.FormatIfStringQuotes` | data_helper.py:106-107 | a stringable cell's rendering starts and ends with `$$`, and removing those delimiters gives back the cell's text |
| `DataHelper.FormattedRow` | data_helper.py:109-110 | one rendered value per cell of the row, in column order |
| `DataHelper.Groups` | data_helper.py:112 | one parenthesised `(row_vals)` group per record, in record order |
| `DataHelper.WritePg` | data_helper.py:93-118 | an error exactly when `schema` is None, and then `ValueError("Schema must be provided.")` with no statement produced; otherwise the statement is the `INSERT INTO schema.table (columns) VALUES` header, then the groups, then `ON CONFLICT <clause>` |
| `DataHelper.DefaultConflictIsDoNothing` | data_helper.py:96-116 | without an explicit `on_conflict`, the statement succeeds and ends in `ON CONFLICT DO NOTHING` |
| `DataHelper.RecordGroupAt` | data_helper.py:112 | record `i`'s group sits at its offset in the VALUES text, followed by `, ` unless it is the last record, whose group ends the text |
| `DataHelper.CellValueAt` | data_helper.py:109-110 | cell `j` of a row sits, formatted, at its offset in `row_vals`, followed by `, ` unless it is the last cell |
| `DataHelper.InsertedCellAt` | data_helper.py:106-116 | every cell `(i, j)` of the dataframe appears, `$$`-quoted if stringable, in the statement at record `i`'s group and column `j`'s position in it |
| `DataHelper.TruncateTable` | data_helper.py:120-126 | the statement is `TRUNCATE TABLE` with two spaces, then `schema.table`, inside the f-string's fixed leading and trailing whitespace |
| `SqlTemplate.Fill` | data_helper.py:173-181 | a table hole renders as `schema.table`; the active-flag hole renders as `and product_status_flag` when `only_active` is true and as nothing otherwise |
| `SqlTemplate.RenderConcat` | data_helper.py:165-208 | rendering a template made of two parts is rendering each part and concatenating |
| `SqlTemplate.RenderIgnoresFlag` | data_helper.py:165-208 | a template part without the active-flag hole renders the same whatever `only_active` is |
| `SqlTemplate.FlagToggle` | data_helper.py:181 | with one flag hole between a head and a tail, the text with the flag on is the text with the flag off plus the predicate inserted where the head ends |
| `SqlTemplate.SchemaOnly` | data_helper.py:217-259 | a template whose only holes are table references renders the same under any bindings with the same schema |
| `MarketQueries.PyStr` | data_helper.py:173-180 | a filter or schema is spliced in as its text; `None` is spliced in as `None` |
| `MarketQueries.FlagOnlyOnce` | data_helper.py:181 | the `query_string` template has its active-flag hole in one place only |
| `MarketQueries.OnlyActiveToggle` | data_helper.py:164-208 | `query_string` with `only_active` true equals the query with it false plus `and product_status_flag` inserted at one fixed offset, and differs in nothing else |
| `MarketQueries.LoadMarketCategoryQuery` | data_helper.py:134-161 | `load_market_category` reads `query_string` of its arguments with the filters defaulting to None; with `only_active` set it is `query_string`'s default text, and with its default False it is that text with `and product_status_flag` taken out at the one offset where the predicate goes |
| `MarketQueries.DefaultsDisagree` | data_helper.py:135-164 | with defaults, `query_string` (True) and `load_market_category` (False) produce different queries; the first is longer by the predicate's length |
| `MarketQueries.AllTemplateHasOnlyTables` | data_helper.py:216-259 | `query_string_all` has no filter or flag hole, only schema-qualified table references |
| `MarketQueries.QueryStringAll` | data_helper.py:216-259 | the unfiltered query depends on the helper's schema alone |
| `Fnmatch.LiteralMatch` | file_operation.py:49 | a pattern without `*` matches exactly the name equal to it |
| `Fnmatch.LiteralHead` | file_operation.py:49 | a star-free stretch of the pattern matches exactly when the name agrees with it character for character there and the rest of the name matches the rest of the pattern |
| `Fnmatch.StarThenLiteral` | file_operation.py:49 | `*` followed by a literal to the end of the pattern matches exactly the rests of names that end in the literal |
| `Fnmatch.StarBetweenLiterals` | file_operation.py:49 | a pattern with a single `*` matches exactly the names that agree with the part before the star at their start and with the part after it at their end, and are long enough for both |
| `Fnmatch.WildcardMatch` | file_operation.py:49 | `prefix*suffix` with literal parts matches a name exactly when it starts with the prefix, ends with the suffix, and is at least as long as both together |
| `Fnmatch.StarMatchesAll` | file_operation.py:49 | the pattern `*` matches every name, the empty one included |
| `FileOperation.CheckPath` | file_operation.py:45 | the searched directory is `folder` when it is a non-empty string, the default directory when it is the empty string, and the current directory `.` when it is `None` |
| `FileOperation.Filter` | file_operation.py:46-51 | the result is no longer than the listing; it holds exactly the listing's entries that match `prefix*suffix` |
| `FileOperation.FilterIsSubsequence` | file_operation.py:46-51 | the matched entries keep the listing's order: they are the listing with entries dropped |
| `FileOperation.FilterLiteral` | file_operation.py:49 | with literal prefix and suffix, an entry is returned exactly when it is listed, starts with the prefix, ends with the suffix and is long enough for both |
| `FileOperation.FilterEverything` | file_operation.py:49 | with empty prefix and suffix every listed entry is returned, in listing order |
| `FileOperation.FindFilesByWildcard` | file_operation.py:44-51 | listing a missing directory raises for that path; a `None` prefix or suffix raises TypeError at the first entry, so only an empty listing gives `[]`; otherwise the loop returns exactly the filtered listing of the searched directory |
| `FileOperation.Candidates` | file_operation.py:76 | each candidate path is the default directory, `/`, and the entry, in listing order, even when another folder was searched |
| `FileOperation.LatestIsUnique` | file_operation.py:77 | at most one index is the first path with the latest ctime, so the choice is determined |
| `FileOperation.MaxByCtime` | file_operation.py:77 | no paths raises; the first path without a ctime raises for that path; otherwise the result is the first path whose ctime no other path exceeds |
| `FileOperation.Basename` | file_operation.py:78 | the basename has no `/`, ends the path, and is preceded by a `/` unless it is the whole path |
| `FileOperation.BasenameOfCandidate` | file_operation.py:76-78 | the basename of `dir/name` is `name` for an entry without `/` |
| `FileOperation.FindLatestFile` | file_operation.py:74-78 | a `None` prefix or suffix raises TypeError on a non-empty listing, and the empty match list then raises in `max`; no match raises; every candidate having a ctime means success; a success returns the latest candidate (first on ties), built under the default directory, or its basename, which is the listed entry itself, when `filename_only` is set |
| `RunJobs.AttemptBudget` | databricks_run_jobs_together.py:2-8 | the calls made when every call fails: `max_retries + 2`, but at least one |
| `RunJobs.FirstSuccess` | databricks_run_jobs_together.py:3-5 | the index of the first successful call from a starting point, with every call before it failed, or the bound when none below it succeeds |
| `RunJobs.RunWithRetry` | databricks_run_jobs_together.py:1-11 | every call uses the same notebook, timeout and args; the first success is returned at once; failures are retried with `num_retries` one higher each time, up to `max(max_retries + 2, 1)` calls; if every call fails and `max_retries >= -1`, exactly `max_retries + 2` calls are made, the last failure is re-raised, and `num_retries` is then `max_retries + 1` |

## Left out

- Database execution (`query`, `load_pg`, `sql_execute`, the reads in `load_market_category` and `load_market_category_all`). This is psycopg2/pandas I/O. The model returns the statement text that would be executed.
- Reading `connection.json` and the `GSK_HOME` lookup. The parsed file contents and the environment value are inputs.
- DataHelper.LoadConfig: the exception type is not modelled. When the file or `GSK_HOME` is missing, the `finally` block touches an unbound `d`, so what surfaces is an `UnboundLocalError`. The model reports the path or the missing variable instead.
- Configuration values are held as their text. What the driver does with a numeric `port` is outside the model.
- DataHelper.FormatIfString: Python's `str()` of floats, ints, `None` and datetimes is given as data (`shown`). Float formatting is not modelled.
- Non-string column names and duplicate column names in the dataframe are not modelled. Neither is the pandas version dependence of `to_dict(orient="record")`.
- Values that themselves contain `$$` break the quoting. The model renders them as the source does and claims nothing about how the database would read them.
- The literal column lists and join text of the queries are reproduced exactly inside the templates, but no lemma is stated about them.
- MarketQueries.OnlyActiveToggle: the toggle is stated as an exact insertion at one offset, not as "the text contains `and product_status_flag` iff `only_active`". The filter values could themselves contain that text, so the iff form does not hold.
- Fnmatch.WildcardMatch: the metacharacters `?`, `[` and `]` in prefixes and suffixes are matched literally here. A `*` inside a prefix or suffix is a wildcard in the model, as in `fnmatch`; only the characterisation lemmas assume there is none. Case folding on non-POSIX systems is not modelled.
- `os.listdir` and `os.path.getctime` are data: a map from directory to listing (the current working directory under the key `.`) and a map from path to ctime. Ctimes are integers, and only their order matters.
- FileOperation.FindLatestFile: "the basename is the listed entry" is stated only for listings whose names contain no `/`. `os.listdir` always returns such names.
- `dbutils.notebook.run` is the outcome function. Exceptions not derived from `Exception` are not modelled, and neither is the `print` of each retried error.
- The module-level script lines after `run_with_retry`, which are also mis-indented.
- `pyspark.py`, `excel_related.py`, `deseaonalize_ts.py`, the plotting scripts and `super_function.py`. These are library calls, rendering or a language demo, with no logic of their own to model.
