# SQL Glitch scanner core in Dafny

This project models the scanning core of `sql-glitch.py`, an educational
SQL-injection scanner. For a target URL it:

- checks that the target answers with status 200;
- splits the query string into `name=value` parameters;
- runs four probes on each parameter: error-based, boolean-based, time-based and union-based;
- enumerates database information, tables and columns when the error-based, time-based or union-based probe fires;
- finally looks for directory listings.

The network is a deterministic *oracle*: a function from a URL to
`Some(response)` (status, body text, elapsed milliseconds) or `None` for a
request that raised. The error-based, time-based and union-based probes are
methods that walk their payloads as the source does; the boolean probe is a
function of its two answers. Each probe returns its verdict
`(vulnerable, payload)` and the URLs it requested, in order. Each probe
method, like each enumeration method, is proved equal to a specification
function whose meaning is stated by lemmas: the first payload that hits, the column count as
the first erroring `ORDER BY` index minus one, and enumeration results as the
candidates that answered, in candidate order. `run_scan` becomes `RunScan`,
proved equal to `Scan`, which builds one `ParamReport` per parsed parameter.

Modules:

- `Wrappers`: `Option`.
- `Text`: lower-casing, substring search, decimal rendering, `split`/`join` on one character, `split(sep, 1)`.
- `Seqs`: first index, order-preserving filter, subsequence.
- `Http`: responses, the oracle, test URLs, the accessibility check.
- `Config`: the built-in default settings.
- `Probes`: the error-based, boolean-based and time-based probes.
- `Union`: the union-based probe.
- `Enumeration`: database information, tables, columns and directory listings.
- `Scanner`: query parsing and `run_scan`.

## Model

| member | source | states |
|---|---|---|
| Http.CheckUrlAccessibility | sql-glitch.py:116-123 | accessible exactly when the request answered and its status is 200; a raised request is not accessible |
| Http.TestUrlShape | sql-glitch.py:136 | a test URL is the base, `?`, the parameter name, `=`, the value, then the payload at the very end |
| Http.TestUrlInjective | sql-glitch.py:136 | different payloads on the same parameter give different URLs, so each probe request is distinct |
| Probes.FirstHit | sql-glitch.py:135-158 | vulnerable iff some payload hits; then the reported payload is the first hit and exactly the URLs up to it were requested; otherwise the verdict is `(False, "")` and every payload URL was requested |
| Probes.TestBasicInjection | sql-glitch.py:125-158 | the nested payload/pattern loops report the first payload whose answered body matches an error pattern before any pattern search raises, and request the URLs up to it; a raised request or a raised pattern search moves to the next payload |
| Probes.PatternScanWithoutRaise | sql-glitch.py:143-150 | when no pattern search raises, the pattern scan of a body fires exactly when some pattern matches it |
| Probes.BooleanDecision | sql-glitch.py:176-188 | vulnerable, with payload `AND 1=1/1=2`, iff the two statuses differ or the two body lengths differ; otherwise `(False, "")` |
| Probes.TestBooleanBasedInjection | sql-glitch.py:160-192 | vulnerable iff both requests answered and they differ in status or body length; a raise on the first request stops before the second |
| Probes.TestTimeBasedInjection | sql-glitch.py:194-225 | reports the first of the four delay payloads whose request answered in more than 4000 ms, and requests only the URLs up to it |
| Union.SweepColumns | sql-glitch.py:245-259 | with `count` columns, tries `'a'` in column 0, 1, … with NULL elsewhere; it stops at the first accepted vector, or at the first request that raises, or after all columns are rejected |
| Union.OrderByStep | sql-glitch.py:232-264 | one `ORDER BY i` round: a raise or a non-error answer moves on to `i+1`; an error answer runs the sweep for `i-1` columns and ends the probe unless the sweep raised |
| Union.TestUnionBasedInjection | sql-glitch.py:227-267 | the verdict and the URLs requested are those of `ORDER BY 1..19` as above; no error at any index gives `(False, "")` |
| Union.FirstOrderByError | sql-glitch.py:232-242 | the first index from `i` to 19 whose `ORDER BY` answer signals an error, or 20 when there is none |
| Union.ColumnCount | sql-glitch.py:232-243 | the estimated column count is the first erroring index minus one; none when no index up to 19 errs |
| Union.UnionVectorShape | sql-glitch.py:245-249 | the select list has `count` entries, `'a'` exactly at position `j` and NULL elsewhere, and splitting its comma join gives it back |
| Union.UnionSweepFirstAccepted | sql-glitch.py:246-259 | the sweep accepts at the first position whose answer is neither status 500 nor contains "error"; it is exhausted iff every position is rejected; it fails at the first raise |
| Union.UnionWithoutColumnCount | sql-glitch.py:232-267 | when no `ORDER BY` errs, the probe is not vulnerable and requests exactly `ORDER BY 1..19` |
| Union.UnionWithColumnCount | sql-glitch.py:240-261 | with column count `c` and a sweep that did not raise, the verdict is the sweep's, after `ORDER BY 1..c+1` and the sweep's requests |
| Union.UnionZeroColumns | sql-glitch.py:240-261 | when `ORDER BY 1` already errs, the column count is 0, no UNION request is sent, and the probe reports not vulnerable |
| Union.UnionFailedSweepContinues | sql-glitch.py:262-264 | when a UNION request raises, the exception handler continues with the next `ORDER BY` index instead of stopping |
| Union.UnionFromQuiet | sql-glitch.py:232-264 | indices whose `ORDER BY` answer is quiet only add their own URL before the outcome of the later indices |
| Union.UnionPayloadReported | sql-glitch.py:246-257 | a vulnerable verdict always carries `' UNION SELECT v--` for some `count < 19` and position `j < count`; otherwise the verdict is `(False, "")` |
| Enumeration.EnumerateTables | sql-glitch.py:307-336 | the found tables are exactly the candidate tables whose request answered 200 with a non-empty body, in candidate order |
| Enumeration.EnumerateColumns | sql-glitch.py:338-366 | the found columns are exactly the candidate columns whose request answered 200 with a non-empty body, in candidate order |
| Enumeration.CollectDelayedRecords | sql-glitch.py:289-305 | a name is recorded iff its request answered and took longer than the threshold, with the note for that delay; no other name is recorded |
| Enumeration.InfoQueriesDistinct | sql-glitch.py:274-286 | the eleven information names are distinct |
| Enumeration.ExtractDatabaseInfo | sql-glitch.py:269-305 | records `Available (delay: Xs)` for exactly the queries answered in more than 4000 ms, and nothing else |
| Enumeration.EnumerateDatabaseInfo | sql-glitch.py:368-399 | records `Possible vulnerability detected` for exactly the payloads answered in more than 5000 ms |
| Enumeration.DatabaseInfoAllOrNothing | sql-glitch.py:373-377 | the three names share one payload and hence one URL; with one answer per URL, either none or all three are recorded |
| Enumeration.ScanDirectoryListing | sql-glitch.py:401-425 | the reported URLs are exactly the joined directory URLs that answered 200 with `Index of /`, `Directory Listing For` or `Parent Directory` in the body, in candidate order |
| Scanner.SplitPair | sql-glitch.py:452-453 | the name and value rejoined with `=` give the pair back, and the name holds no `=` (split at the first `=`) |
| Scanner.ParseQueryOfEmpty | sql-glitch.py:448-453 | an empty query string yields no parameters, as splitting it would |
| Scanner.ParsePairsKeepsPairsWithEquals | sql-glitch.py:450-453 | parsing keeps exactly the pairs that contain `=`, in order, each split at its first `=` |
| Scanner.ParseRenderQuery | sql-glitch.py:448-453 | parameters whose names hold no `=` or `&` and whose values hold no `&` come back unchanged after being rendered as a query string and parsed |
| Scanner.DefaultQuoteHit | sql-glitch.py:53-65 | with the default payload list, a hit on its first payload `'` is reported as `(True, "'")` after that single request |
| Scanner.FindingsShape | sql-glitch.py:492-504 | information and tables are gathered iff enumeration runs; tables and each table's columns are ordered subsets of the candidates, with one column list per reported table |
| Scanner.ReportEnumeration | sql-glitch.py:472-504 | database information and tables are gathered iff the error-based, time-based or union-based probe fired; the boolean probe alone gathers nothing; tables and columns are ordered subsets of the candidates, with one column list per table |
| Scanner.EnumerateSchema | sql-glitch.py:494-504 | the tables found, each paired with the columns found for it, in table order |
| Scanner.EnumerateFindings | sql-glitch.py:472-504 | the nested verdict dispatch gathers information and schema exactly when the error-based, time-based or union-based probe fired |
| Scanner.ScanParameter | sql-glitch.py:454-504 | runs the four probes and then the enumeration the verdicts call for, producing the parameter's report |
| Scanner.ScanPairs | sql-glitch.py:450-506 | one report per pair containing `=`, in query order |
| Scanner.RunScan | sql-glitch.py:427-524 | an inaccessible target yields no report at all; otherwise there is one parameter report per parsed parameter, in order, then the directory listings under the base URL |
| Text.NatToString | sql-glitch.py:233 | decimal digits without a leading zero |
| Text.DecimalValueOfNatToString | sql-glitch.py:233 | the rendered `ORDER BY` index reads back as the same number |
| Text.NatToStringInjective | sql-glitch.py:233 | distinct indices give distinct `ORDER BY` payloads |
| Text.JoinSplit | sql-glitch.py:450 | joining the `&`-split pieces gives the query string back |
| Text.SplitJoin | sql-glitch.py:247 | splitting a join of separator-free pieces gives the pieces back |
| Text.SplitOnce | sql-glitch.py:453 | the halves around the first `=` rebuild the pair, and the first half holds no `=` |
| Text.SplitOnceUnique | sql-glitch.py:453 | a pair built as name `=` value with no `=` in the name splits back into that name and value |
| Seqs.Filter | sql-glitch.py:320-336 | the kept elements are drawn from the input and satisfy the test |
| Seqs.FilterIsSubsequence | sql-glitch.py:320-336 | filtering keeps the survivors in their original order |
| Seqs.FilterKeepsHits | sql-glitch.py:320-336 | every input element that passes the test is kept |

## Left out

- Loading `config.json` is not modelled. The built-in defaults in `Config` are the payloads, patterns and directories the default configuration carries. The probes themselves read none of them except through `Settings`.
- Printing, the terminal header, timestamps, `main`, the interactive prompt, argument parsing and the consent question are not modelled. Neither are the web front end (`glitch_sql_interface.js`) and the HTTP API (`api_server.py`).
- Network access is an oracle. The same URL always gets the same answer, and a request that raises is `None`. The 10-second timeout, session headers and the configured timeout and delay values are not modelled.
- Timing is the elapsed time in whole milliseconds, attached to each answer. The source compares float seconds with `> 4` and `> 5`, which become `> 4000` and `> 5000` ms; fractions of a millisecond are lost.
- Enumeration.FormatSeconds: renders the delay with half-up rounding of milliseconds to hundredths of a second, not with Python's float formatting of `%.2f`.
- Regular-expression search with `re.IGNORECASE` is an uninterpreted matcher `(pattern, text) -> Option<bool>`. `None` stands for a search that raises, such as on a pattern that does not compile. `.lower()` is modelled for ASCII letters only.
- `urlparse` is taken as its result (`ParsedUrl`), and `urljoin` is an uninterpreted function.
- Dictionaries become maps, so the insertion order of `extracted_info` and `info_results` is not kept. Their keys are distinct, so nothing else is lost.
- Enumeration.DatabaseInfoAllOrNothing: holds because the oracle gives each URL one answer. The source sends three separate timed requests to that URL, and a real server may delay some of them and not the others.
- Enumeration.ExtractDatabaseInfo: the `vuln_type` and `payload` arguments are unused by the source and are not parameters of the model.
- `db_info` and the columns found are only printed or dropped by the source. The model keeps them in `ParamReport` so that their contents can be stated. `enumerate_database_info` is never called by `run_scan`, so it is a separate method.
- Union.TestUnionBasedInjection: the source's single method is split into one method per `ORDER BY` round (`OrderByStep`) and one for the UNION sweep (`SweepColumns`). The request order and verdicts are unchanged.
