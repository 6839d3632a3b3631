/**
 * `run_scan`: check that the target answers, split its query string into
 * parameters, run the four probes on each, enumerate when a probe other
 * than the boolean one fired, and finally look for directory listings.
 */
module Scanner {
  import opened Wrappers
  import opened Text
  import opened Seqs
  import opened Http
  import opened Config
  import opened Probes
  import opened Union
  import opened Enumeration

  /** One `name=value` pair of the query string. */
  datatype Param = Param(name: string, value: string)

  function PairText(p: Param): string
  {
    p.name + "=" + p.value
  }

  predicate HasEquals(pair: string)
  {
    '=' in pair
  }

  /** `pair.split('=', 1)`: the name is the text before the first `=`, the value all the rest. */
  function SplitPair(pair: string): (p: Param)
    requires HasEquals(pair)
    ensures PairText(p) == pair
    ensures '=' !in p.name
  {
    var halves := SplitOnce(pair, '=');
    Param(halves.0, halves.1)
  }

  /** The parameters of a list of `&`-separated pairs: pairs without `=` are skipped. */
  function ParsePairs(pairs: seq<string>): seq<Param>
    decreases |pairs|
  {
    if pairs == [] then []
    else
      var last := pairs[|pairs| - 1];
      ParsePairs(pairs[..|pairs| - 1]) + (if HasEquals(last) then [SplitPair(last)] else [])
  }

  /** The parameters `run_scan` tests; an empty query string has none. */
  function ParseQuery(query: string): seq<Param>
  {
    if |query| > 0 then ParsePairs(Split(query, '&')) else []
  }

  /**
   * Parsing keeps exactly the pairs that contain `=`, in their original
   * order; each parameter's name is the part before the first `=` and its
   * value is everything after it.
   */
  lemma {:induction false} ParsePairsKeepsPairsWithEquals(pairs: seq<string>)
    ensures |ParsePairs(pairs)| == |Filter(pairs, HasEquals)|
    ensures forall i :: 0 <= i < |ParsePairs(pairs)| ==>
      PairText(ParsePairs(pairs)[i]) == Filter(pairs, HasEquals)[i] && '=' !in ParsePairs(pairs)[i].name
    decreases |pairs|
  {
    if pairs != [] {
      ParsePairsKeepsPairsWithEquals(pairs[..|pairs| - 1]);
    }
  }

  /** A parameter that survives a trip through a query string unchanged. */
  predicate Renderable(p: Param)
  {
    '=' !in p.name && '&' !in p.name && '&' !in p.value
  }

  function PairTexts(ps: seq<Param>): seq<string>
  {
    seq(|ps|, i requires 0 <= i < |ps| => PairText(ps[i]))
  }

  /** `name=value` pairs joined with `&`. */
  function RenderQuery(ps: seq<Param>): string
  {
    Join(PairTexts(ps), '&')
  }

  lemma PairTextParses(p: Param)
    requires Renderable(p)
    ensures HasEquals(PairText(p)) && SplitPair(PairText(p)) == p
  {
    assert PairText(p)[|p.name|] == '=';
    SplitOnceUnique(PairText(p), '=', p.name, p.value);
  }

  lemma ParsePairsSnocPair(texts: seq<string>, p: Param)
    requires Renderable(p)
    ensures ParsePairs(texts + [PairText(p)]) == ParsePairs(texts) + [p]
  {
    PairTextParses(p);
    assert (texts + [PairText(p)])[..|texts|] == texts;
  }

  lemma {:induction false} ParsePairsOfTexts(ps: seq<Param>)
    requires forall i :: 0 <= i < |ps| ==> Renderable(ps[i])
    ensures ParsePairs(PairTexts(ps)) == ps
    decreases |ps|
  {
    if ps != [] {
      var init := ps[..|ps| - 1];
      var last := ps[|ps| - 1];
      assert init + [last] == ps;
      forall i | 0 <= i < |init|
        ensures Renderable(init[i])
      {
        assert init[i] == ps[i];
      }
      ParsePairsOfTexts(init);
      PairTextsSnoc(init, last);
      ParsePairsSnocPair(PairTexts(init), last);
    }
  }

  lemma PairTextsSnoc(ps: seq<Param>, p: Param)
    ensures PairTexts(ps + [p]) == PairTexts(ps) + [PairText(p)]
  {
  }

  /** The empty query string splits into one empty pair, which has no `=`: no parameters either way. */
  lemma ParseQueryOfEmpty(query: string)
    ensures ParseQuery(query) == ParsePairs(Split(query, '&'))
  {
    if |query| == 0 {
      assert Split(query, '&') == [""];
      assert ParsePairs([""]) == ParsePairs([]) + [];
    }
  }

  /** Rendering parameters as a query string and parsing it back gives the same parameters. */
  lemma ParseRenderQuery(ps: seq<Param>)
    requires forall i :: 0 <= i < |ps| ==> Renderable(ps[i])
    ensures ParseQuery(RenderQuery(ps)) == ps
  {
    if ps != [] {
      var texts := PairTexts(ps);
      forall i | 0 <= i < |texts|
        ensures '&' !in texts[i]
      {
        assert texts[i] == ps[i].name + ("=" + ps[i].value);
      }
      SplitJoin(texts, '&');
      ParseQueryOfEmpty(RenderQuery(ps));
      ParsePairsOfTexts(ps);
    }
  }

  /**
   * With the default settings, a body that trips the error patterns on the
   * first default payload, a lone quote, is reported after that one request.
   */
  lemma DefaultQuoteHit(o: Oracle, matches: Matcher, t: Target)
    requires ErrorHit(o, matches, t, DefaultSettings.errorPatterns)("'")
    ensures ErrorBased(o, matches, t, DefaultSettings.testPayloads, DefaultSettings.errorPatterns)
         == Probe(Verdict(true, "'"), [TestUrl(t, "'")])
  {
    var payloads := DefaultSettings.testPayloads;
    assert payloads[0] == "'";
    assert payloads[..1] == ["'"];
  }

  /** Columns found for one table. */
  datatype TableColumns = TableColumns(table: string, columns: seq<string>)

  /** What enumeration learns about a parameter: nothing when it is not run. */
  datatype Findings = Findings(databaseInfo: Option<map<string, string>>, tables: seq<string>, columns: seq<TableColumns>)

  /** Everything `run_scan` learns about one parameter. */
  datatype ParamReport = ParamReport(
    param: Param,
    errorBased: Probe,
    booleanBased: Probe,
    timeBased: Probe,
    unionBased: Probe,
    findings: Findings
  )

  /** The whole scan: nothing when the target does not answer 200. */
  datatype ScanReport =
    | Unreachable
    | Scanned(base: string, parameters: seq<ParamReport>, listings: seq<string>)

  /** The result of `urlparse(target_url)`, taken as given. */
  datatype ParsedUrl = ParsedUrl(scheme: string, netloc: string, path: string, query: string)

  function BaseUrl(u: ParsedUrl): string
  {
    u.scheme + "://" + u.netloc + u.path
  }

  function ColumnsFor(o: Oracle, t: Target, tables: seq<string>): seq<TableColumns>
  {
    seq(|tables|, i requires 0 <= i < |tables| => TableColumns(tables[i], Filter(CommonColumns, ColumnHit(o, t, tables[i]))))
  }

  /** The database information, tables and their columns, gathered only when `enumerate` holds. */
  function FindingsFor(o: Oracle, t: Target, enumerate: bool): Findings
  {
    if enumerate then
      var tables := Filter(CommonTables, TableHit(o, t));
      Findings(Some(CollectDelayed(o, t, InfoQueries, ExtractThresholdMs, AvailableNote)), tables, ColumnsFor(o, t, tables))
    else
      Findings(None, [], [])
  }

  /** A verdict that triggers enumeration: the error-based, time-based or union-based probe fired. */
  predicate Enumerates(errorBased: Probe, timeBased: Probe, unionBased: Probe)
  {
    errorBased.verdict.vulnerable || timeBased.verdict.vulnerable || unionBased.verdict.vulnerable
  }

  /** What `run_scan` computes for one parameter. */
  function ParameterReport(o: Oracle, matches: Matcher, settings: Settings, base: string, p: Param): ParamReport
  {
    var t := Target(base, p.name, p.value);
    var errorBased := ErrorBased(o, matches, t, settings.testPayloads, settings.errorPatterns);
    var timeBased := TimeBased(o, t);
    var unionBased := UnionBased(o, t);
    ParamReport(p, errorBased, TestBooleanBasedInjection(o, t), timeBased, unionBased,
      FindingsFor(o, t, Enumerates(errorBased, timeBased, unionBased)))
  }

  /**
   * Information and tables are gathered exactly when enumeration runs. Only
   * candidate names are reported, in candidate order, and columns are looked
   * up for each reported table, in order.
   */
  lemma FindingsShape(o: Oracle, t: Target, enumerate: bool)
    ensures var f := FindingsFor(o, t, enumerate);
      && (f.databaseInfo.Some? <==> enumerate)
      && (!enumerate ==> f.tables == [] && f.columns == [])
      && IsSubsequence(f.tables, CommonTables)
      && |f.columns| == |f.tables|
      && (forall i :: 0 <= i < |f.columns| ==>
            f.columns[i].table == f.tables[i]
            && IsSubsequence(f.columns[i].columns, CommonColumns))
  {
    var f := FindingsFor(o, t, enumerate);
    if enumerate {
      FilterIsSubsequence(CommonTables, TableHit(o, t));
      forall i | 0 <= i < |f.columns|
        ensures IsSubsequence(f.columns[i].columns, CommonColumns)
      {
        FilterIsSubsequence(CommonColumns, ColumnHit(o, t, f.tables[i]));
      }
    } else {
      EmptyIsSubsequence(CommonTables);
    }
  }

  /**
   * For a parameter, enumeration happens exactly when the error-based,
   * time-based or union-based probe fired; the boolean probe alone triggers
   * none of it.
   */
  lemma ReportEnumeration(o: Oracle, matches: Matcher, settings: Settings, base: string, p: Param)
    ensures var r := ParameterReport(o, matches, settings, base, p);
      && (r.findings.databaseInfo.Some? <==> Enumerates(r.errorBased, r.timeBased, r.unionBased))
      && (!Enumerates(r.errorBased, r.timeBased, r.unionBased) ==> r.findings.tables == [] && r.findings.columns == [])
      && IsSubsequence(r.findings.tables, CommonTables)
      && |r.findings.columns| == |r.findings.tables|
      && (forall i :: 0 <= i < |r.findings.columns| ==>
            r.findings.columns[i].table == r.findings.tables[i]
            && IsSubsequence(r.findings.columns[i].columns, CommonColumns))
  {
    var r := ParameterReport(o, matches, settings, base, p);
    FindingsShape(o, Target(base, p.name, p.value), Enumerates(r.errorBased, r.timeBased, r.unionBased));
  }

  /** The candidate tables that answer, each with the candidate columns that answer. */
  method EnumerateSchema(o: Oracle, t: Target) returns (tables: seq<string>, columns: seq<TableColumns>)
    ensures tables == Filter(CommonTables, TableHit(o, t))
    ensures columns == ColumnsFor(o, t, tables)
  {
    tables := EnumerateTables(o, t);
    columns := [];
    for i := 0 to |tables|
      invariant columns == ColumnsFor(o, t, tables[..i])
    {
      var found := EnumerateColumns(o, t, tables[i]);
      ColumnsForSnoc(o, t, tables, i);
      columns := columns + [TableColumns(tables[i], found)];
    }
    assert tables[..|tables|] == tables;
  }

  lemma ColumnsForSnoc(o: Oracle, t: Target, tables: seq<string>, i: nat)
    requires i < |tables|
    ensures ColumnsFor(o, t, tables[..i + 1])
         == ColumnsFor(o, t, tables[..i]) + [TableColumns(tables[i], Filter(CommonColumns, ColumnHit(o, t, tables[i])))]
  {
  }

  /** The enumeration part of `run_scan`'s loop body, given the four verdicts. */
  method EnumerateFindings(o: Oracle, t: Target, errorBased: bool, booleanBased: bool, timeBased: bool, unionBased: bool)
    returns (f: Findings)
    ensures f == FindingsFor(o, t, errorBased || timeBased || unionBased)
  {
    var databaseInfo: Option<map<string, string>> := None;
    var tables: seq<string> := [];
    var columns: seq<TableColumns> := [];
    if errorBased || booleanBased || timeBased || unionBased {
      if errorBased {
        var info := ExtractDatabaseInfo(o, t);
        databaseInfo := Some(info);
      } else if timeBased {
        var info := ExtractDatabaseInfo(o, t);
        databaseInfo := Some(info);
      } else if unionBased {
        var info := ExtractDatabaseInfo(o, t);
        databaseInfo := Some(info);
      }
      if errorBased || timeBased || unionBased {
        tables, columns := EnumerateSchema(o, t);
      }
    }
    f := Findings(databaseInfo, tables, columns);
  }

  /** The body of `run_scan`'s loop for one parameter. */
  method ScanParameter(o: Oracle, matches: Matcher, settings: Settings, base: string, p: Param) returns (r: ParamReport)
    ensures r == ParameterReport(o, matches, settings, base, p)
  {
    var t := Target(base, p.name, p.value);
    var errorVerdict, errorSent := TestBasicInjection(o, matches, t, settings.testPayloads, settings.errorPatterns);
    var booleanBased := TestBooleanBasedInjection(o, t);
    var timeVerdict, timeSent := TestTimeBasedInjection(o, t);
    var unionVerdict, unionSent := TestUnionBasedInjection(o, t);
    var findings := EnumerateFindings(o, t, errorVerdict.vulnerable, booleanBased.verdict.vulnerable,
      timeVerdict.vulnerable, unionVerdict.vulnerable);
    r := ParamReport(p, Probe(errorVerdict, errorSent), booleanBased, Probe(timeVerdict, timeSent),
      Probe(unionVerdict, unionSent), findings);
  }

  function Reporter(o: Oracle, matches: Matcher, settings: Settings, base: string): Param -> ParamReport
  {
    p => ParameterReport(o, matches, settings, base, p)
  }

  function ScanParameters(o: Oracle, matches: Matcher, settings: Settings, base: string, ps: seq<Param>): seq<ParamReport>
  {
    Map(ps, Reporter(o, matches, settings, base))
  }

  /** The loop of `run_scan` over the `&`-separated pairs of a non-empty query string. */
  method ScanPairs(o: Oracle, matches: Matcher, settings: Settings, base: string, pairs: seq<string>)
    returns (reports: seq<ParamReport>)
    ensures reports == ScanParameters(o, matches, settings, base, ParsePairs(pairs))
  {
    reports := [];
    for k := 0 to |pairs|
      invariant reports == ScanParameters(o, matches, settings, base, ParsePairs(pairs[..k]))
    {
      var pair := pairs[k];
      ParsePairsSnoc(pairs, k);
      if '=' in pair {
        var halves := SplitOnce(pair, '=');
        var r := ScanParameter(o, matches, settings, base, Param(halves.0, halves.1));
        MapSnoc(ParsePairs(pairs[..k]), Param(halves.0, halves.1), Reporter(o, matches, settings, base));
        reports := reports + [r];
      }
    }
    assert pairs[..|pairs|] == pairs;
  }

  lemma ParsePairsSnoc(pairs: seq<string>, k: nat)
    requires k < |pairs|
    ensures ParsePairs(pairs[..k + 1])
         == ParsePairs(pairs[..k]) + if HasEquals(pairs[k]) then [SplitPair(pairs[k])] else []
  {
    assert pairs[..k + 1][..k] == pairs[..k];
  }

  /** What `run_scan` computes for a target. */
  function Scan(o: Oracle, matches: Matcher, join: Joiner, settings: Settings, target: string, u: ParsedUrl): ScanReport
  {
    if !IsAccessible(o, target) then Unreachable
    else
      var base := BaseUrl(u);
      Scanned(base, ScanParameters(o, matches, settings, base, ParseQuery(u.query)),
        Filter(DirectoryUrls(join, base, settings.commonDirectories), ListingHit(o)))
  }

  /**
   * `run_scan`. An unreachable target is not probed at all; otherwise there
   * is one report per parsed parameter, in query order, then the listings.
   */
  method RunScan(o: Oracle, matches: Matcher, join: Joiner, settings: Settings, target: string, u: ParsedUrl)
    returns (report: ScanReport)
    ensures report == Scan(o, matches, join, settings, target, u)
    ensures report.Scanned? <==> IsAccessible(o, target)
    ensures report.Scanned? ==>
      |report.parameters| == |ParseQuery(u.query)|
      && forall i :: 0 <= i < |report.parameters| ==> report.parameters[i].param == ParseQuery(u.query)[i]
  {
    var accessible := CheckUrlAccessibility(o, target);
    if !accessible {
      return Unreachable;
    }
    var base := u.scheme + "://" + u.netloc + u.path;
    var reports: seq<ParamReport> := [];
    if |u.query| > 0 {
      reports := ScanPairs(o, matches, settings, base, Split(u.query, '&'));
    }
    var listings := ScanDirectoryListing(o, join, base, settings.commonDirectories);
    report := Scanned(base, reports, listings);
  }
}
