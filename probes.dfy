/**
 * The error-based, boolean-based and time-based probes of one parameter.
 * The error-based and time-based probe methods walk their payloads in list
 * order and are proved equal to a specification function whose contract
 * states the first-match semantics; the boolean probe is a function of its
 * two answers.
 */
module Probes {
  import opened Wrappers
  import opened Seqs
  import opened Http

  /**
   * `re.search(pattern, text, re.IGNORECASE)`, left uninterpreted: `Some(found)`,
   * or `None` when the search raises (a pattern that does not compile).
   */
  type Matcher = (string, string) -> Option<bool>

  /**
   * The pattern scan over one body fires: some pattern matches, and every
   * pattern before it searched without a match. A search that raises ends
   * the scan without a hit, because the exception leaves the pattern loop.
   */
  predicate PatternScanHits(matches: Matcher, patterns: seq<string>, text: string)
  {
    exists k :: 0 <= k < |patterns| && matches(patterns[k], text) == Some(true)
      && forall m :: 0 <= m < k ==> matches(patterns[m], text) == Some(false)
  }

  /** When no search raises, the scan fires exactly when some pattern matches. */
  lemma PatternScanWithoutRaise(matches: Matcher, patterns: seq<string>, text: string)
    requires forall q :: q in patterns ==> matches(q, text).Some?
    ensures PatternScanHits(matches, patterns, text) <==> exists q :: q in patterns && matches(q, text) == Some(true)
  {
    if exists q :: q in patterns && matches(q, text) == Some(true) {
      var matching := q => matches(q, text) == Some(true);
      var k := FirstIndex(patterns, matching);
      var q :| q in patterns && matches(q, text) == Some(true);
      assert matching(patterns[k]) by {
        var i :| 0 <= i < |patterns| && patterns[i] == q;
        assert matching(patterns[i]);
      }
      forall m | 0 <= m < k
        ensures matches(patterns[m], text) == Some(false)
      {
        assert patterns[m] in patterns && !matching(patterns[m]);
        var found := matches(patterns[m], text);
        assert found.Some? && !found.value;
        assert found == Some(found.value);
      }
    }
  }

  /** A payload gives the error-based probe a hit: its request answered and the pattern scan of the body fires. */
  function ErrorHit(o: Oracle, matches: Matcher, t: Target, patterns: seq<string>): string -> bool
  {
    payload =>
      match o(TestUrl(t, payload))
      case Some(r) => PatternScanHits(matches, patterns, r.text)
      case None => false
  }

  /**
   * Try `payloads` in order and stop at the first hit. The verdict names the
   * first payload that hits; the URLs of the payloads up to and including it,
   * and no later ones, are requested.
   */
  function FirstHit(t: Target, payloads: seq<string>, hit: string -> bool): (p: Probe)
    ensures p.verdict.vulnerable <==> exists k :: 0 <= k < |payloads| && hit(payloads[k])
    ensures p.verdict.vulnerable ==>
      exists k :: 0 <= k < |payloads| && hit(payloads[k]) && p.verdict.payload == payloads[k]
        && (forall j :: 0 <= j < k ==> !hit(payloads[j]))
        && p.sent == Urls(t, payloads[..k + 1])
    ensures !p.verdict.vulnerable ==> p.verdict == NotVulnerable && p.sent == Urls(t, payloads)
  {
    var k := FirstIndex(payloads, hit);
    if k < |payloads| then Probe(Verdict(true, payloads[k]), Urls(t, payloads[..k + 1]))
    else Probe(NotVulnerable, Urls(t, payloads))
  }

  /** The error-based probe specified: first payload whose answered body matches an error pattern. */
  function ErrorBased(o: Oracle, matches: Matcher, t: Target, payloads: seq<string>, patterns: seq<string>): Probe
  {
    FirstHit(t, payloads, ErrorHit(o, matches, t, patterns))
  }

  /** `test_basic_injection`. */
  method TestBasicInjection(o: Oracle, matches: Matcher, t: Target, payloads: seq<string>, patterns: seq<string>)
    returns (v: Verdict, sent: seq<string>)
    ensures Probe(v, sent) == ErrorBased(o, matches, t, payloads, patterns)
  {
    var vulnerable := false;
    var detected := "";
    ghost var hit := ErrorHit(o, matches, t, patterns);
    sent := [];
    var i := 0;
    while i < |payloads|
      invariant 0 <= i <= |payloads|
      invariant !vulnerable && detected == ""
      invariant sent == Urls(t, payloads[..i])
      invariant forall j :: 0 <= j < i ==> !hit(payloads[j])
    {
      var payload := payloads[i];
      var url := TestUrl(t, payload);
      UrlsSnoc(t, payloads, i);
      sent := sent + [url];
      match o(url) {
        case Some(response) =>
          var k := 0;
          var raised := false;
          while k < |patterns|
            invariant 0 <= k <= |patterns|
            invariant !vulnerable
            invariant !raised
            invariant forall m :: 0 <= m < k ==> matches(patterns[m], response.text) == Some(false)
          {
            var found := matches(patterns[k], response.text);
            if found.None? {
              // the exception leaves the pattern loop; the payload gives no hit
              raised := true;
              break;
            }
            if found.value {
              vulnerable := true;
              detected := payload;
              break;
            }
            k := k + 1;
          }
          if vulnerable {
            assert hit(payload);
            FirstIndexUnique(payloads, hit, i);
            break;
          }
          assert raised ==> k < |patterns| && matches(patterns[k], response.text).None?;
        case None =>
      }
      i := i + 1;
    }
    if !vulnerable {
      FirstIndexUnique(payloads, hit, |payloads|);
      assert payloads[..|payloads|] == payloads;
    }
    v := Verdict(vulnerable, detected);
  }

  /** The payload tag the boolean probe reports. */
  const BooleanTag := "AND 1=1/1=2"

  /**
   * The boolean decision on the answers to the "true" and "false" requests:
   * a differing status fires whatever the bodies, otherwise a differing body
   * length fires.
   */
  function BooleanDecision(whenTrue: Response, whenFalse: Response): (v: Verdict)
    ensures v.vulnerable <==> whenTrue.status != whenFalse.status || |whenTrue.text| != |whenFalse.text|
    ensures v.vulnerable ==> v.payload == BooleanTag
    ensures !v.vulnerable ==> v == NotVulnerable
  {
    if whenTrue.status != whenFalse.status then Verdict(true, BooleanTag)
    else if |whenTrue.text| != |whenFalse.text| then Verdict(true, BooleanTag)
    else NotVulnerable
  }

  /**
   * `test_boolean_based_injection`: request the " AND 1=1" URL, then the
   * " AND 1=2" URL; a request that raises ends the probe with no verdict.
   */
  function TestBooleanBasedInjection(o: Oracle, t: Target): (p: Probe)
    ensures p.verdict.vulnerable <==>
      o(TestUrl(t, " AND 1=1")).Some? && o(TestUrl(t, " AND 1=2")).Some?
      && BooleanDecision(o(TestUrl(t, " AND 1=1")).value, o(TestUrl(t, " AND 1=2")).value).vulnerable
    ensures p.verdict.vulnerable ==> p.verdict.payload == BooleanTag
    ensures !p.verdict.vulnerable ==> p.verdict == NotVulnerable
    ensures p.sent == if o(TestUrl(t, " AND 1=1")).None? then [TestUrl(t, " AND 1=1")]
                      else [TestUrl(t, " AND 1=1"), TestUrl(t, " AND 1=2")]
  {
    var trueUrl := TestUrl(t, " AND 1=1");
    var falseUrl := TestUrl(t, " AND 1=2");
    match o(trueUrl)
    case None => Probe(NotVulnerable, [trueUrl])
    case Some(whenTrue) =>
      match o(falseUrl)
      case None => Probe(NotVulnerable, [trueUrl, falseUrl])
      case Some(whenFalse) => Probe(BooleanDecision(whenTrue, whenFalse), [trueUrl, falseUrl])
  }

  /** The four delay-inducing payloads, in the order they are tried. */
  const TimePayloads: seq<string> := [
    "'; WAITFOR DELAY '00:00:05'--",
    "'; SELECT SLEEP(5);--",
    "' AND (SELECT * FROM (SELECT(SLEEP(5)))a);--",
    "' AND IF(1=1,SLEEP(5),0);--"
  ]

  /** Elapsed time strictly above this fires the time-based probe (4 seconds). */
  const TimeThresholdMs := 4000

  /** A payload whose request answered and took longer than the threshold. */
  function SlowHit(o: Oracle, t: Target): string -> bool
  {
    payload =>
      match o(TestUrl(t, payload))
      case Some(r) => r.elapsedMs > TimeThresholdMs
      case None => false
  }

  function TimeBased(o: Oracle, t: Target): Probe
  {
    FirstHit(t, TimePayloads, SlowHit(o, t))
  }

  /** `test_time_based_injection`. */
  method TestTimeBasedInjection(o: Oracle, t: Target) returns (v: Verdict, sent: seq<string>)
    ensures Probe(v, sent) == TimeBased(o, t)
  {
    ghost var hit := SlowHit(o, t);
    sent := [];
    for i := 0 to |TimePayloads|
      invariant sent == Urls(t, TimePayloads[..i])
      invariant forall j :: 0 <= j < i ==> !hit(TimePayloads[j])
    {
      var payload := TimePayloads[i];
      var url := TestUrl(t, payload);
      UrlsSnoc(t, TimePayloads, i);
      sent := sent + [url];
      var response := o(url);
      if response.Some? && response.value.elapsedMs > TimeThresholdMs {
        FirstIndexUnique(TimePayloads, hit, i);
        return Verdict(true, payload), sent;
      }
    }
    FirstIndexUnique(TimePayloads, hit, |TimePayloads|);
    assert TimePayloads[..|TimePayloads|] == TimePayloads;
    v := NotVulnerable;
  }
}
