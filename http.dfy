/**
 * The scanner's view of the network. Every request the scanner sends is a
 * GET of one URL string; the session is replaced by a deterministic oracle
 * from URL to response, where `None` is a request that raised (timeout,
 * connection error).
 */
module Http {
  import opened Wrappers
  import opened Text

  /** What one answered request yields: status code, body text and the time it took. */
  datatype Response = Response(status: int, text: string, elapsedMs: nat)

  type Oracle = string -> Option<Response>

  /** One query parameter under test: the URL without its query, the name, the original value. */
  datatype Target = Target(base: string, name: string, value: string)

  /** A probe's answer: whether it fired and with which payload ("" when it did not). */
  datatype Verdict = Verdict(vulnerable: bool, payload: string)

  const NotVulnerable := Verdict(false, "")

  /** A verdict together with the URLs requested to reach it, in order. */
  datatype Probe = Probe(verdict: Verdict, sent: seq<string>)

  /** The same probe, preceded by requests sent earlier. */
  function Prepend(earlier: seq<string>, p: Probe): Probe
  {
    Probe(p.verdict, earlier + p.sent)
  }

  lemma PrependPrepend(a: seq<string>, b: seq<string>, p: Probe)
    ensures Prepend(a, Prepend(b, p)) == Prepend(a + b, p)
  {
    assert a + (b + p.sent) == (a + b) + p.sent;
  }

  /** The URL of every probe: base, `?`, name, `=`, value, then the payload, unencoded. */
  function TestUrl(t: Target, payload: string): string
  {
    t.base + "?" + t.name + "=" + t.value + payload
  }

  /** A probe URL is the base URL, `?`, the name, `=`, the value and then the payload, each unchanged. */
  lemma TestUrlShape(t: Target, payload: string)
    ensures var url := TestUrl(t, payload);
      && |url| == |t.base| + |t.name| + |t.value| + 2 + |payload|
      && url[..|t.base|] == t.base && url[|t.base|] == '?'
      && url[|t.base| + 1..|t.base| + 1 + |t.name|] == t.name && url[|t.base| + 1 + |t.name|] == '='
      && url[|t.base| + 2 + |t.name|..|url| - |payload|] == t.value
      && url[|url| - |payload|..] == payload
  {
    var url := TestUrl(t, payload);
    assert url == (t.base + "?" + t.name + "=") + t.value + payload;
    assert url == t.base + ("?" + t.name + "=" + t.value + payload);
    assert url == (t.base + "?" + t.name) + ("=" + t.value + payload);
    assert url == (t.base + "?" + t.name + "=" + t.value) + payload;
  }

  /** For one parameter, different payloads never share a URL. */
  lemma TestUrlInjective(t: Target, p: string, q: string)
    requires TestUrl(t, p) == TestUrl(t, q)
    ensures p == q
  {
    var prefix := t.base + "?" + t.name + "=" + t.value;
    assert TestUrl(t, p) == prefix + p && TestUrl(t, q) == prefix + q;
    assert p == (prefix + p)[|prefix|..];
    assert q == (prefix + q)[|prefix|..];
  }

  /** The URLs of a list of payloads, in list order. */
  function Urls(t: Target, payloads: seq<string>): seq<string>
  {
    seq(|payloads|, i requires 0 <= i < |payloads| => TestUrl(t, payloads[i]))
  }

  lemma UrlsSnoc(t: Target, payloads: seq<string>, i: nat)
    requires i < |payloads|
    ensures Urls(t, payloads[..i + 1]) == Urls(t, payloads[..i]) + [TestUrl(t, payloads[i])]
  {
  }

  /** `check_url_accessibility`: the target answers with status 200. */
  predicate IsAccessible(o: Oracle, url: string)
  {
    match o(url)
    case Some(r) => r.status == 200
    case None => false
  }

  /** `check_url_accessibility`: one request; only a 200 answer counts, a raised request does not. */
  method CheckUrlAccessibility(o: Oracle, url: string) returns (accessible: bool)
    ensures accessible <==> o(url).Some? && o(url).value.status == 200
    ensures accessible == IsAccessible(o, url)
  {
    var answer := o(url);
    if answer.None? {
      return false;
    }
    accessible := answer.value.status == 200;
  }
}
