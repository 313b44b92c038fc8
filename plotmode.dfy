/**
 * `kafka_http_emitter_analyze/modes/plotmode.py`: how many messages a plan
 * sends, and the series `generate_graphs` derives from the collected summary
 * points. Python floats are exact reals here.
 */
module PlotMode {
  import opened Wrappers
  import opened AnalyzeUtils

  /** `ExperimentSummary`: the three summaries collected at one point. */
  datatype ExperimentSummary = ExperimentSummary(
    bodySize: IntListSummary,
    kafkaLatency: IntListSummary,
    sendReceiveLatency: IntListSummary)

  /** `ExperimentSummaryPoint`: a collection time (seconds) and what was collected. */
  datatype SummaryPoint = SummaryPoint(timestamp: real, summary: ExperimentSummary)

  /** One entry of the plan's `messages` list: its kind and how many messages it sends. */
  datatype PlanEntry = PlanEntry(what: string, messagesNumber: int)

  /** What one plan entry adds: its count for a "job" or a "batch", nothing for anything else. */
  function Contribution(entry: PlanEntry): int
  {
    if entry.what == "job" || entry.what == "batch" then entry.messagesNumber else 0
  }

  /** The messages a plan sends in total. */
  function ExpectedMessages(plan: seq<PlanEntry>): int
  {
    if plan == [] then 0 else ExpectedMessages(plan[..|plan| - 1]) + Contribution(plan[|plan| - 1])
  }

  /** `calculate_expected_messages`: the accumulating loop over the plan. */
  method CalculateExpectedMessages(plan: seq<PlanEntry>) returns (result: int)
    ensures result == ExpectedMessages(plan)
  {
    result := 0;
    for i := 0 to |plan|
      invariant result == ExpectedMessages(plan[..i])
    {
      assert plan[..i + 1][..i] == plan[..i];
      var entry := plan[i];
      if entry.what == "job" {
        result := result + entry.messagesNumber;
      } else if entry.what == "batch" {
        result := result + entry.messagesNumber;
      }
      // "wait" (and anything else) adds nothing
    }
    assert plan[..|plan|] == plan;
  }

  /** The count of a concatenated plan is the sum of the counts of its parts. */
  lemma {:induction false} ExpectedMessagesAppend(a: seq<PlanEntry>, b: seq<PlanEntry>)
    ensures ExpectedMessages(a + b) == ExpectedMessages(a) + ExpectedMessages(b)
  {
    if b == [] {
      assert a + b == a;
    } else {
      var prefix := b[..|b| - 1];
      ExpectedMessagesAppend(a, prefix);
      assert (a + b)[..|a + b| - 1] == a + prefix;
      assert (a + b)[|a + b| - 1] == b[|b| - 1];
    }
  }

  /** A "wait" entry anywhere in a plan changes nothing. */
  lemma WaitAddsNothing(a: seq<PlanEntry>, wait: PlanEntry, b: seq<PlanEntry>)
    requires wait.what == "wait"
    ensures ExpectedMessages(a + [wait] + b) == ExpectedMessages(a + b)
  {
    ExpectedMessagesAppend(a + [wait], b);
    ExpectedMessagesAppend(a, [wait]);
    ExpectedMessagesAppend(a, b);
    assert [wait][..0] == [];
  }

  /** A plan whose entries all have non-negative counts never expects a negative number of messages. */
  lemma {:induction false} ExpectedMessagesNonNegative(plan: seq<PlanEntry>)
    requires forall i :: 0 <= i < |plan| ==> plan[i].messagesNumber >= 0
    ensures ExpectedMessages(plan) >= 0
  {
    if plan != [] {
      ExpectedMessagesNonNegative(plan[..|plan| - 1]);
    }
  }

  /** The data series of the three plots. */
  datatype GraphData = GraphData(
    timestamps: seq<real>,
    sentBytes: seq<real>,
    kafkaMean: seq<real>,
    kafkaMedian: seq<real>,
    sendReceiveMean: seq<real>,
    sendReceiveMedian: seq<real>)

  /** The bytes sent up to one point: the body-size summary's `entries * mean`. */
  function SentBytesTotal(p: SummaryPoint): real
  {
    p.summary.bodySize.entries as real * p.summary.bodySize.mean
  }

  /** The differences of neighbours (the `zip` of the list without its last and without its first element). */
  function Differences(totals: seq<real>): (d: seq<real>)
    ensures |d| == if totals == [] then 0 else |totals| - 1
    ensures forall i :: 0 <= i < |d| ==> d[i] == totals[i + 1] - totals[i]
  {
    if |totals| <= 1 then [] else seq(|totals| - 1, i requires 0 <= i < |totals| - 1 => totals[i + 1] - totals[i])
  }

  /** Each point's collection time relative to the first point's. */
  function RelativeTimestamps(points: seq<SummaryPoint>): (ts: seq<real>)
    requires points != []
    ensures |ts| == |points| && ts[0] == 0.0
    ensures forall i :: 0 <= i < |points| ==> ts[i] == points[i].timestamp - points[0].timestamp
  {
    var initial := points[0].timestamp;
    seq(|points|, i requires 0 <= i < |points| => points[i].timestamp - initial)
  }

  /** The bytes sent since the previous point, with 0 put in front for the first point. */
  function SentBytesSeries(points: seq<SummaryPoint>): (sb: seq<real>)
    requires points != []
    ensures |sb| == |points| && sb[0] == 0.0
    ensures forall i :: 1 <= i < |points| ==> sb[i] == SentBytesTotal(points[i]) - SentBytesTotal(points[i - 1])
  {
    var totals := seq(|points|, i requires 0 <= i < |points| => SentBytesTotal(points[i]));
    [0.0] + Differences(totals)
  }

  /**
   * The series of `generate_graphs`. An empty point list fails at the first
   * index; otherwise every series has one entry per point, so the plots line
   * up: time since the first point, the bytes sent since the previous point
   * (0 at the first), and the two latency summaries' mean and median.
   */
  function GraphSeries(points: seq<SummaryPoint>): (r: Option<GraphData>)
    ensures r.None? <==> points == []
    ensures r.Some? ==>
      var g, n := r.value, |points|;
      && |g.timestamps| == |g.sentBytes| == |g.kafkaMean| == |g.kafkaMedian| == n
      && |g.sendReceiveMean| == |g.sendReceiveMedian| == n
      && g.timestamps[0] == 0.0 && g.sentBytes[0] == 0.0
      && (forall i :: 0 <= i < n ==> g.timestamps[i] == points[i].timestamp - points[0].timestamp)
      && (forall i :: 1 <= i < n ==> g.sentBytes[i] == SentBytesTotal(points[i]) - SentBytesTotal(points[i - 1]))
      && (forall i :: 0 <= i < n ==>
            && g.kafkaMean[i] == points[i].summary.kafkaLatency.mean
            && g.kafkaMedian[i] == points[i].summary.kafkaLatency.median
            && g.sendReceiveMean[i] == points[i].summary.sendReceiveLatency.mean
            && g.sendReceiveMedian[i] == points[i].summary.sendReceiveLatency.median)
  {
    if points == [] then None
    else
      Some(GraphData(
        RelativeTimestamps(points),
        SentBytesSeries(points),
        seq(|points|, i requires 0 <= i < |points| => points[i].summary.kafkaLatency.mean),
        seq(|points|, i requires 0 <= i < |points| => points[i].summary.kafkaLatency.median),
        seq(|points|, i requires 0 <= i < |points| => points[i].summary.sendReceiveLatency.mean),
        seq(|points|, i requires 0 <= i < |points| => points[i].summary.sendReceiveLatency.median)))
  }

  function SumReal(xs: seq<real>): real
  {
    if xs == [] then 0.0 else SumReal(xs[..|xs| - 1]) + xs[|xs| - 1]
  }

  /**
   * The per-interval bytes add up: the first `k + 1` entries of the sent-bytes
   * series (the plotted `sentBytes` of `GraphSeries`) sum to the total at point `k` minus the total at the first point.
   */
  lemma {:induction false} SentBytesTelescope(points: seq<SummaryPoint>, k: nat)
    requires k < |points|
    ensures SumReal(SentBytesSeries(points)[..k + 1]) == SentBytesTotal(points[k]) - SentBytesTotal(points[0])
  {
    var s := SentBytesSeries(points);
    if k > 0 {
      SentBytesTelescope(points, k - 1);
      assert s[..k + 1][..k] == s[..k];
    } else {
      assert s[..1][..0] == [];
    }
  }

  /** Relative timestamps keep the distances between points. */
  lemma RelativeTimestampsKeepDistances(points: seq<SummaryPoint>, i: nat, j: nat)
    requires i < |points| && j < |points|
    ensures GraphSeries(points).Some?
    ensures GraphSeries(points).value.timestamps[j] - GraphSeries(points).value.timestamps[i] ==
      points[j].timestamp - points[i].timestamp
  {
  }
}
