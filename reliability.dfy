/**
 * Annotator metrics: the counters an annotation submission updates, the
 * clamped reliability formula recomputed after each update, and the report
 * get_reliability derives from the counters.
 */
module Reliability {
  import opened Schemas
  import opened Rounding
  import opened Similarity

  datatype Metrics = Metrics(completed: nat, totalSeconds: real, disagreements: nat, reliability: real)

  /** The value the metrics defaultdict hands out for an unseen annotator. */
  const DefaultMetrics := Metrics(0, 0.0, 0, 0.5)

  /** Similarity to the consensus caption below which an annotation disagrees. */
  const DisagreementThreshold := 0.7

  /**
   * What every stored entry satisfies: reliability inside the clamp, and the
   * elapsed-time total between 45 and 120 seconds per completed task (each
   * sample is drawn from that range).
   */
  predicate WellFormed(m: Metrics)
  {
    && 0.1 <= m.reliability <= 0.99
    && 45.0 * m.completed as real <= m.totalSeconds <= 120.0 * m.completed as real
  }

  lemma DefaultMetricsWellFormed()
    ensures WellFormed(DefaultMetrics)
  {
  }

  /**
   * The disagreement count of _update_metrics_on_completion, summed caption by
   * caption: every caption counts, since no similarity reaches the threshold.
   */
  method CountDisagreements(captions: seq<string>, consensusCaption: string) returns (n: nat)
    ensures n == |captions|
  {
    n := 0;
    for i := 0 to |captions|
      invariant n == i
    {
      if SemanticSimilarity(captions[i], consensusCaption) < DisagreementThreshold {
        n := n + 1;
      }
    }
  }

  function MinReal(a: real, b: real): real { if a < b then a else b }
  function MaxReal(a: real, b: real): real { if a > b then a else b }

  /** _compute_reliability */
  function ComputeReliability(m: Metrics): (r: real)
    ensures m.completed == 0 ==> r == 0.5
    ensures 0.1 <= r <= 0.99
  {
    if m.completed == 0 then 0.5
    else
      var agreementRatio := 1.0 - m.disagreements as real / AtLeastOne(m.completed) as real;
      var avgTime := m.totalSeconds / m.completed as real;
      var speedFactor := MinReal(1.0, 90.0 / MaxReal(avgTime, 1.0));
      var clamped := MaxReal(0.1, MinReal(0.99, 0.4 * agreementRatio + 0.6 * speedFactor));
      RoundWithinGrid3(clamped, 0.1, 0.99);
      Round(clamped, 3)
  }

  lemma AverageAtMost(total: real, n: real, bound: real)
    requires n > 0.0 && total <= bound * n
    ensures total / n <= bound
  {
  }

  /** No disagreements and at most 90 seconds a task on average: the top of the clamp. */
  lemma PerfectAnnotator(m: Metrics)
    requires m.completed > 0 && m.disagreements == 0
    requires m.totalSeconds <= 90.0 * m.completed as real
    ensures ComputeReliability(m) == 0.99
  {
    var avgTime := m.totalSeconds / m.completed as real;
    AverageAtMost(m.totalSeconds, m.completed as real, 90.0);
    assert 90.0 / MaxReal(avgTime, 1.0) >= 1.0;
    GridPoints();
  }

  /** Three disagreements or more per completed task: the bottom of the clamp. */
  lemma HeavyDisagreement(m: Metrics)
    requires m.completed > 0 && m.disagreements >= 3 * m.completed
    ensures ComputeReliability(m) == 0.1
  {
    var c := AtLeastOne(m.completed) as real;
    assert c == m.completed as real;
    assert m.disagreements as real >= 3.0 * c;
    RatioAtLeast(m.disagreements as real, c, 3.0);
    GridPoints();
  }

  lemma RatioAtLeast(d: real, c: real, k: real)
    requires c > 0.0 && d >= k * c
    ensures d / c >= k
  {
  }

  /**
   * The counter update of _update_metrics_on_completion: one more task, the
   * elapsed sample added, the new disagreements added, reliability recomputed
   * from the updated counters.
   */
  function CompleteTask(m: Metrics, sample: real, newDisagreements: nat): (r: Metrics)
    ensures r.completed == m.completed + 1
    ensures r.totalSeconds == m.totalSeconds + sample
    ensures r.disagreements == m.disagreements + newDisagreements
    ensures 0.1 <= r.reliability <= 0.99
    ensures WellFormed(m) && 45.0 <= sample <= 120.0 ==> WellFormed(r)
  {
    var counted := m.(completed := m.completed + 1,
                      totalSeconds := m.totalSeconds + sample,
                      disagreements := m.disagreements + newDisagreements);
    counted.(reliability := ComputeReliability(counted))
  }

  /** get_reliability's derived report. */
  function Report(annotatorId: string, m: Metrics): (r: ReliabilityMetrics)
    ensures r.annotatorId == annotatorId && r.throughput == m.completed
  {
    var divisor := AtLeastOne(m.completed) as real;
    var avgTime := m.totalSeconds / divisor;
    var disagreementRate := m.disagreements as real / divisor;
    ReliabilityMetrics(annotatorId, Round(m.reliability, 3), m.completed,
                       Round(avgTime, 2), Round(disagreementRate, 3))
  }

  /** For a well-formed entry the report stays in range and never divides by zero. */
  lemma ReportBounds(annotatorId: string, m: Metrics)
    requires WellFormed(m)
    ensures var r := Report(annotatorId, m);
            && 0.1 <= r.reliability <= 0.99
            && (m.completed > 0 ==> 45.0 <= r.averageTaskSeconds <= 120.0)
            && (m.completed == 0 ==> r.averageTaskSeconds == 0.0)
  {
    var c := AtLeastOne(m.completed) as real;
    GridPoints();
    RoundBetween(m.reliability, 0.1, 0.99, 3);
    if m.completed > 0 {
      assert c == m.completed as real;
      MeanBounds(m.totalSeconds, c, 45.0, 120.0);
      RoundBetween(m.totalSeconds / c, 45.0, 120.0, 2);
    } else {
      assert m.totalSeconds / c == 0.0;
    }
  }

  /** An annotator nobody has seen reports reliability 0.5 and zeros elsewhere. */
  lemma DefaultReport(annotatorId: string)
    ensures Report(annotatorId, DefaultMetrics) == ReliabilityMetrics(annotatorId, 0.5, 0, 0.0, 0.0)
  {
    GridPoints();
    assert 0.0 / AtLeastOne(0) as real == 0.0;
  }
}
