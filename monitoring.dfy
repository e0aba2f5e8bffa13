/** The prediction monitor (`ModelMonitor`): an append-only, in-memory log of
    (model, input, output, timestamp) entries and three metrics recomputed
    from the whole log after every append. The wall clock is the parameter
    `now`, an ISO-8601 string supplied by the caller. */
module Monitoring {
  import opened Telemetry
  import DetailedRules
  import Arith

  /** The value of an output's `prediction` field, as the monitor sees it. */
  datatype PredictionValue = NumberValue(n: real) | TextValue(s: string) | Absent

  /** The two fields of a logged output that the metrics read. A missing
      `confidence` field is `None`. */
  datatype Output = Output(prediction: PredictionValue, confidence: Option<real>)

  datatype LogEntry = LogEntry(model: string, input: Features, output: Output, timestamp: string)

  /** The record `exportMetrics` returns. */
  datatype Snapshot = Snapshot(
    totalPredictions: nat,
    emergencyDetections: nat,
    avgConfidence: real,
    lastUpdated: string,
    predictionsSample: seq<LogEntry>)

  /** An entry of the emergency model whose prediction is the number 1. */
  predicate IsDetection(e: LogEntry)
  {
    e.model == "emergency" && e.output.prediction == NumberValue(1.0)
  }

  /** The output carries a truthy confidence: present and not zero. */
  predicate HasConfidence(e: LogEntry)
  {
    e.output.confidence.Some? && e.output.confidence.value != 0.0
  }

  /** The number of detections in the log, counted front to back like the
      source's `filter`. */
  function DetectionCount(log: seq<LogEntry>): (r: nat)
    ensures r <= |log|
    ensures r == 0 <==> forall i :: 0 <= i < |log| ==> !IsDetection(log[i])
  {
    if log == [] then 0
    else (if IsDetection(log[0]) then 1 else 0) + DetectionCount(log[1..])
  }

  /** The number of entries with a truthy confidence. */
  function ConfidenceCount(log: seq<LogEntry>): (r: nat)
    ensures r <= |log|
    ensures r == 0 <==> forall i :: 0 <= i < |log| ==> !HasConfidence(log[i])
  {
    if log == [] then 0
    else (if HasConfidence(log[0]) then 1 else 0) + ConfidenceCount(log[1..])
  }

  /** The sum of the truthy confidences. */
  function ConfidenceSum(log: seq<LogEntry>): real
  {
    if log == [] then 0.0
    else (if HasConfidence(log[0]) then log[0].output.confidence.value else 0.0) + ConfidenceSum(log[1..])
  }

  /** `avg_confidence`: the mean of the truthy confidences, 0 when there are
      none. */
  function MeanConfidence(log: seq<LogEntry>): (r: real)
    ensures ConfidenceCount(log) == 0 ==> r == 0.0
    ensures ConfidenceCount(log) > 0 ==> r * ConfidenceCount(log) as real == ConfidenceSum(log)
  {
    var n := ConfidenceCount(log);
    if n > 0 then ConfidenceSum(log) / n as real else 0.0
  }

  /** Every present confidence lies in [0, 1]. */
  predicate ConfidencesInUnitRange(log: seq<LogEntry>)
  {
    forall i :: 0 <= i < |log| && log[i].output.confidence.Some? ==>
      0.0 <= log[i].output.confidence.value <= 1.0
  }

  /** Appending one entry adds one detection exactly when the entry is one. */
  lemma {:induction false} DetectionCountAppend(log: seq<LogEntry>, e: LogEntry)
    ensures DetectionCount(log + [e]) == DetectionCount(log) + (if IsDetection(e) then 1 else 0)
  {
    if log != [] {
      assert (log + [e])[1..] == log[1..] + [e];
      DetectionCountAppend(log[1..], e);
    }
  }

  /** Appending one entry adds its confidence to the sum and one to the count
      exactly when that confidence is truthy. */
  lemma {:induction false} ConfidenceAppend(log: seq<LogEntry>, e: LogEntry)
    ensures ConfidenceCount(log + [e]) == ConfidenceCount(log) + (if HasConfidence(e) then 1 else 0)
    ensures ConfidenceSum(log + [e]) ==
      ConfidenceSum(log) + (if HasConfidence(e) then e.output.confidence.value else 0.0)
  {
    if log != [] {
      assert (log + [e])[1..] == log[1..] + [e];
      ConfidenceAppend(log[1..], e);
    }
  }

  /** With every confidence in [0, 1], the sum of the truthy ones lies
      between 0 and their count. */
  lemma {:induction false} ConfidenceSumBounds(log: seq<LogEntry>)
    requires ConfidencesInUnitRange(log)
    ensures 0.0 <= ConfidenceSum(log) <= ConfidenceCount(log) as real
  {
    if log != [] {
      assert ConfidencesInUnitRange(log[1..]) by {
        forall i | 0 <= i < |log[1..]| && log[1..][i].output.confidence.Some?
          ensures 0.0 <= log[1..][i].output.confidence.value <= 1.0
        {
          assert log[1..][i] == log[i + 1];
        }
      }
      ConfidenceSumBounds(log[1..]);
    }
  }

  /** If every logged confidence lies in [0, 1], so does their mean. */
  lemma MeanConfidenceInUnitRange(log: seq<LogEntry>)
    requires ConfidencesInUnitRange(log)
    ensures 0.0 <= MeanConfidence(log) <= 1.0
  {
    var n := ConfidenceCount(log);
    if n > 0 {
      ConfidenceSumBounds(log);
      Arith.QuotientInUnitRange(ConfidenceSum(log), n as real);
    }
  }

  /** How a detailed emergency prediction looks to the monitor. */
  function EmergencyOutput(r: DetailedRules.EmergencyResult): Output
  {
    Output(NumberValue(r.prediction as real), Some(r.confidence))
  }

  /** Logging a detailed emergency prediction under the model name
      `emergency` counts as a detection exactly when it reports EMERGENCY,
      and its confidence enters the mean unless the score sits exactly on
      the 0.5 threshold. */
  lemma LoggedEmergencyPrediction(f: Features, clockHour: int, timestamp: string)
    ensures var r := DetailedRules.PredictEmergency(f, clockHour);
      var e := LogEntry("emergency", f, EmergencyOutput(r), timestamp);
      && (IsDetection(e) <==> r.status == DetailedRules.Emergency)
      && (HasConfidence(e) <==> r.emergencyProbability != 0.5)
  {
  }

  /** The monitor. `Valid()` says that the three metrics are the functions
      above of the current log. */
  class ModelMonitor {
    var predictions: seq<LogEntry>
    var totalPredictions: nat
    var emergencyDetections: nat
    var avgConfidence: real

    ghost predicate Valid()
      reads this
    {
      && totalPredictions == |predictions|
      && emergencyDetections == DetectionCount(predictions)
      && avgConfidence == MeanConfidence(predictions)
    }

    /** A fresh monitor: an empty log and every metric 0. */
    constructor ()
      ensures Valid()
      ensures predictions == []
      ensures totalPredictions == 0 && emergencyDetections == 0 && avgConfidence == 0.0
    {
      predictions := [];
      totalPredictions := 0;
      emergencyDetections := 0;
      avgConfidence := 0.0;
    }

    /** `logPrediction`: append exactly one entry, stamped with the supplied
      timestamp when it is truthy (non-empty) and with `now` otherwise, then
      recompute the metrics. Earlier entries are untouched; the counts never
      decrease. */
    method LogPrediction(model: string, input: Features, output: Output, timestamp: string, now: string)
      modifies this
      ensures predictions == old(predictions) + [LogEntry(model, input, output, if timestamp != "" then timestamp else now)]
      ensures Valid()
      ensures totalPredictions == |old(predictions)| + 1
      ensures emergencyDetections == DetectionCount(old(predictions))
        + (if model == "emergency" && output.prediction == NumberValue(1.0) then 1 else 0)
    {
      var entry := LogEntry(model, input, output, if timestamp != "" then timestamp else now);
      DetectionCountAppend(predictions, entry);
      predictions := predictions + [entry];
      UpdateMetrics();
    }

    /** `updateMetrics`: overwrite the three metrics with the values computed
        from the whole log. */
    method UpdateMetrics()
      modifies this
      ensures predictions == old(predictions)
      ensures Valid()
    {
      totalPredictions := |predictions|;
      emergencyDetections := DetectionCount(predictions);
      avgConfidence := MeanConfidence(predictions);
    }

    /** `exportMetrics`: a read-only snapshot of the metrics, stamped with
        `now`, and the last min(10, n) log entries in insertion order. */
    method ExportMetrics(now: string) returns (s: Snapshot)
      requires Valid()
      ensures s.totalPredictions == |predictions|
      ensures s.emergencyDetections == DetectionCount(predictions) <= s.totalPredictions
      ensures s.avgConfidence == MeanConfidence(predictions)
      ensures s.lastUpdated == now
      ensures |s.predictionsSample| == if |predictions| < 10 then |predictions| else 10
      ensures forall i :: 0 <= i < |s.predictionsSample| ==>
        s.predictionsSample[i] == predictions[|predictions| - |s.predictionsSample| + i]
    {
      var k := if |predictions| < 10 then |predictions| else 10;
      s := Snapshot(totalPredictions, emergencyDetections, avgConfidence, now, predictions[|predictions| - k..]);
    }
  }
}
