/** The deterministic safety gate, and the arithmetic of the metrics it judges. */
module Policy {
  import opened Model

  datatype Config = Config(
    semanticEvidenceRequired: bool,
    maxTotalVariance: real,
    maxRowVariance: real,
    minKeyOverlap: real,
    maxNullRateDelta: real,
    buildRequired: bool,
    lineageMustBeCurrent: bool)

  const DEFAULT := Config(true, 0.5, 0.1, 99.9, 0.5, true, true)

  datatype Decision = Decision(accepted: bool, checks: seq<Check>, reasons: seq<string>)

  function Abs(x: real): real {
    if x < 0.0 then -x else x
  }

  function Checks(config: Config, execution: Execution, lineageCurrent: bool): seq<Check> {
    var metrics := execution.metrics;
    [ Check("semantic_evidence",
            if config.semanticEvidenceRequired then execution.verdict == MATCH else execution.verdict != CONFLICT),
      Check("total_variance", Abs(metrics.totalVariance) <= config.maxTotalVariance),
      Check("row_count_variance", Abs(metrics.rowVariance) <= config.maxRowVariance),
      Check("primary_key_overlap", metrics.keyOverlap >= config.minKeyOverlap),
      Check("null_rate_delta", Abs(metrics.nullRateDelta) <= config.maxNullRateDelta),
      Check("dbt_build", if config.buildRequired then execution.build.passed else true),
      Check("lineage_current", if config.lineageMustBeCurrent then lineageCurrent else true) ]
  }

  function FailedNames(checks: seq<Check>): (names: seq<string>)
    ensures names == [] <==> forall check :: check in checks ==> check.passed
  {
    if checks == [] then []
    else
      var last := checks[|checks| - 1];
      assert checks == checks[..|checks| - 1] + [last];
      FailedNames(checks[..|checks| - 1]) + if last.passed then [] else [last.name]
  }

  function Evaluate(config: Config, execution: Execution, lineageCurrent: bool): (decision: Decision)
    ensures decision.accepted <==> forall check :: check in decision.checks ==> check.passed
  {
    var checks := Checks(config, execution, lineageCurrent);
    var reasons := FailedNames(checks);
    Decision(reasons == [], checks, reasons)
  }

  function Outcome(decision: Decision): CandidateOutcome {
    if decision.accepted then ELIGIBLE else REJECTED
  }

  /** What a candidate's run leaves behind when it raised. */
  const FAILED_EXECUTION :=
    Execution(MISSING, Metrics(1_000_000_000.0, 1_000_000_000.0, 0.0, 1_000_000_000.0), Build(false, ""))

  /** The positions, in order, of the checks that did not pass. */
  ghost predicate FailingAt(checks: seq<Check>, at: seq<nat>) {
    && (forall k, l :: 0 <= k < l < |at| ==> at[k] < at[l])
    && (forall k :: 0 <= k < |at| ==> at[k] < |checks| && !checks[at[k]].passed)
    && (forall i: nat :: i < |checks| && !checks[i].passed ==> i in at)
  }

  /** The names are those of exactly the checks that did not pass, in their order. */
  ghost predicate NamesAt(checks: seq<Check>, names: seq<string>, at: seq<nat>) {
    && FailingAt(checks, at)
    && |names| == |at|
    && forall k :: 0 <= k < |at| ==> names[k] == checks[at[k]].name
  }

  lemma {:induction false} NamesStep(checks: seq<Check>, check: Check, names: seq<string>, at: seq<nat>)
    requires NamesAt(checks, names, at)
    ensures check.passed ==> NamesAt(checks + [check], names, at)
    ensures !check.passed ==> NamesAt(checks + [check], names + [check.name], at + [|checks|])
  {
    var longer := at + [|checks|];
    assert longer[|at|] == |checks|;
    forall i: nat | i < |checks| && !checks[i].passed ensures i in longer {
      assert i in at;
    }
  }

  lemma {:induction false} FailedNamesMeans(checks: seq<Check>) returns (at: seq<nat>)
    ensures NamesAt(checks, FailedNames(checks), at)
  {
    if checks == [] {
      at := [];
    } else {
      var init, last := checks[..|checks| - 1], checks[|checks| - 1];
      var rest := FailedNamesMeans(init);
      hide NamesAt;
      NamesStep(init, last, FailedNames(init), rest);
      assert checks == init + [last];
      at := if last.passed then rest else rest + [|init|];
    }
  }

  lemma {:induction false} FirstFails(checks: seq<Check>, names: seq<string>, at: seq<nat>)
    requires NamesAt(checks, names, at) && checks != [] && !checks[0].passed
    ensures names != [] && names[0] == checks[0].name
  {
    assert 0 in at;
  }

  /** Whatever the thresholds: when evidence is accepted, what its checks are called, and which
      of them are given as reasons. */
  lemma {:induction false} EvaluationMeans(config: Config, execution: Execution, lineageCurrent: bool)
    returns (at: seq<nat>)
    ensures var metrics := execution.metrics;
            Evaluate(config, execution, lineageCurrent).accepted <==>
              && execution.verdict != CONFLICT
              && (config.semanticEvidenceRequired ==> execution.verdict == MATCH)
              && -config.maxTotalVariance <= metrics.totalVariance <= config.maxTotalVariance
              && -config.maxRowVariance <= metrics.rowVariance <= config.maxRowVariance
              && config.minKeyOverlap <= metrics.keyOverlap
              && -config.maxNullRateDelta <= metrics.nullRateDelta <= config.maxNullRateDelta
              && (config.buildRequired ==> execution.build.passed)
              && (config.lineageMustBeCurrent ==> lineageCurrent)
    ensures var decision := Evaluate(config, execution, lineageCurrent);
            && |decision.checks| == 7
            && decision.checks[0].name == "semantic_evidence"
            && decision.checks[1].name == "total_variance"
            && decision.checks[2].name == "row_count_variance"
            && decision.checks[3].name == "primary_key_overlap"
            && decision.checks[4].name == "null_rate_delta"
            && decision.checks[5].name == "dbt_build"
            && decision.checks[6].name == "lineage_current"
            && NamesAt(decision.checks, decision.reasons, at)
  {
    hide NamesAt;
    var checks := Checks(config, execution, lineageCurrent);
    AllPassed(checks);
    at := FailedNamesMeans(checks);
  }

  /** Which single check fails on what. */
  lemma {:induction false} CheckMeans(config: Config, execution: Execution, lineageCurrent: bool)
    ensures var checks, metrics := Checks(config, execution, lineageCurrent), execution.metrics;
            && |checks| == 7
            && (checks[0].passed <==>
                  execution.verdict == MATCH || (execution.verdict == MISSING && !config.semanticEvidenceRequired))
            && (checks[1].passed <==> -config.maxTotalVariance <= metrics.totalVariance <= config.maxTotalVariance)
            && (checks[2].passed <==> -config.maxRowVariance <= metrics.rowVariance <= config.maxRowVariance)
            && (checks[3].passed <==> config.minKeyOverlap <= metrics.keyOverlap)
            && (checks[4].passed <==> -config.maxNullRateDelta <= metrics.nullRateDelta <= config.maxNullRateDelta)
            && (checks[5].passed <==> config.buildRequired ==> execution.build.passed)
            && (checks[6].passed <==> config.lineageMustBeCurrent ==> lineageCurrent)
  {
  }

  // ---- Reconciliation ----

  /** One relation's aggregate row: count, revenue total, share of null revenues. */
  datatype Aggregate = Aggregate(count: nat, total: real, nullRate: real)

  function PercentageDelta(current: real, baseline: real): real {
    if baseline == 0.0 then (if current == 0.0 then 0.0 else 1_000_000_000.0)
    else (current - baseline) / Abs(baseline) * 100.0
  }

  function Reconcile(current: Aggregate, baseline: Aggregate, joined: nat): Metrics {
    Metrics(
      PercentageDelta(current.total, baseline.total),
      PercentageDelta(current.count as real, baseline.count as real),
      if baseline.count == 0 then 100.0 else joined as real / baseline.count as real * 100.0,
      (current.nullRate - baseline.nullRate) * 100.0)
  }

  lemma {:induction false} DivideLe(x: real, y: real, d: real)
    requires d > 0.0
    ensures x / d <= y <==> x <= y * d
  {
    var q := x / d;
    assert q * d == x;
    if q <= y {
      assert (y - q) * d >= 0.0;
    } else {
      assert (q - y) * d > 0.0;
    }
  }

  lemma {:induction false} DivideNegates(x: real, d: real)
    requires d != 0.0
    ensures -(x / d) == (-x) / d
  {
    var q := x / d;
    assert q * d == x;
    assert (-q) * d == -x;
    QuotientIsUnique(-q, -x, d);
  }

  lemma {:induction false} QuotientIsUnique(q: real, x: real, d: real)
    requires d != 0.0 && q * d == x
    ensures x / d == q
  {
    var r := x / d;
    assert r * d == x;
    assert (r - q) * d == 0.0;
  }

  /** A quotient by a positive number is within a bound when its numerator is within the scaled one. */
  lemma {:induction false} AbsDivideLe(x: real, y: real, d: real)
    requires d > 0.0
    ensures Abs(x / d) <= y <==> Abs(x) <= y * d
  {
    DivideLe(x, y, d);
    DivideLe(-x, y, d);
    DivideNegates(x, d);
    DivideLe(x, 0.0, d);
    assert 0.0 * d == 0.0;
  }

  lemma {:induction false} DeltaBound(current: real, baseline: real, percent: real)
    requires 0.0 <= percent < 1_000_000_000.0
    ensures Abs(PercentageDelta(current, baseline)) <= percent
            <==> Abs(current - baseline) * 100.0 <= percent * Abs(baseline)
  {
    if baseline != 0.0 {
      var d, part := Abs(baseline), percent / 100.0;
      AbsDivideLe(current - baseline, part, d);
      assert part * 100.0 == percent;
      Scaled(part, percent, d);
    }
  }

  lemma {:induction false} Scaled(part: real, percent: real, d: real)
    requires part * 100.0 == percent
    ensures part * d * 100.0 == percent * d
  {
  }

  lemma {:induction false} OverlapBound(joined: nat, rows: nat)
    requires rows > 0
    ensures joined as real / rows as real * 100.0 >= 99.9 <==> 1000 * joined >= 999 * rows
  {
    var r := rows as real;
    DivideLe(-(joined as real), -0.999, r);
    DivideNegates(joined as real, r);
  }

  ghost predicate DataWithin(current: Aggregate, baseline: Aggregate, joined: nat) {
    && Abs(current.total - baseline.total) * 200.0 <= Abs(baseline.total)
    && Abs(current.count as real - baseline.count as real) * 1000.0 <= baseline.count as real
    && 1000 * joined >= 999 * baseline.count
    && Abs(current.nullRate - baseline.nullRate) * 200.0 <= 1.0
  }

  ghost predicate MetricsWithin(metrics: Metrics) {
    && Abs(metrics.totalVariance) <= 0.5
    && Abs(metrics.rowVariance) <= 0.1
    && metrics.keyOverlap >= 99.9
    && Abs(metrics.nullRateDelta) <= 0.5
  }

  lemma {:induction false} MetricsBoundData(current: Aggregate, baseline: Aggregate, joined: nat)
    ensures MetricsWithin(Reconcile(current, baseline, joined)) <==> DataWithin(current, baseline, joined)
  {
    var total := PercentageDelta(current.total, baseline.total);
    var rows := PercentageDelta(current.count as real, baseline.count as real);
    assert Abs(total) <= 0.5 <==> Abs(current.total - baseline.total) * 200.0 <= Abs(baseline.total) by {
      DeltaBound(current.total, baseline.total, 0.5);
    }
    assert Abs(rows) <= 0.1 <==> Abs(current.count as real - baseline.count as real) * 1000.0 <= baseline.count as real
        by {
      DeltaBound(current.count as real, baseline.count as real, 0.1);
    }
    if baseline.count > 0 {
      OverlapBound(joined, baseline.count);
    }
  }

  lemma {:induction false} AcceptedMeans(execution: Execution, lineageCurrent: bool)
    ensures Evaluate(DEFAULT, execution, lineageCurrent).accepted <==>
            && execution.verdict == MATCH
            && MetricsWithin(execution.metrics)
            && execution.build.passed
            && lineageCurrent
  {
    var checks := Checks(DEFAULT, execution, lineageCurrent);
    AllPassed(checks);
  }

  lemma {:induction false} AllPassed(checks: seq<Check>)
    requires |checks| == 7
    ensures (forall check :: check in checks ==> check.passed) <==>
            (checks[0].passed && checks[1].passed && checks[2].passed && checks[3].passed
             && checks[4].passed && checks[5].passed && checks[6].passed)
  {
    forall check | check in checks
      ensures check == checks[0] || check == checks[1] || check == checks[2] || check == checks[3]
              || check == checks[4] || check == checks[5] || check == checks[6] {}
    forall i | 0 <= i < |checks| ensures checks[i] in checks {}
  }

  /** Acceptance of reconciled metrics under the default thresholds says, of the data itself:
      the totals differ by at most 1/200 of the baseline magnitude, the row counts by at most
      1/1000 of the baseline rows, at least 999/1000 of the baseline rows were joined, and the
      null rates differ by at most 1/200 - and it says no more about the numbers than that. */
  lemma {:induction false} AcceptanceBoundsData(current: Aggregate, baseline: Aggregate, joined: nat,
                             verdict: Verdict, build: Build, lineageCurrent: bool)
    ensures Evaluate(DEFAULT, Execution(verdict, Reconcile(current, baseline, joined), build), lineageCurrent).accepted
            <==> verdict == MATCH && build.passed && lineageCurrent && DataWithin(current, baseline, joined)
  {
    AcceptedMeans(Execution(verdict, Reconcile(current, baseline, joined), build), lineageCurrent);
    MetricsBoundData(current, baseline, joined);
  }

  /** The thresholds leave no slack on small or empty baselines. */
  lemma {:induction false} AcceptanceOnSmallBaselines(current: Aggregate, baseline: Aggregate, joined: nat,
                                   verdict: Verdict, build: Build, lineageCurrent: bool)
    requires Evaluate(DEFAULT, Execution(verdict, Reconcile(current, baseline, joined), build), lineageCurrent).accepted
    ensures baseline.total == 0.0 ==> current.total == 0.0
    ensures baseline.count < 1000 ==> current.count == baseline.count && joined >= baseline.count
  {
    AcceptanceBoundsData(current, baseline, joined, verdict, build, lineageCurrent);
    assert current.count != baseline.count ==> Abs(current.count as real - baseline.count as real) >= 1.0;
  }
}
