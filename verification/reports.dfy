/** The batch path `run_all` of src/generate_reports.py: fit the rate table
    on the training partition, apply it to both partitions, score the test
    partition, select alerts, pair each alert with its attribution row to
    build one evidence record, and turn each evidence record into one
    report keyed by its alert id.

    Every collaborator whose code is not part of this model (enrichment,
    derived features, the train/test split, rate fitting and lookup, the
    estimator, the attribution engine, the evidence builder, the report
    generator and its validator) is a function passed in `Batch`. */
module Reports {
  import opened Frames
  import opened AlertSelection

  /** What `build_evidence_row` returns; only its "alert_id" entry is read
      here, the rest is opaque. */
  type EvidenceBody(==)
  datatype Evidence = Evidence(alertId: string, body: EvidenceBody)

  /** What the report generator returns; opaque here. */
  type Report(==)

  /** One line of the reports file: `{"alert_id": ..., "report": ...}`. */
  datatype ReportLine = ReportLine(alertId: string, report: Report)

  /** The collaborators `run_all` calls. */
  datatype Batch = Batch(
    stages: Stages,
    // train_test_split with the configured test size, seed and stratification
    split: seq<Row> -> (seq<Row>, seq<Row>),
    // compute_train_only_rates
    fitRates: seq<Row> -> RateTable,
    predictProba: PredictProba,
    // compute_shap_for_alerts: one attribution row per alert, and the feature names
    attributions: (Estimator, Encoders, seq<Scored>) -> (seq<seq<real>>, seq<string>),
    // build_evidence_row(row, risk_score, shap_row, feature_names)
    buildEvidence: (Scored, real, seq<real>, seq<string>) -> Evidence,
    // generate_explanations_with_llm
    generate: Evidence -> Report,
    // validate_json: false when it raises
    validates: Report -> bool)

  /** Why `run_all` stops early. Each is an exception the source does not
      catch, so nothing after it runs. */
  datatype BatchError =
    | MissingFeatureColumns      // test_df[features] raises KeyError
    | ScoreCountMismatch         // assigning a probability column of the wrong length
    | MissingAttributionRow      // shap_values[i] out of range
    | InvalidReport(index: nat)  // validate_json raised for the report of evidence `index`

  /** The train and test partitions after rate lookup, and the one table
      used for both. */
  datatype RatedSplit = RatedSplit(rates: RateTable, train: seq<Row>, test: seq<Row>)

  /** Lines 36-39: fit once on the training rows, apply that table to both
      partitions. */
  function FitAndApplyRates(fit: seq<Row> -> RateTable, apply: (seq<Row>, RateTable) -> seq<Row>,
                            train: seq<Row>, test: seq<Row>): (s: RatedSplit)
    ensures s.rates == fit(train)
    ensures s.train == apply(train, s.rates) && s.test == apply(test, s.rates)
  {
    var rates := fit(train);
    RatedSplit(rates, apply(train, rates), apply(test, rates))
  }

  /** Given the two partitions, only the training rows reach the rate fit:
      whatever the test partition holds, the table, and the rated training
      partition, are the same. */
  lemma RatesIgnoreTestRows(fit: seq<Row> -> RateTable, apply: (seq<Row>, RateTable) -> seq<Row>,
                            train: seq<Row>, test: seq<Row>, otherTest: seq<Row>)
    ensures FitAndApplyRates(fit, apply, train, test).rates == FitAndApplyRates(fit, apply, train, otherTest).rates
    ensures FitAndApplyRates(fit, apply, train, test).train == FitAndApplyRates(fit, apply, train, otherTest).train
  {
  }

  /** The rated test partition depends on the training rows only through
      the fitted table: two training partitions with the same table rate
      the test rows identically. */
  lemma TestSeesOnlyTheTable(fit: seq<Row> -> RateTable, apply: (seq<Row>, RateTable) -> seq<Row>,
                             train: seq<Row>, otherTrain: seq<Row>, test: seq<Row>)
    requires fit(train) == fit(otherTrain)
    ensures FitAndApplyRates(fit, apply, train, test).test == FitAndApplyRates(fit, apply, otherTrain, test).test
  {
  }

  /** Lines 45-46: the fraud probability of each rated test row, projected
      on the persisted feature list. */
  function BatchScores(predict: PredictProba, model: Estimator, features: seq<string>, test: seq<Row>)
    : (r: Result<seq<real>, BatchError>)
    ensures r.Ok? ==> |r.value| == |test|
    ensures r == Err(MissingFeatureColumns) <==> exists k :: 0 <= k < |test| && Columns(test[k], features).None?
    ensures r.Ok? <==>
      FeatureMatrix(test, features).Some? && |predict(model, FeatureMatrix(test, features).value)| == |test|
    ensures r.Ok? ==> r.value == predict(model, FeatureMatrix(test, features).value)
  {
    match FeatureMatrix(test, features)
    case None => Err(MissingFeatureColumns)
    case Some(x) =>
      var p := predict(model, x);
      if |p| == |test| then Ok(p) else Err(ScoreCountMismatch)
  }

  /** With an estimator that scores rows independently, the batch score of
      test row k is the probability of that row alone, projected on the
      same persisted feature list. */
  lemma BatchScoreIsRowProbability(predict: PredictProba, model: Estimator, features: seq<string>,
                                   test: seq<Row>, k: nat)
    requires BatchScores(predict, model, features, test).Ok?
    requires k < |test|
    requires RowWise(predict, model, FeatureMatrix(test, features).value)
    ensures RowProbability(predict, model, features, test[k]) == Some(BatchScores(predict, model, features, test).value[k])
  {
    var x := FeatureMatrix(test, features).value;
    assert x[k] == Columns(test[k], features).value;
  }

  /** Line 48: `test_df["risk_score"] = p`. Every test row gets exactly one
      score: the k-th row, unchanged, with the k-th probability. */
  method AssignRiskScores(test: seq<Row>, p: seq<real>) returns (scored: seq<Scored>)
    requires |p| == |test|
    ensures |scored| == |test|
    ensures forall k :: 0 <= k < |test| ==> scored[k].row == test[k] && scored[k].riskScore == p[k]
  {
    scored := [];
    var k := 0;
    while k < |test|
      invariant 0 <= k <= |test|
      invariant |scored| == k
      invariant forall j :: 0 <= j < k ==> scored[j].row == test[j] && scored[j].riskScore == p[j]
    {
      scored := scored + [Scored(test[k], p[k])];
      k := k + 1;
    }
  }

  /** Lines 60-63: one evidence record per alert, in alert order, the i-th
      built from the i-th alert, its score and the i-th attribution row. */
  method BuildEvidences(alerts: seq<Scored>, shapValues: seq<seq<real>>, featNames: seq<string>,
                        build: (Scored, real, seq<real>, seq<string>) -> Evidence)
    returns (evidences: seq<Evidence>)
    requires |alerts| <= |shapValues|
    ensures |evidences| == |alerts|
    ensures forall i :: 0 <= i < |alerts| ==>
      evidences[i] == build(alerts[i], alerts[i].riskScore, shapValues[i], featNames)
  {
    evidences := [];
    var i := 0;
    while i < |alerts|
      invariant 0 <= i <= |alerts|
      invariant |evidences| == i
      invariant forall j :: 0 <= j < i ==>
        evidences[j] == build(alerts[j], alerts[j].riskScore, shapValues[j], featNames)
    {
      var ev := build(alerts[i], alerts[i].riskScore, shapValues[i], featNames);
      evidences := evidences + [ev];
      i := i + 1;
    }
  }

  /** Lines 68-72: one report per evidence record, in the same order, the
      i-th keyed by the i-th evidence's alert id. The first report that
      fails validation stops the loop, and the batch with it. */
  method BuildReports(evidences: seq<Evidence>, generate: Evidence -> Report, validates: Report -> bool)
    returns (r: Result<seq<ReportLine>, BatchError>)
    ensures r.Ok? <==> forall i :: 0 <= i < |evidences| ==> validates(generate(evidences[i]))
    ensures r.Ok? ==> |r.value| == |evidences|
    ensures r.Ok? ==> forall i :: 0 <= i < |evidences| ==>
      r.value[i] == ReportLine(evidences[i].alertId, generate(evidences[i]))
    ensures r.Err? ==> r.error.InvalidReport? && r.error.index < |evidences|
    ensures r.Err? ==> !validates(generate(evidences[r.error.index]))
    ensures r.Err? ==> forall i :: 0 <= i < r.error.index ==> validates(generate(evidences[i]))
  {
    var reports := [];
    var i := 0;
    while i < |evidences|
      invariant 0 <= i <= |evidences|
      invariant |reports| == i
      invariant forall j :: 0 <= j < i ==> validates(generate(evidences[j]))
      invariant forall j :: 0 <= j < i ==> reports[j] == ReportLine(evidences[j].alertId, generate(evidences[j]))
    {
      var rep := generate(evidences[i]);
      if !validates(rep) {
        return Err(InvalidReport(i));
      }
      reports := reports + [ReportLine(evidences[i].alertId, rep)];
      i := i + 1;
    }
    r := Ok(reports);
  }

  /** The two files `run_all` writes, and the table it persists. */
  datatype BatchOutput = BatchOutput(
    rates: RateTable,
    alerts: seq<Scored>,
    evidences: seq<Evidence>,
    reports: seq<ReportLine>)

  /** What `run_all` has left on disk when it returns or fails: the rate
      table is dumped (line 37) before any step that can fail; the evidence
      file (line 65) once every alert has its evidence record; the report
      file (lines 74-76) only after every report validated. */
  datatype Written = Written(
    ratesFile: RateTable,
    evidenceFile: Option<seq<Evidence>>,
    reportsFile: Option<seq<ReportLine>>)

  /** The prepared data frame, before the split (lines 25-27). */
  function Prepared(b: Batch, raw: seq<Row>): seq<Row>
  {
    b.stages.addDerived(b.stages.enrich(raw))
  }

  /** The rated partitions (lines 29-39). */
  function Partitions(b: Batch, raw: seq<Row>): RatedSplit
  {
    var (train, test) := b.split(Prepared(b, raw));
    FitAndApplyRates(b.fitRates, b.stages.applyRates, train, test)
  }

  /** The test partition with its `risk_score` column: row k with score k. */
  function ScoredRows(rows: seq<Row>, p: seq<real>): seq<Scored>
    requires |p| == |rows|
  {
    seq(|rows|, k requires 0 <= k < |rows| => Scored(rows[k], p[k]))
  }

  /** `run_all` from the reloaded artifacts on (lines 25-72). `model` and
      `enc` are what the training run persisted. On success: the persisted
      table was fitted on the training partition alone; the alerts are the
      selection from the scored test partition; evidence i comes from alert
      i and attribution row i; report i carries the alert id of evidence i.
      The run succeeds exactly when the test rows score, every alert has an
      attribution row, and every generated report validates. `written` is
      what is on disk afterwards, failure included. */
  method RunAll(b: Batch, raw: seq<Row>, model: Estimator, enc: Encoders,
                alertThreshold: real, topKAlerts: nat)
    returns (r: Result<BatchOutput, BatchError>, written: Written)
    ensures r.Ok? ==> r.value.rates == b.fitRates(b.split(Prepared(b, raw)).0)
    ensures written.ratesFile == b.fitRates(b.split(Prepared(b, raw)).0)
    ensures written.evidenceFile.None? <==> r.Err? && !r.error.InvalidReport?
    ensures written.reportsFile.Some? <==> r.Ok?
    ensures r.Err? && r.error.InvalidReport? ==>
      && written.evidenceFile.Some?
      && r.error.index < |written.evidenceFile.value|
      && !b.validates(b.generate(written.evidenceFile.value[r.error.index]))
      && forall i :: 0 <= i < r.error.index ==> b.validates(b.generate(written.evidenceFile.value[i]))
    ensures r.Ok? ==> written.evidenceFile == Some(r.value.evidences) && written.reportsFile == Some(r.value.reports)
    ensures written.evidenceFile.Some? ==>
      var test := Partitions(b, raw).test;
      var scores := BatchScores(b.predictProba, model, enc.features, test);
      && scores.Ok?
      && var alerts := SelectAlerts(ScoredRows(test, scores.value), alertThreshold, topKAlerts);
         var (shapValues, featNames) := b.attributions(model, enc, alerts);
         var evidences := written.evidenceFile.value;
         && |alerts| <= |shapValues|
         && |evidences| == |alerts|
         && forall i :: 0 <= i < |alerts| ==>
              evidences[i] == b.buildEvidence(alerts[i], alerts[i].riskScore, shapValues[i], featNames)
    ensures r.Ok? ==>
      var test := Partitions(b, raw).test;
      var scores := BatchScores(b.predictProba, model, enc.features, test);
      && scores.Ok?
      && r.value.alerts == SelectAlerts(ScoredRows(test, scores.value), alertThreshold, topKAlerts)
    ensures r.Ok? ==> var out := r.value;
      var (shapValues, featNames) := b.attributions(model, enc, out.alerts);
      && |out.alerts| <= |shapValues|
      && |out.evidences| == |out.alerts|
      && (forall i :: 0 <= i < |out.alerts| ==>
            out.evidences[i] == b.buildEvidence(out.alerts[i], out.alerts[i].riskScore, shapValues[i], featNames))
      && |out.reports| == |out.evidences|
      && (forall i :: 0 <= i < |out.reports| ==>
            out.reports[i] == ReportLine(out.evidences[i].alertId, b.generate(out.evidences[i])))
    ensures r == Err(MissingFeatureColumns) <==> FeatureMatrix(Partitions(b, raw).test, enc.features).None?
    ensures var X := FeatureMatrix(Partitions(b, raw).test, enc.features);
      r == Err(ScoreCountMismatch) <==>
        X.Some? && |b.predictProba(model, X.value)| != |Partitions(b, raw).test|
    ensures
      var test := Partitions(b, raw).test;
      var scores := BatchScores(b.predictProba, model, enc.features, test);
      r.Ok? <==>
        && scores.Ok?
        && var alerts := SelectAlerts(ScoredRows(test, scores.value), alertThreshold, topKAlerts);
           var (shapValues, featNames) := b.attributions(model, enc, alerts);
           && |alerts| <= |shapValues|
           && forall i :: 0 <= i < |alerts| ==>
                b.validates(b.generate(b.buildEvidence(alerts[i], alerts[i].riskScore, shapValues[i], featNames)))
    ensures
      var test := Partitions(b, raw).test;
      var scores := BatchScores(b.predictProba, model, enc.features, test);
      r == Err(MissingAttributionRow) <==>
        && scores.Ok?
        && var alerts := SelectAlerts(ScoredRows(test, scores.value), alertThreshold, topKAlerts);
           |b.attributions(model, enc, alerts).0| < |alerts|
  {
    var parts := Partitions(b, raw);
    written := Written(parts.rates, None, None);
    var scores := BatchScores(b.predictProba, model, enc.features, parts.test);
    if scores.Err? {
      return Err(scores.error), written;
    }
    var scored := AssignRiskScores(parts.test, scores.value);
    assert scored == ScoredRows(parts.test, scores.value);
    var alerts := SelectAlerts(scored, alertThreshold, topKAlerts);
    var (shapValues, featNames) := b.attributions(model, enc, alerts);
    if |shapValues| < |alerts| {
      return Err(MissingAttributionRow), written;
    }
    var evidences := BuildEvidences(alerts, shapValues, featNames, b.buildEvidence);
    written := written.(evidenceFile := Some(evidences));
    var reports := BuildReports(evidences, b.generate, b.validates);
    if reports.Err? {
      return Err(reports.error), written;
    }
    written := written.(reportsFile := Some(reports.value));
    r := Ok(BatchOutput(parts.rates, alerts, evidences, reports.value));
  }

  /** Every alert drawn from the scored test partition is one of its rows
      with that row's own score; there are at most `topKAlerts` of them,
      highest score first. */
  lemma AlertsAreScoredTestRows(test: seq<Row>, p: seq<real>, alertThreshold: real, topKAlerts: nat)
    requires |p| == |test|
    ensures var alerts := SelectAlerts(ScoredRows(test, p), alertThreshold, topKAlerts);
      && |alerts| <= topKAlerts
      && NonIncreasing(alerts)
      && forall a :: a in alerts ==> exists k :: 0 <= k < |test| && a.row == test[k] && a.riskScore == p[k]
  {
    var scored := ScoredRows(test, p);
    var alerts := SelectAlerts(scored, alertThreshold, topKAlerts);
    forall a | a in alerts ensures exists k :: 0 <= k < |test| && a.row == test[k] && a.riskScore == p[k] {
      assert a in multiset(scored);
      var k :| 0 <= k < |scored| && scored[k] == a;
    }
  }
}
