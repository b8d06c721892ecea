/** The two call paths agree: a record that the online service prepares
    into the same row as a rated test row of the batch path gets, from the
    same estimator and the same persisted feature list, exactly the score
    the batch path gave that row. Both paths project on `enc.features`
    (src/generate_reports.py line 43, src/api/main.py line 66). */
module Parity {
  import opened Frames
  import opened Reports
  import opened Api

  lemma OnlineAgreesWithBatch(stages: Stages, predict: PredictProba, model: Estimator, enc: Encoders,
                              rates: RateTable, request: Row, test: seq<Row>, k: nat)
    requires k < |test|
    requires BatchScores(predict, model, enc.features, test).Ok?
    requires RowWise(predict, model, FeatureMatrix(test, enc.features).value)
    requires OnlineFrame(stages, rates, request) == [test[k]]
    ensures OnlineProba(stages, predict, model, enc, rates, request)
         == Ok(BatchScores(predict, model, enc.features, test).value[k])
  {
    var score := BatchScores(predict, model, enc.features, test).value[k];
    assert RowProbability(predict, model, enc.features, test[k]) == Some(score) by {
      BatchScoreIsRowProbability(predict, model, enc.features, test, k);
    }
    var x := Columns(test[k], enc.features).value;
    assert FeatureMatrix([test[k]], enc.features) == Some([x]) by {
      FeatureMatrixOfOne(test[k], enc.features);
    }
    assert 0 < |predict(model, [x])| && predict(model, [x])[0] == score;
  }
}
