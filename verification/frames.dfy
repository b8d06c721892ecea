/** Vocabulary shared by the batch path (src/generate_reports.py) and the
    online path (src/api/main.py): transaction records, the three persisted
    artifacts, and the projection of a record onto the persisted feature
    columns that both paths feed to the estimator. */
module Frames {

  datatype Option<T> = None | Some(value: T)

  datatype Result<T, E> = Ok(value: T) | Err(error: E)

  /** One cell of a transaction record: numeric or categorical. */
  datatype Value = Num(x: real) | Cat(s: string)

  /** A transaction record: column name to cell. A data frame is a
      sequence of records, in row order. */
  type Row = map<string, Value>

  /** The trained estimator (model.pkl); a black box here. */
  type Estimator(==)

  /** The fitted group fraud-rate table (rates.pkl); its contents and its
      default-key policy belong to the feature code, which is not part of
      this model. */
  type RateTable(==)

  /** The encoders artifact (encoders.pkl). Both paths read only its
      "features" entry: the feature-column list persisted at training. */
  datatype Encoders = Encoders(features: seq<string>)

  /** `model.predict_proba(X)[:, 1]`: the fraud probability of each row of
      the feature matrix `X`, as the estimator reports it. */
  type PredictProba = (Estimator, seq<seq<Value>>) -> seq<real>

  /** The preprocessing stages both paths run, in this order:
      enrichment, derived features, then rate lookup with a fitted table. */
  datatype Stages = Stages(
    enrich: seq<Row> -> seq<Row>,
    addDerived: seq<Row> -> seq<Row>,
    applyRates: (seq<Row>, RateTable) -> seq<Row>)

  /** `row[cols]`: the cells of `row` under `cols`, in the order of `cols`;
      None (a KeyError) when some column is absent. */
  function Columns(row: Row, cols: seq<string>): (r: Option<seq<Value>>)
    ensures r.Some? <==> forall i :: 0 <= i < |cols| ==> cols[i] in row
    ensures r.Some? ==> |r.value| == |cols|
    ensures r.Some? ==> forall i :: 0 <= i < |cols| ==> r.value[i] == row[cols[i]]
  {
    if cols == [] then Some([])
    else if cols[0] !in row then None
    else
      match Columns(row, cols[1..])
      case None => None
      case Some(rest) => Some([row[cols[0]]] + rest)
  }

  /** `df[cols]` on a whole frame: one feature vector per row, in row order;
      None when some row lacks one of the columns. */
  function FeatureMatrix(rows: seq<Row>, cols: seq<string>): (r: Option<seq<seq<Value>>>)
    ensures r.Some? <==> forall k :: 0 <= k < |rows| ==> Columns(rows[k], cols).Some?
    ensures r.Some? ==> |r.value| == |rows|
    ensures r.Some? ==> forall k :: 0 <= k < |rows| ==> r.value[k] == Columns(rows[k], cols).value
  {
    if rows == [] then Some([])
    else
      match Columns(rows[0], cols)
      case None => None
      case Some(x) =>
        match FeatureMatrix(rows[1..], cols)
        case None => None
        case Some(rest) => Some([x] + rest)
  }

  /** A one-row frame gives a one-row matrix, or fails as its row does. */
  lemma FeatureMatrixOfOne(row: Row, cols: seq<string>)
    ensures Columns(row, cols).Some? ==> FeatureMatrix([row], cols) == Some([Columns(row, cols).value])
    ensures Columns(row, cols).None? ==> FeatureMatrix([row], cols).None?
  {
    assert [row][1..] == [];
    assert FeatureMatrix([], cols) == Some([]);
    if Columns(row, cols).Some? {
      assert [Columns(row, cols).value] + [] == [Columns(row, cols).value];
    }
  }

  /** The estimator scores each row of `X` on its own: the probability of
      row k in the batch is the probability of row k scored alone. This is
      how a fitted scikit-learn classifier behaves. */
  ghost predicate RowWise(predict: PredictProba, model: Estimator, X: seq<seq<Value>>)
  {
    |predict(model, X)| == |X| &&
    forall k :: 0 <= k < |X| ==>
      |predict(model, [X[k]])| == 1 && predict(model, X)[k] == predict(model, [X[k]])[0]
  }

  /** The probability the estimator gives one prepared record when it is
      projected onto `features`; None when a column is missing or the
      estimator returns no row. */
  function RowProbability(predict: PredictProba, model: Estimator, features: seq<string>, row: Row): (r: Option<real>)
    ensures r.Some? ==> Columns(row, features).Some?
    ensures r.Some? ==> 0 < |predict(model, [Columns(row, features).value])|
    ensures r.Some? ==> r.value == predict(model, [Columns(row, features).value])[0]
  {
    match Columns(row, features)
    case None => None
    case Some(x) =>
      var p := predict(model, [x]);
      if |p| == 0 then None else Some(p[0])
  }
}
