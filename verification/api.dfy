/** The online scoring service of src/api/main.py: three artifact slots
    (estimator, encoders, rate table) that start empty, a startup loader
    that fills all three or none, a health report, and a prediction
    endpoint that refuses to serve until all three are loaded. */
module Api {
  import opened Frames

  /** The three persisted artifacts, in the order the loader checks them. */
  datatype Artifact = ModelArtifact | EncodersArtifact | RatesArtifact

  function ArtifactPath(a: Artifact): string
  {
    match a
    case ModelArtifact => "artifacts/model.pkl"
    case EncodersArtifact => "artifacts/encoders.pkl"
    case RatesArtifact => "artifacts/rates.pkl"
  }

  /** The RuntimeError message the loader raises for a missing file. */
  function MissingMessage(a: Artifact): string
  {
    "Missing " + ArtifactPath(a) + " (run training first)."
  }

  /** The artifact directory as the loader finds it: None for a file that
      does not exist, otherwise what loading it yields. */
  datatype ArtifactStore = ArtifactStore(
    model: Option<Estimator>,
    enc: Option<Encoders>,
    rates: Option<RateTable>)

  /** The first missing artifact, checking model, then encoders, then rates;
      None when all three exist. */
  function FirstMissing(store: ArtifactStore): (m: Option<Artifact>)
    ensures m.None? <==> store.model.Some? && store.enc.Some? && store.rates.Some?
    ensures m == Some(ModelArtifact) <==> store.model.None?
    ensures m == Some(EncodersArtifact) <==> store.model.Some? && store.enc.None?
    ensures m == Some(RatesArtifact) <==> store.model.Some? && store.enc.Some? && store.rates.None?
  {
    if store.model.None? then Some(ModelArtifact)
    else if store.enc.None? then Some(EncodersArtifact)
    else if store.rates.None? then Some(RatesArtifact)
    else None
  }

  /** The body `/health` returns. */
  datatype Health = Health(status: string, modelLoaded: bool, encLoaded: bool, ratesLoaded: bool)

  /** The body `/predict` returns: `prediction` and `proba_fraud`. */
  datatype Prediction = Prediction(prediction: nat, probaFraud: real)

  /** Why `/predict` does not answer with a prediction. */
  datatype ApiError =
    | ArtifactsNotLoaded     // HTTPException 503 "Artifacts not loaded"
    | MissingRequestColumns  // df[feat_cols] raises KeyError
    | NoProbability          // the estimator returned no row to index

  /** The HTTP status each error reaches the client with: the explicit 503,
      or FastAPI's 500 for an exception the handler does not catch. */
  function StatusCode(e: ApiError): (code: int)
    ensures code == 503 <==> e == ArtifactsNotLoaded
    ensures code == 500 <==> e != ArtifactsNotLoaded
  {
    if e.ArtifactsNotLoaded? then 503 else 500
  }

  /** Line 70: the alert decision. */
  function Decide(proba: real, alertThreshold: real): (prediction: nat)
    ensures prediction <= 1
    ensures prediction == 1 <==> proba >= alertThreshold
  {
    if proba >= alertThreshold then 1 else 0
  }

  /** The request after the shared preprocessing: the one-row frame
      enriched, given derived features, and rated with the loaded table. */
  function OnlineFrame(stages: Stages, rates: RateTable, features: Row): seq<Row>
  {
    stages.applyRates(stages.addDerived(stages.enrich([features])), rates)
  }

  /** Lines 58-69: the fraud probability of one request, from the
      preprocessed frame projected on the persisted feature list
      `enc.features`, taken from the estimator's first row. */
  function OnlineProba(stages: Stages, predict: PredictProba, model: Estimator, enc: Encoders,
                       rates: RateTable, features: Row): (r: Result<real, ApiError>)
    ensures var frame := OnlineFrame(stages, rates, features);
      r == Err(MissingRequestColumns) <==> FeatureMatrix(frame, enc.features).None?
    ensures var frame := OnlineFrame(stages, rates, features);
      r.Ok? ==>
        && FeatureMatrix(frame, enc.features).Some?
        && 0 < |predict(model, FeatureMatrix(frame, enc.features).value)|
        && r.value == predict(model, FeatureMatrix(frame, enc.features).value)[0]
    ensures var frame := OnlineFrame(stages, rates, features);
      r.Ok? <==> FeatureMatrix(frame, enc.features).Some? && 0 < |predict(model, FeatureMatrix(frame, enc.features).value)|
  {
    match FeatureMatrix(OnlineFrame(stages, rates, features), enc.features)
    case None => Err(MissingRequestColumns)
    case Some(x) =>
      var p := predict(model, x);
      if |p| == 0 then Err(NoProbability) else Ok(p[0])
  }

  /** The service process: the module-level `model`, `enc` and `rates`,
      with the configured alert threshold and the collaborators it calls. */
  class Service {
    const stages: Stages
    const predictProba: PredictProba
    const alertThreshold: real

    var model: Option<Estimator>
    var enc: Option<Encoders>
    var rates: Option<RateTable>

    /** All three slots loaded. */
    predicate Ready()
      reads this
    {
      model.Some? && enc.Some? && rates.Some?
    }

    /** Lines 17-20: the process starts with no artifact loaded. */
    constructor (stages: Stages, predictProba: PredictProba, alertThreshold: real)
      ensures this.stages == stages && this.predictProba == predictProba
      ensures this.alertThreshold == alertThreshold
      ensures model == None && enc == None && rates == None
      ensures !Ready()
    {
      this.stages := stages;
      this.predictProba := predictProba;
      this.alertThreshold := alertThreshold;
      model, enc, rates := None, None, None;
    }

    /** Lines 28-40: every existence check precedes every load. A missing
        file fails with the message naming the first missing artifact, and
        no slot changes; otherwise all three slots are filled. */
    method LoadArtifacts(store: ArtifactStore) returns (err: Option<string>)
      modifies this
      ensures FirstMissing(store).Some? ==> err == Some(MissingMessage(FirstMissing(store).value))
      ensures FirstMissing(store).Some? ==> model == old(model) && enc == old(enc) && rates == old(rates)
      ensures FirstMissing(store).None? ==> err == None && Ready()
      ensures FirstMissing(store).None? ==> model == store.model && enc == store.enc && rates == store.rates
    {
      if store.model.None? {
        return Some(MissingMessage(ModelArtifact));
      }
      if store.enc.None? {
        return Some(MissingMessage(EncodersArtifact));
      }
      if store.rates.None? {
        return Some(MissingMessage(RatesArtifact));
      }
      model := store.model;
      enc := store.enc;
      rates := store.rates;
      err := None;
    }

    /** Lines 43-50: status is always "ok"; each flag says whether its slot
        is loaded. */
    method GetHealth() returns (h: Health)
      ensures h.status == "ok"
      ensures h.modelLoaded <==> model.Some?
      ensures h.encLoaded <==> enc.Some?
      ensures h.ratesLoaded <==> rates.Some?
    {
      h := Health("ok", model.Some?, enc.Some?, rates.Some?);
    }

    /** Lines 53-72: 503 unless all three slots are loaded; otherwise the
        probability of the preprocessed request under the persisted feature
        list, with prediction 1 exactly when it reaches the threshold. */
    method Predict(features: Row) returns (r: Result<Prediction, ApiError>)
      ensures !Ready() ==> r == Err(ArtifactsNotLoaded)
      ensures r.Err? ==> (StatusCode(r.error) == 503 <==> !Ready())
      ensures Ready() ==>
        var p := OnlineProba(stages, predictProba, model.value, enc.value, rates.value, features);
        && (p.Err? ==> r == Err(p.error))
        && (p.Ok? ==> r.Ok? && r.value.probaFraud == p.value)
      ensures r.Ok? ==> r.value.prediction <= 1
      ensures r.Ok? ==> (r.value.prediction == 1 <==> r.value.probaFraud >= alertThreshold)
    {
      if model.None? || enc.None? || rates.None? {
        return Err(ArtifactsNotLoaded);
      }
      var p := OnlineProba(stages, predictProba, model.value, enc.value, rates.value, features);
      if p.Err? {
        return Err(p.error);
      }
      r := Ok(Prediction(Decide(p.value, alertThreshold), p.value));
    }
  }

  /** A fresh service refuses every request until its artifacts load, and
      after a successful load it is ready whatever it held before. */
  method StartupThenServe(stages: Stages, predictProba: PredictProba, alertThreshold: real,
                          store: ArtifactStore, features: Row)
    returns (before: Result<Prediction, ApiError>, loadError: Option<string>, after: Result<Prediction, ApiError>)
    ensures before == Err(ArtifactsNotLoaded)
    ensures loadError.Some? <==> FirstMissing(store).Some?
    ensures loadError.Some? ==> after == Err(ArtifactsNotLoaded)
    ensures loadError.None? ==>
      var p := OnlineProba(stages, predictProba, store.model.value, store.enc.value, store.rates.value, features);
      && (p.Err? ==> after == Err(p.error))
      && (p.Ok? ==> after == Ok(Prediction(Decide(p.value, alertThreshold), p.value)))
  {
    var service := new Service(stages, predictProba, alertThreshold);
    before := service.Predict(features);
    loadError := service.LoadArtifacts(store);
    after := service.Predict(features);
    if after.Ok? {
      assert after.value.prediction == Decide(after.value.probaFraud, alertThreshold);
    }
  }
}
