# Fraud alert selection and artifact-guarded scoring, in Dafny

This project models the two pieces of logic in the fraud-risk explainer
that are not plumbing. Both are proved correct against their specifications.

- **The batch run** (`run_all` in `src/generate_reports.py`):
  - The rate table is fitted on the training partition alone. That one
    table is applied to both partitions.
  - Each rated test row is scored on the persisted feature list.
  - Alerts are the records at or above the alert threshold, highest score
    first, at most `top_k_alerts` of them. If no record reaches the
    threshold, the selection falls back to the top `top_k_alerts` records
    of the whole test partition.
  - Alert i is paired with attribution row i to build evidence record i.
  - Evidence record i yields report i, keyed by its `alert_id`.
- **The online service** (`src/api/main.py`):
  - Three artifact slots (estimator, encoders, rate table) start empty.
  - The startup loader checks that all three files exist before it loads
    any of them.
  - `/health` reports each slot.
  - `/predict` answers 503 until all three slots are loaded. Otherwise it
    scores the preprocessed request on the persisted feature list and
    predicts 1 exactly when the probability reaches the threshold.

Files and modules:

- `frames.dfy` (`Frames`): the shared vocabulary.
  - Records are maps from column name to cell.
  - The estimator and the rate table are abstract types.
  - The shared preprocessing stages are one datatype used by both paths.
  - `Columns` and `FeatureMatrix` project a record or a frame onto a
    column list, which is `df[features]`.
- `selection.dfy` (`AlertSelection`): the alert selection as functions,
  with its lemmas.
- `reports.dfy` (`Reports`): the batch run.
  - Evidence pairing and report pairing are methods with loops, as in the
    source. Score assignment is a method with a loop too; the source
    assigns the score column in one step.
  - `RunAll` composes them. Besides its result, it returns what the run
    has left on disk.
- `api.dfy` (`Api`): the service.
  - It is a class whose three `Option` fields are the module-level
    `model`, `enc` and `rates`.
  - Its methods are the loader, the health check and the prediction
    endpoint.
- `parity.dfy` (`Parity`): the batch path and the online path give the
  same probability to the same prepared record.

Every collaborator whose code is not part of this model is a function
parameter with no internals:

- enrichment and derived features;
- `train_test_split`;
- `compute_train_only_rates` and `apply_rates`;
- `predict_proba`;
- `compute_shap_for_alerts` and `build_evidence_row`;
- the report generator and `validate_json`.

`src/features.py` and `src/config.py` are not part of this model. The
alert threshold and `top_k_alerts` are parameters.

Behaviour of the code that the model keeps as written:

- **No fallback flag.** Fallback alerts carry no mark, so the model has no
  flag.
- **Tie order.** The sort is pandas' default, which is not stable, so the
  order of equal scores is unspecified. `SortByScoreDesc` fixes one such
  order. The selected scores do not depend on it
  (`SelectedScoresIgnoreTieOrder`). When records tie at the last selected
  place, the choice among them follows this order, and so do `RunAll`'s
  alerts, evidences and reports.
- **Inclusive threshold.** The comparison is `>=`. With scores 0.95, 0.2,
  0.91, 0.1, 0.99 and threshold 0.99, the record scoring 0.99 reaches the
  threshold, so the primary path applies, it is the only alert, and no
  fallback happens. `ThresholdMetExactly` shows this.
- **Report validation.** An exception from `validate_json` is not caught,
  so one invalid report ends the run rather than being skipped. The rate
  table (line 37) and the complete evidence file (line 65) are already
  written by then, and the report file is never written. `RunAll` returns
  what is on disk alongside its result.
- **Attribution length.** Nothing checks that the attribution rows match
  the alerts. A short attribution list fails at `shap_values[i]`.

## Model

| member | source | states |
|---|---|---|
| `Reports.FitAndApplyRates` | src/generate_reports.py:36-39 | The table is the fit of the training rows. The same table rates both the training and the test partition. |
| `Reports.RatesIgnoreTestRows` | src/generate_reports.py:36-39 | Given the two partitions, only the training rows reach the fit: changing the test partition changes neither the fitted table nor the rated training partition. |
| `Reports.TestSeesOnlyTheTable` | src/generate_reports.py:36-39 | The rated test partition depends on the training rows only through the fitted table. |
| `Frames.Columns` | src/api/main.py:66-67 | Projecting a record on a column list succeeds exactly when every column is present. The result holds the record's cells in the list's order. |
| `Frames.FeatureMatrix` | src/generate_reports.py:45 | Projecting a frame succeeds exactly when every row projects. It gives one vector per row, in row order, each the row's projection. |
| `Reports.BatchScores` | src/generate_reports.py:43-48 | Scoring succeeds exactly when every test row has the persisted feature columns and the estimator returns one probability per row. The scores are then the estimator's output on the projected frame. It fails with a missing-column error exactly when some row lacks a column. |
| `Reports.BatchScoreIsRowProbability` | src/generate_reports.py:43-46 | With a row-wise estimator, the batch score of row k is the probability of row k alone, projected on `enc["features"]`. |
| `Reports.AssignRiskScores` | src/generate_reports.py:47-48 | Every test row gets exactly one score. The k-th row is unchanged and gets the k-th probability. |
| `AlertSelection.AtOrAbove` | src/generate_reports.py:51 | Every record the filter keeps reaches the threshold. |
| `AlertSelection.AtOrAboveIsExactFilter` | src/generate_reports.py:51 | The filter keeps a sub-multiset of the input. Every record it drops scores below the threshold. |
| `AlertSelection.SortByScoreDesc` | src/generate_reports.py:51 | The result is non-increasing by risk score and is a permutation of the input. |
| `AlertSelection.Head` | src/generate_reports.py:52 | `head(k)` is the prefix of length min(k, n). It is a sub-multiset of the input. |
| `AlertSelection.SelectAlerts` | src/generate_reports.py:50-54 | On either path, at most `top_k_alerts` alerts, in non-increasing score order, forming a sub-multiset of the test records (no record is taken twice). |
| `AlertSelection.HeadOutranksRest` | src/generate_reports.py:52-54 | The first k records of a score-sorted sequence score at least as high as every record left out. |
| `AlertSelection.PrimaryPath` | src/generate_reports.py:51-52 | Suppose some record reaches the threshold and `top_k_alerts > 0`. Then the alerts are the first `top_k_alerts` of the sorted at-or-above records, min(k, pool size) of them. Every alert reaches the threshold, and none scores below an at-or-above record left out. |
| `AlertSelection.FallbackPath` | src/generate_reports.py:53-54 | If no record reaches the threshold, the alerts are the first `top_k_alerts` of the whole sorted test partition, min(k, n) of them. None scores below a test record left out. |
| `AlertSelection.NonEmptyWhenPossible` | src/generate_reports.py:53-54 | A non-empty test partition with `top_k_alerts > 0` always yields at least one alert. |
| `AlertSelection.SelectedScoresIgnoreTieOrder` | src/generate_reports.py:51-54 | For every score-sorted permutation of the pool, the first k scores, position by position, are the same. The selection's scores do not depend on how the sort orders ties. |
| `AlertSelection.ThreeAboveThreshold` | src/generate_reports.py:50-54 | Scores 0.95, 0.2, 0.91, 0.1, 0.99 with threshold 0.9 and k = 3 select the records scoring 0.99, 0.95, 0.91, in that order. |
| `AlertSelection.ThresholdMetExactly` | src/generate_reports.py:51-53 | The same scores with threshold 0.99 select only the record scoring 0.99. The threshold is inclusive, so no fallback happens. |
| `AlertSelection.FallbackExample` | src/generate_reports.py:53-54 | The same scores with threshold 1.0 fall back to the scores 0.99, 0.95, 0.91. |
| `Reports.AlertsAreScoredTestRows` | src/generate_reports.py:48-54 | Every alert is some test row k carrying probability k. There are at most `top_k_alerts` alerts, highest first. |
| `Reports.BuildEvidences` | src/generate_reports.py:60-63 | There is one evidence record per alert, in alert order. Record i is built from alert i, its risk score and attribution row i. |
| `Reports.BuildReports` | src/generate_reports.py:68-72 | If every report validates, there is one report per evidence record, in order. Report i carries evidence i's `alert_id` and the report generated from it. Otherwise the run stops at the first failing report, and every earlier report validated. |
| `Reports.RunAll` | src/generate_reports.py:25-76 | The run succeeds exactly when every test row has the feature columns, the estimator returns one score per row, every alert has an attribution row, and every generated report validates. Each failure has its own error, characterised exactly. A failed validation names the first evidence record whose report does not validate. On success: the persisted table is the fit of the training partition. The alerts are the selection from the scored test partition. Evidence i comes from alert i and attribution row i. Report i carries evidence i's `alert_id`. On disk afterwards, failure included: the fitted rate table always. The evidence file exactly when the run reached line 65, holding those evidence records. The report file only on success. |
| `Api.FirstMissing` | src/api/main.py:31-36 | The check order is model, then encoders, then rates. The first missing file is the one named, and none is named when all three exist. |
| `Api.Service.constructor` | src/api/main.py:17-20 | The service starts with all three slots unloaded and is not ready. |
| `Api.Service.LoadArtifacts` | src/api/main.py:27-40 | A missing file fails with the message for the first missing artifact, and no slot changes. Otherwise all three slots are loaded with the files' contents. |
| `Api.Service.GetHealth` | src/api/main.py:43-50 | The status is always "ok". Each `*_loaded` flag is true exactly when its slot is loaded. |
| `Api.Decide` | src/api/main.py:70 | The prediction is 0 or 1, and it is 1 exactly when the probability reaches the alert threshold. |
| `Api.OnlineProba` | src/api/main.py:58-69 | A probability is returned exactly when the preprocessed request projects on `enc["features"]` and the estimator returns at least one row. It is then the estimator's first row. It fails with a missing-column error exactly when the projection fails. |
| `Api.Service.Predict` | src/api/main.py:53-72 | With any slot unloaded, the answer is the 503 error and nothing is computed. An error reaches the client as 503 exactly in that case, and as 500 otherwise. Otherwise the probability is `OnlineProba`'s, and the prediction is 1 exactly when it reaches the threshold. |
| `Api.StartupThenServe` | src/api/main.py:18-56 | A fresh service refuses a request. A failed load leaves it refusing. A successful load makes it answer with the decision on the online probability. |
| `Parity.OnlineAgreesWithBatch` | src/api/main.py:60-69 | A request that the online preprocessing turns into the same row as batch test row k gets exactly the batch score of row k. Both paths use the same estimator and the same persisted feature list. |

## Left out

- Training (`train_pipeline`, line 22 of `src/generate_reports.py`) is not modelled. The estimator and encoders it persists are inputs to `RunAll`.
- File formats and file I/O are not modelled: `joblib.dump` and `joblib.load` serialisation, the JSONL and JSON encoding, `tqdm` and `print`. `RunAll` records only which contents each output file holds when the run ends. A file that exists but fails to load is not modelled either.
- Rate fitting and lookup, enrichment, derived features, the train/test split, the estimator, the attribution engine, the evidence builder, the report generator and the validator have no internals here. Their code is not part of this model. They are function parameters.
- FastAPI routing, request parsing and HTTP transport are not modelled. If the loader raises at startup, the app does not start. Here that becomes the loader's error result, and the service stays not ready.
- Scores and probabilities are reals compared with `>=`. Floating-point behaviour, including `float(...)`, is not modelled.
- `AlertSelection.SortByScoreDesc` fixes one order among equal scores, while the source's sort leaves it unspecified. The selected scores do not depend on it (`SelectedScoresIgnoreTieOrder`). When records tie at the last selected place, the choice among them follows this order, and so do `RunAll`'s alerts, evidences and reports. The source may keep a different one of the tied records.
- `AlertSelection.SelectAlerts` takes `top_k_alerts` as a natural number. pandas' `head` with a negative count is not modelled.
- Frames are sequences of records. A missing column in any row counts as pandas' KeyError. An empty frame is treated as having every column, whereas pandas would still raise for an absent column.
- `Parity.OnlineAgreesWithBatch` assumes that the estimator scores rows independently (`RowWise`), as a fitted scikit-learn classifier does. It also assumes that the online preprocessing yields the same row as the batch one, because enrichment and derived features are opaque.
- `Reports.BuildEvidences` does not state that alert ids are unique. How `alert_id` is made belongs to the evidence builder, which is not part of this model.
- `Reports.RatesIgnoreTestRows` covers the rate fit only. Enrichment and derived features run on the whole frame before the split (lines 26-27 and 29-34 of `src/generate_reports.py`). These stages are opaque here, so the model does not exclude a test row influencing the training rows, and through them the fit.
- Rate-table contents, the default for unseen keys and smoothing live in `src/features.py`, which is not part of this model.
