# Crypto tracker forecasting core, modelled in Dafny

This project models the forecasting core of a Flask application that tracks
cryptocurrency prices and forecasts them with a Prophet model and with
recurrent networks (LSTM and GRU), per asset or with one global model shared
by many assets. The model covers:

- the price series and the daily, forward-filled price frame with its log
  returns (`Series`, `PriceFrame`);
- the chunk-length, training-length and validation-split sizing and the
  intake, filtering and aggregation of `train_global_model`
  (`TrainingSizing`, `GlobalTraining`);
- the model registry: normalised hyperparameters, the canonical model key,
  model names and artifact paths, the runs table and the choice between a
  best checkpoint and the saved artifact in `load_global_model`
  (`ModelRegistry`);
- forecast computation and storage for the global model, the per-asset
  recurrent models and Prophet, over forecast tables that keep one row per
  asset and date (`GlobalInference`, `Rnn`, `Prophet`, `ForecastStore`);
- the single-flight background job table and the chart routes that drive it
  (`Jobs`, `Charts`);
- the configuration read from the environment, the Prophet defaults and the
  login validators (`Config`, `ProphetDefaults`, `AuthUtils`).

Dates are calendar day numbers, so "the day before" is `d - 1`. Prices and
predictions are `real`s. The functions `exp`, `ln` and the population
standard deviation are function-valued fields of `Numerics.Primitives`. The
predicate `Lawful` states the facts the proofs use: `exp` is positive and
monotone, `exp(0) == 1`, and the standard deviation is never negative. The
forecasters are Darts' `historical_forecasts` and `predict` and the Prophet
forecaster. Their outputs, as dated predictions, are parameters of the
operations that use them. SHA-256 and `json.dumps` are function parameters
too. Tables are sequences of records held by classes whose methods replace
them. Each locked block of the job runner is one method of `Jobs.JobTable`.

When a run has no work directory or no model name, `load_global_model`
skips the checkpoint probe and keeps the preference, so with
`prefer == "best_checkpoint"` it still tries `load_from_checkpoint`
(web/app/services/model_registry.py:227-249). The model does the same.

The `while True` filtering loop of `train_global_model` raises
`Not enough data to train a global model.` only when a pass keeps no asset
(web/app/services/global_training.py:301-324). For payloads that passed the
intake this cannot happen: each has at least 6 daily returns, so the input
chunk is at least 5, the shortest usable series at least 6, and a positive
validation ratio is only chosen when the shortest series keeps that many
training points. The first pass therefore keeps every asset and the loop
ends there. `FilterTrainable` keeps the raise, and `PlanTraining` fails only
when the intake is empty.

## Model

| member | source | states |
|---|---|---|
| Series.ClampDays | web/app/services/series.py:8-12 | a non-digit argument counts as 0; the result is the parsed number capped at `max_days`, and lies in `0..max_days` whenever `max_days >= 0` |
| Series.ClampDaysExamples | tests/test_series.py:4-8 | the four cases of the unit test: `("30",10)` gives 10, `("7",365)` gives 7, `""` and `"abc"` give 0 |
| Series.SelectPrices | web/app/services/series.py:16-19 | a price row is selected exactly when it belongs to the asset and, with a window, is dated on or after its start |
| Series.FetchPriceSeries | web/app/services/series.py:15-23 | the result is the selected rows in ascending date order (a sorted permutation of them), all inside the window when `days > 0` |
| Series.SelectedDatesUnique | web/app/services/series.py:15-23 | under the table's `(crypto_id, date)` uniqueness the selected points carry distinct dates |
| Series.FetchPriceSeriesStrictlyAscending | web/app/services/series.py:20-23 | under the uniqueness constraint the series is strictly ascending by date |
| ProphetDefaults.ChosenDays | web/app/services/prophet_defaults.py:24-27 | a listed window is kept, any other value (or none) becomes the 365-day default; the result is always a listed option |
| ProphetDefaults.ResolveProphetDefaults | web/app/services/prophet_defaults.py:21-37 | the days value is the chosen window capped at `max_days` ("All" stays 0), and the other entries are the fixed defaults, options and labels |
| AuthUtils.IsSafeNextUrl | web/app/auth_utils.py:47-50 | a redirect target is accepted exactly when it is present, non-empty, starts with `/` and does not start with `//` |
| AuthUtils.ValidEmailMatchesPattern | web/app/auth_utils.py:10 | every address `validate_email` accepts matches `^[^@\s]+@[^@\s]+\.[^@\s]+$` |
| AuthUtils.PatternMatchIsValidEmail | web/app/auth_utils.py:10 | every address the pattern matches is accepted |
| AuthUtils.ValidateEmailIsPattern | web/app/auth_utils.py:53-54 | `validate_email` accepts exactly the strings the pattern matches |
| AuthUtils.ReportUpToFacts | web/app/auth_utils.py:57-69 | after n checks the report holds exactly the broken rules of rank below n, in ascending rank |
| AuthUtils.FullReport | web/app/auth_utils.py:57-69 | the full report lists every broken rule and no other, in check order, and is empty exactly when the password has 8 characters, a lower-case letter, an upper-case letter, a digit and a symbol |
| AuthUtils.ValidatePassword | web/app/auth_utils.py:57-69 | the method's list is the report of all five rules |
| Config.DefaultUrlsClean | web/app/config.py:10 | both built-in base URLs already have no query, no fragment and no trailing slash |
| Config.CutUrl | web/app/config.py:11 | the cut is a prefix of the input with no `?`, no `#` and no trailing `/`, and it stops only at a `/`, `?` or `#`; everything between it and the end of `split("?", 1)[0].split("#", 1)[0]` is `/` |
| Config.NormalizeBaseUrl | web/app/config.py:8-12 | the configured base URL is always clean; a blank setting gives the default; otherwise it is the cut of the stripped setting, or the default when that cut is empty |
| Config.CutUrlOfClean | web/app/config.py:11 | a URL that is already clean is left unchanged by the cut |
| Config.CutUrlDropsQuery | web/app/config.py:11 | a clean URL followed by a query string cuts back to the URL |
| Config.CutUrlDropsFragment | web/app/config.py:11 | a clean URL followed by a fragment cuts back to the URL |
| Config.NormalizeDropsQueryAndFragment | web/app/config.py:8-12 | a clean URL followed by a query or fragment normalises to the URL itself |
| Config.DefaultHeadersLower | web/app/config.py:19-22 | both default header names are lower-case and contain no `_` |
| Config.ApiKeyHeader | web/app/config.py:15-22 | the header name is never empty, lower-case and without `_`; an explicit name is the stripped setting character by character, with `_` turned into `-` and every other character lowercased; otherwise it is the pro header exactly when the base URL names `pro-api.coingecko.com`, else the demo header |
| Config.VsCurrency | web/app/config.py:23-24 | the currency is non-empty and lower-case: `usd` when the setting is blank, else the stripped setting lowercased |
| Config.IntSetting | web/app/config.py:25-28 | an all-digit setting is read as its number; anything else (including an empty or signed one) gives the fallback |
| Config.IntSettingReadsBack | web/app/config.py:25-28 | a number written in decimal is read back as itself |
| Config.LoadConfig | web/app/config.py:4-76 | both base URLs are clean and follow the base-URL rule with their defaults; the header follows the header rule for the final CoinGecko URL; the currency follows the currency rule; both API keys are stripped; `MAX_HISTORY_DAYS` (unstripped, default 3650), both retry counts (default 2) and both horizons (default 30) follow the integer rule; the secret key, database URL and log level are read with their defaults; the CSRF limit is 3600, the cookie is HTTP-only and `Lax` |
| Config.ConfiguredNumbersReadBack | web/app/config.py:25-28 | a history length, CoinGecko retry count and RNN horizon written in decimal in the environment are configured as exactly those numbers |
| Config.ConfiguredBaseUrlKept | web/app/config.py:8-12 | a CoinGecko URL configured as a clean URL followed by a query or fragment is kept without them |
| Config.EmptyEnvironmentUrls | web/app/config.py:8-22 | with nothing configured both base URLs are the built-in ones and the header is the demo header |
| Config.EmptyEnvironmentCurrency | web/app/config.py:23-24 | with nothing configured the currency is `usd` |
| Config.DigitDefaultsReadBack | web/app/config.py:34-37 | the textual defaults `"2"` and `"30"` are read back as 2 and 30 |
| Config.EmptyEnvironmentNumbers | web/app/config.py:25-72 | with nothing configured the history limit is 3650, the retry counts 2 and both forecast horizons 30 |
| Config.NotContainsPro | web/app/config.py:19 | a URL without a `-` cannot name the pro endpoint |
| Jobs.NewRunningJob | web/app/services/jobs.py:47-57 | an admitted job is running, carries its key, type and label, the message `<label> update running.`, and no result, error or active job |
| Jobs.BusyJob | web/app/services/jobs.py:30-41 | the busy answer is for the requested key but names the running job's key, type and label, with the message `<active label> update already running.` |
| Jobs.IdleJob | web/app/services/jobs.py:100-107 | a key without an entry answers idle with an empty message |
| Jobs.FailureMessage | web/app/services/jobs.py:72-73 | a failed job's message is never empty: the stripped exception text, or `Update failed.` when that is blank |
| Jobs.DoneMessage | web/app/services/jobs.py:89-94 | a non-zero count gives `<label> updated: <n> points.`, zero gives `<label> completed.` |
| Jobs.Finish | web/app/services/jobs.py:76-94 | finishing keeps the key, type and label; a raised target gives an error state with a non-empty message, a returned one a done state holding the count |
| Jobs.JobTable.constructor | web/app/services/jobs.py:10-11 | the table starts empty and valid |
| Jobs.JobTable.FindRunningJob | web/app/services/jobs.py:18-22 | the scan returns a stored running entry, or none exactly when no entry runs |
| Jobs.JobTable.StartJob | web/app/services/jobs.py:25-64 | with another key running the answer is busy and nothing changes; with this key running the stored entry comes back unchanged; otherwise a new running entry is stored and a worker is spawned; at most one job ever runs |
| Jobs.JobTable.RunJob | web/app/services/jobs.py:67-94 | a vanished entry is left alone, otherwise only that entry is finished with the outcome; the set of keys is unchanged and at most one job runs |
| Jobs.JobTable.GetJobStatus | web/app/services/jobs.py:97-108 | the stored entry, or the idle answer for a key without one |
| Jobs.SingleFlightScenario | web/app/services/jobs.py:25-45 | starting a second job under another key while the first runs is refused as busy and names the first; once the first has finished the next one starts |
| Charts.JobKey | web/app/routes/charts.py:57-58 | the key starts with the job type followed by `:` (the decimal asset id follows) |
| Charts.JobKeyInjective | web/app/routes/charts.py:57-58 | for colon-free job types, equal keys mean the same job type and the same asset |
| Charts.ParseIntArg | web/app/routes/charts.py:80-91 | a missing, empty or unparsable value gives the default; a parsed value is returned exactly when it is allowed (or nothing restricts it), else the default |
| Charts.ParseIntArgLayers | web/app/routes/charts.py:231-240 | a layer or chunk count written by the form is read back when it is 1, 2 or 3, otherwise it becomes 1 |
| Charts.JobStatusCode | web/app/routes/charts.py:62-65 | a JSON answer has status 202 exactly when the job is running, else 200 |
| Charts.FlashCategory | web/app/routes/charts.py:67-76 | done flashes `success`, error `error`, busy `warning`, running and idle `info` |
| Charts.FlashMessage | web/app/routes/charts.py:68 | the flashed text is never empty: the job's message, or `Update queued.` when that is empty |
| Charts.DisabledJob | web/app/routes/charts.py:172-180 | a disabled horizon answers with an error job under the asset's key and the message `<label> forecast disabled` |
| Charts.Recalculate | web/app/routes/charts.py:170-202 | a horizon that is not positive answers with the disabled job and leaves the job table untouched; otherwise `start_job`'s three cases under the asset's key and label: busy with the table unchanged while another job runs, the running entry with the table unchanged when this job already runs, and a fresh running entry added to the table when nothing runs |
| Charts.JobStatusRoute | web/app/routes/charts.py:330-338 | an unknown job type is a 404; otherwise the stored job for the key, or the idle answer |
| ModelRegistry.StrLessIrreflexive | web/app/services/model_registry.py:26 | no key sorts before itself under Python's string order |
| ModelRegistry.StrLessAsymmetric | web/app/services/model_registry.py:26 | no two keys each sort before the other |
| ModelRegistry.StrLessTransitive | web/app/services/model_registry.py:26 | the string order is transitive |
| ModelRegistry.StrLessTotal | web/app/services/model_registry.py:26 | any two distinct keys are ordered one way or the other |
| ModelRegistry.InsertEntry | web/app/services/model_registry.py:26 | inserting an entry into key-ordered entries keeps them ordered and adds exactly that entry |
| ModelRegistry.SortEntries | web/app/services/model_registry.py:26 | `sorted(d)` yields the dictionary's entries, each once, in ascending key order |
| ModelRegistry.SortSortedIsIdentity | web/app/services/model_registry.py:26 | entries already in key order are left as they are |
| ModelRegistry.StrictlySortedPermutationsEqual | web/app/services/model_registry.py:26 | two strictly key-ordered arrangements of the same entries are identical |
| ModelRegistry.NormalizeConfig | web/app/services/model_registry.py:24-29 | lists keep their length with each item normalised in place, dictionaries keep their size and come out with keys in order, scalars are unchanged |
| ModelRegistry.NormalizeConfigEntries | web/app/services/model_registry.py:24-29 | a normalised dictionary holds exactly the input's entries, each key with its own value normalised (as a multiset), in key order |
| ModelRegistry.NormalizeConfigIsNormal | web/app/services/model_registry.py:24-29 | every dictionary inside the result, at any depth, has its keys in order |
| ModelRegistry.NormalizeConfigFixesNormal | web/app/services/model_registry.py:24-29 | a value already in normal form is unchanged |
| ModelRegistry.NormalizeConfigIdempotent | web/app/services/model_registry.py:24-29 | normalising twice is the same as normalising once |
| ModelRegistry.NormalizeConfigOrderIndependent | web/app/services/model_registry.py:24-29 | two dictionaries with the same entries in any insertion order normalise to the same value |
| ModelRegistry.PathJoin | web/app/services/model_registry.py:63 | joining with an absolute component gives that component; otherwise it is the base, one `/` exactly when the base is non-empty and does not already end with `/`, and the component |
| ModelRegistry.JoinSegment | web/app/services/model_registry.py:63 | a directory without a trailing `/` joined with a single component is `<dir>/<component>`, again without a trailing `/` |
| ModelRegistry.DefaultWorkDir | web/app/services/model_registry.py:32-33 | `DARTS_WORK_DIR` when set, else `/var/lib/app/darts` |
| ModelRegistry.ScopeSlug | web/app/services/model_registry.py:54 | `global` exactly for the `global_shared` scope, `percrypto` otherwise |
| ModelRegistry.FamilySlug | web/app/services/model_registry.py:55 | `blockrnn` exactly for `BlockRNNModel`, `rnn` otherwise |
| ModelRegistry.First8 | web/app/services/model_registry.py:53 | the digest prefix has `min(8, len)` characters and is a prefix of the digest |
| ModelRegistry.ModelName | web/app/services/model_registry.py:58-61 | the name is `crypto_<scope slug>__<family slug>__<lowercased cell type>__h<horizon>__<transform without _>__<first 8 digest characters>` |
| ModelRegistry.ModelNameAffixes | web/app/services/model_registry.py:58-61 | a model name starts with `crypto_<scope slug>__<family slug>__` and ends with `__` and the first 8 digest characters |
| ModelRegistry.ModelNameSeparatesHorizons | web/app/services/model_registry.py:58-61 | two models that differ only in their horizon get different names |
| ModelRegistry.CanonicalModelKey | web/app/services/model_registry.py:36-64 | the working directory is the default one, the name is built from the digest of the serialised payload and is relative, and the artifact path is `os.path.join(work_dir, "artifacts", f"{name}.pt")`, ending in `<name>.pt` |
| ModelRegistry.ArtifactPath | web/app/services/model_registry.py:63 | under a work directory without a trailing `/`, the artifact of a relative model name is `<work>/artifacts/<name>.pt` |
| ModelRegistry.CanonicalModelKeyOrderIndependent | web/app/services/model_registry.py:44-53 | the key does not depend on the insertion order of the hyperparameter dictionary |
| ModelRegistry.CanonicalModelKeyUsesWorkDir | web/app/services/model_registry.py:62 | with `DARTS_WORK_DIR` set, the key's working directory is that value |
| ModelRegistry.LatestModelRunAny | web/app/services/model_registry.py:162-180 | the answer is a matching run with the greatest creation time, and none exactly when no run matches |
| ModelRegistry.RunTable.constructor | web/app/services/model_registry.py:67-101 | the run table starts empty with distinct ids |
| ModelRegistry.RunTable.CreateModelRun | web/app/services/model_registry.py:67-101 | the new run is appended under an id no earlier run has, carrying exactly the given fields |
| ModelRegistry.RunTable.FinalizeModelRun | web/app/services/model_registry.py:104-119 | an unknown id gives `Model run not found` and changes nothing; a known id succeeds, and exactly that run is replaced by its finalised form |
| ModelRegistry.RunTable.FindLatestModelRunAny | web/app/services/model_registry.py:162-180 | the lookup on the current table returns a matching stored run created no earlier than any other matching run, and none exactly when no run matches |
| ModelRegistry.Finalized | web/app/services/model_registry.py:113-116 | only the given artifact path and cutoff date overwrite the run; every other field stays |
| ModelRegistry.FinalizedIdempotent | web/app/services/model_registry.py:113-116 | finalising with nothing given changes nothing, and finalising twice with the same arguments equals once |
| ModelRegistry.ResolveModelClass | web/app/services/model_registry.py:183-186 | the block model class exactly for `BlockRNNModel`, else the single-step class |
| ModelRegistry.CheckpointDirs | web/app/services/model_registry.py:229-234 | the best checkpoint is looked for in exactly two directories (their paths are stated by `CheckpointDirsPaths`) |
| ModelRegistry.CheckpointDirsPaths | web/app/services/model_registry.py:229-234 | under a work directory without a trailing `/` and a single-component model name the two directories are `<work>/<name>/checkpoints` and `<work>/darts_logs/<name>/checkpoints` |
| ModelRegistry.ProbeBestCheckpoint | web/app/services/model_registry.py:227-246 | the probe reports a best checkpoint exactly when the base `_model.pth.tar` file exists and one of the two checkpoint directories exists and lists a `best-` file |
| ModelRegistry.AnyListsBest | web/app/services/model_registry.py:237-245 | the directory loop finds a best checkpoint exactly when some directory exists and lists a name starting with `best-`; missing directories are skipped |
| ModelRegistry.LoadGlobalModel | web/app/services/model_registry.py:213-262 | without the model classes it fails; it loads the best checkpoint only when asked and the probe finds one (and the load succeeds); otherwise it loads the artifact when both the `.pt` and `.ckpt` files exist, else it fails with `Model artifact path missing.`; it succeeds exactly when the classes are available and a checkpoint or a complete artifact loads |
| TrainingSizing.ResolveChunkLengths | web/app/services/global_training.py:111-122 | the output chunk is at least 1 and the input at least 3; for a series of 4 or more the two fit in it, from 6 on the input is at least 5; neither exceeds what was requested (or the floors), and requests that already fit are kept |
| TrainingSizing.ResolveTrainingLength | web/app/services/global_training.py:125-128 | the training length is never below the input chunk, equals `min(training_length, series_len)` whenever that reaches the input chunk, and otherwise is the input chunk |
| TrainingSizing.MinRequiredLength | web/app/services/global_training.py:140-149 | the single-step family needs `max(in, training) + max(1, out)` points, the block family `in + max(1, out)`; both exceed the input chunk |
| TrainingSizing.ResolveValSplit | web/app/services/global_training.py:152-172 | the ratio lies in `[0, 0.5]`; it is 0 for a non-positive request or length, the clamped request when nothing is required, and whenever it is positive with a requirement both the validation part `int(len*r)` and the rest hold at least `min_required` points |
| TrainingSizing.ResolveValSplitKeepsFeasible | web/app/services/global_training.py:152-172 | a request whose two parts already hold `min_required` points each is returned unchanged |
| TrainingSizing.SplitSeriesLengths | web/app/services/global_training.py:175-182 | no split for a non-positive ratio; otherwise the training part keeps `int(len*(1-ratio))` points (at least half), and the validation part is the non-empty rest or none |
| TrainingSizing.ChunkExamples | web/app/services/global_training.py:111-122 | worked values: a long series keeps the requested chunks, series of 40, 6 and 4 points shrink them to (10, 30), (5, 1) and (3, 1) |
| GlobalTraining.PayloadOf | web/app/services/global_training.py:209-223 | an asset enters training exactly when its frame has at least 7 days (6 frame days and 6 returns); its payload then holds at least 6 daily returns and the date of its last price |
| GlobalTraining.AssetPayload | web/app/services/global_training.py:207-223 | one pass of the intake loop yields, when it yields anything, a well-formed payload for the asset it was given |
| GlobalTraining.Intake | web/app/services/global_training.py:206-223 | every collected payload is well formed and belongs to a requested asset; there are at most as many payloads as requested ids |
| GlobalTraining.IntakeKeepsEligible | web/app/services/global_training.py:207-223 | every requested asset that passes the frame and return checks is collected |
| GlobalTraining.IntakeOnlyEligible | web/app/services/global_training.py:207-223 | every collected payload is exactly the one its own asset's price series yields |
| GlobalTraining.CollectPayloads | web/app/services/global_training.py:200-226 | no requested id raises `No crypto ids provided for training.`, an empty intake raises `Not enough data to train a global model.`, otherwise the loop's result is the intake |
| GlobalTraining.ResolveSizing | web/app/services/global_training.py:244-299 | the output chunk is at least 1 (exactly 1 for the single-step family), the input at least 3, the ratio in `[0, 0.5]`; the training length never falls below the input for the single-step family and is the requested one for the block family; `min_required` is recomputed from the final sizes |
| GlobalTraining.ResolveSizingFits | web/app/services/global_training.py:274-292 | once the training part of the shortest series has 4 points or more, the resolved input and output chunks fit in it |
| GlobalTraining.MinSeriesLen | web/app/services/global_training.py:303-305 | the result is the length of one of the series and no series is shorter |
| GlobalTraining.KeepTrainable | web/app/services/global_training.py:313-318 | one pass keeps exactly the assets whose training part has at least 5 points, drawn from its input |
| GlobalTraining.KeepTrainableAll | web/app/services/global_training.py:321-323 | a pass that keeps as many assets as it was given keeps the very same sequence |
| GlobalTraining.KeepTrainableOrdered | web/app/services/global_training.py:313-318 | a pass keeps its assets in their original order |
| GlobalTraining.KeepTrainableLoop | web/app/services/global_training.py:313-318 | the inner for-loop computes the pass |
| GlobalTraining.FilterTrainable | web/app/services/global_training.py:301-324 | the loop either raises `Not enough data` or ends with a non-empty selection of the intake, in its original order, in which every asset keeps at least 5 training points under the sizing computed for the shortest kept series; each continuing pass drops an asset, so the loop ends; for intake payloads it ends on its first pass with every asset kept and never raises |
| GlobalTraining.IntakeAllTrainable | web/app/services/global_training.py:301-324 | sizing for the shortest of a set of intake payloads leaves every one of them at least 5 training points |
| GlobalTraining.TrainableKeepsAll | web/app/services/global_training.py:313-318 | a pass over assets that are all trainable keeps every one of them |
| GlobalTraining.IdsWithin | web/app/services/global_training.py:351 | the used ids are drawn from the requested ids |
| GlobalTraining.Aggregate | web/app/services/global_training.py:326-371 | the used ids are the kept assets' ids in order; the recorded start is the earliest training start, the end the latest training end and the cutoff the latest last-price date over the kept assets (each attained by one asset) |
| GlobalTraining.TrainPartWithinSeries | web/app/services/global_training.py:353-355 | an asset's training part starts no later than it ends, and ends no later than its last price |
| GlobalTraining.SummaryOrdered | web/app/services/global_training.py:353-368 | the recorded dates are ordered: training start no later than training end, no later than the cutoff |
| GlobalTraining.PlanFromIntake | web/app/services/global_training.py:301-371 | filtering then aggregating always succeeds on an intake, plans every intake asset, sized for the shortest, with ordered dates and ids from the request |
| GlobalTraining.PlanTraining | web/app/services/global_training.py:200-371 | up to the fit: `No crypto ids provided for training.` for no ids; otherwise `Not enough data` exactly when the intake is empty, and else a plan of exactly the intake's payloads that holds all the facts above |
| GlobalTraining.UseValidation | web/app/services/global_training.py:490-506 | validation is used exactly when every asset has a validation part of at least `min_required` points, validation covariates are complete whenever training covariates are, and the widths agree |
| GlobalTraining.RecordedValSplit | web/app/services/global_training.py:507-544 | the recorded ratio is either the resolved one or 0; it is non-zero only when a fit with validation succeeded; a rejection with a retry message leads to a fit without validation and a recorded 0, any other rejection propagates |
| PriceFrame.LastAtOrBefore | web/app/services/global_training.py:40-41 | the position found is the last point dated on or before the day |
| PriceFrame.Fill | web/app/services/global_training.py:40-41 | the fill has one row per calendar day from the first point's date to the last one's |
| PriceFrame.FillPrice | web/app/services/global_training.py:41 | each day of the fill carries the price of the last point on or before it |
| PriceFrame.BuildPriceFrame | web/app/services/global_training.py:31-45 | no frame exactly when there are no rows; otherwise a non-empty frame of consecutive calendar days |
| PriceFrame.FillForward | web/app/services/global_training.py:41 | each day of the fill carries the price of the latest point on or before that day |
| PriceFrame.FillKeepsPoint | web/app/services/global_training.py:40 | every point keeps its own price on its own day of the fill |
| PriceFrame.FrameOfSorted | web/app/services/global_training.py:39-41 | the frame is the fill of the same points sorted by date |
| PriceFrame.FrameCoversDays | web/app/services/global_training.py:39-40 | the frame runs from the earliest supplied date to the latest, both of which are supplied days |
| PriceFrame.FrameEndsOnLatest | web/app/services/global_training.py:39-42 | the frame's last row is the latest supplied day with its own price |
| PriceFrame.AscendingSpan | web/app/services/global_training.py:39-40 | strictly increasing dates span at least one day per point |
| PriceFrame.FrameAtLeastRows | web/app/services/global_training.py:40 | with distinct dates the frame has at least as many rows as were supplied |
| PriceFrame.FrameKeepsSuppliedPrices | web/app/services/global_training.py:40-41 | a supplied day sits at its offset in the frame with its own price |
| PriceFrame.FrameFillsForward | web/app/services/global_training.py:41 | a frame day takes the price of the latest supplied day on or before it |
| PriceFrame.ReturnSeries | web/app/services/global_training.py:43-56 | the return series exists exactly when the frame has 2 rows or more; it drops only the first row and each point is the difference of consecutive log prices |
| ForecastStore.Select | web/app/services/rnn.py:227-229 | a record is selected exactly when it belongs to the asset and, with a start date, is dated on or after it |
| ForecastStore.OtherCryptos | web/app/services/rnn.py:188 | the delete keeps exactly the records of other assets |
| ForecastStore.TagAll | web/app/services/rnn.py:190-202 | one record per forecast row, in order, each carrying the row's values, the asset, the cutoff date, the horizon and the model run |
| ForecastStore.FetchForecast | web/app/services/rnn.py:221-240 | the fetch returns the asset's rows from the start date on (all of them without one), and only those, in ascending date order |
| ForecastStore.Newest | web/app/services/rnn.py:249-250 | `ORDER BY created_at DESC LIMIT 1` picks a record with the greatest creation time, and none only from an empty selection |
| ForecastStore.FetchMeta | web/app/services/rnn.py:243-254 | `(None, None)` for an asset without rows, else the cutoff date and horizon of one of its newest rows |
| ForecastStore.ForecastTable.constructor | web/app/models.py:123-142 | a table starts empty, which satisfies its `(crypto_id, date)` uniqueness |
| ForecastStore.ForecastTable.ReplaceCrypto | web/app/services/rnn.py:188-206 | rows with a repeated date fail at commit and leave the table as it was; otherwise the asset's records are replaced by one tagged record per row, other assets' records stay, the constraint still holds and the count of rows is returned |
| ForecastStore.OtherCryptosUnique | web/app/models.py:141 | deleting records keeps the uniqueness constraint |
| ForecastStore.ReplaceKeepsUnique | web/app/models.py:141 | a replace with rows of distinct dates keeps the uniqueness constraint |
| ForecastStore.SelectAppend | web/app/services/rnn.py:227-229 | selecting from a concatenation selects from each part in turn |
| ForecastStore.SelectOtherCryptos | web/app/services/rnn.py:188 | deleting one asset's records does not change what is selected for another asset |
| ForecastStore.ProjectTagAll | web/app/services/rnn.py:190-202 | reading back the records built for a forecast gives the forecast rows |
| ForecastStore.SortStrictlySorted | web/app/services/rnn.py:230 | ordering rows that are already strictly ascending by date leaves them unchanged |
| ForecastStore.ReplaceSelectsNewRows | web/app/services/rnn.py:188-205 | after a replace the asset's records are exactly the new ones, in insertion order |
| ForecastStore.StoreThenFetch | web/app/services/rnn.py:188-240 | a forecast stored in strictly ascending date order is fetched back unchanged |
| ForecastStore.StoreThenMeta | web/app/services/rnn.py:199-200 | after storing a non-empty forecast the meta answer is the stored cutoff date and horizon |
| ForecastStore.ReplaceSelectsSameOthers | web/app/services/rnn.py:188 | a replace for one asset selects the same records as before for every other asset |
| ForecastStore.ReplaceLeavesOthers | web/app/services/rnn.py:188-254 | a replace for one asset leaves every other asset's forecast and meta answers as they were |
| ForecastStore.FetchStrictlyAscending | web/app/services/rnn.py:227-230 | under the uniqueness constraint a fetched forecast has one row per date, strictly ascending |
| ForecastStore.SelectPositions | web/app/models.py:141 | two positions of an asset's selection carry different dates under the constraint |
| GlobalInference.CovariateKwargs | web/app/services/global_inference.py:84-99 | no covariates gives no argument; a model that takes future covariates gets them as future covariates, otherwise one that takes past covariates gets them as past covariates, and a model taking neither gets none |
| GlobalInference.PriceByDate | web/app/services/global_inference.py:193-196 | the price map is keyed by exactly the frame's dates and maps each to a price of that day in the frame |
| GlobalInference.ReturnsByDate | web/app/services/global_inference.py:174-177 | the actual-return map is keyed by exactly the dates of the return series |
| GlobalInference.Residuals | web/app/services/global_inference.py:178-182 | there is at most one residual per historical prediction, none exactly when no prediction falls on a day with an actual return, and each residual is that day's actual return minus a prediction for it |
| GlobalInference.CiWidth | web/app/services/global_inference.py:183-184 | no residuals give a zero band width, and under a lawful standard deviation the width is never negative |
| GlobalInference.BandRowFacts | web/app/services/global_inference.py:208-210 | a row priced from a non-negative previous price and a non-negative width has its lower bound at most its price and its price at most its upper bound; a positive previous price gives a positive price, and a zero predicted return repeats the previous price |
| GlobalInference.HistoricalRows | web/app/services/global_inference.py:197-219 | the historical rows are at most one per prediction, no two share a date, and every row's date is a day that has a price |
| GlobalInference.HistoricalRowsLoop | web/app/services/global_inference.py:197-219 | the loop over historical predictions, with its set of seen dates, produces exactly the historical rows |
| GlobalInference.HistoricalRowSource | web/app/services/global_inference.py:200-219 | each historical row comes from the first prediction dated the day after it and is priced from its own day's price |
| GlobalInference.HistoricalRowsComplete | web/app/services/global_inference.py:200-219 | every prediction whose previous day has a price yields a row for that previous day (skipping only repeats and days without a price) |
| GlobalInference.HistoricalRowsBanded | web/app/services/global_inference.py:200-219 | with positive prices, a lawful exp and a non-negative width every historical row has a positive price inside its band |
| GlobalInference.FutureRows | web/app/services/global_inference.py:221-238 | without a price on the frame's last day there are no future rows; otherwise one row per future prediction, dated the day before it, each with a price |
| GlobalInference.FutureRowsLoop | web/app/services/global_inference.py:221-238 | the loop over future predictions, carrying the previous price, produces exactly the future rows |
| GlobalInference.FutureRowsChained | web/app/services/global_inference.py:222-238 | the first future row is priced from the anchor price and every later one from the price predicted by the row before it |
| GlobalInference.FutureRowsBanded | web/app/services/global_inference.py:221-238 | from a positive anchor, under a lawful exp, every future row has a positive price inside its band |
| GlobalInference.FutureRowsFlat | web/app/services/global_inference.py:221-238 | when every predicted return is zero every future row repeats the anchor price |
| GlobalInference.FrameForecast | web/app/services/global_inference.py:151-240 | the forecast from a frame has at most one row per prediction |
| GlobalInference.GlobalForecast | web/app/services/global_inference.py:142-240 | the forecast has at most one row per prediction and is empty when no prices are supplied |
| GlobalInference.ComputeForecast | web/app/services/global_inference.py:142-240 | `_compute_forecast` returns the specified forecast of the fetched prices |
| GlobalInference.ComputeFrameForecast | web/app/services/global_inference.py:151-240 | the forecast computed from a frame is the specified frame forecast |
| GlobalInference.DailyPriceAt | web/app/services/global_inference.py:193-196 | on a daily frame every day's price is found under its date |
| GlobalInference.FrameForecastParts | web/app/services/global_inference.py:148-240 | on a daily frame of at least 6 days the forecast is the historical rows followed by the future rows anchored on the last day's price, with one non-negative band width |
| GlobalInference.FrameOfRows | web/app/services/global_inference.py:31-56 | the frame of unique-dated prices is daily and ends on the latest supplied day at its supplied price |
| GlobalInference.FrameForecastDatesDistinct | web/app/services/global_inference.py:197-238 | when historical predictions fall up to the last day and future ones strictly after it in increasing order, the forecast has one row per date |
| GlobalInference.ForecastDatesDistinct | web/app/services/global_inference.py:142-240 | the same for the forecast of the supplied prices, so storing it keeps the per-asset date constraint |
| GlobalInference.FrameForecastBanded | web/app/services/global_inference.py:197-238 | on a daily frame of positive prices every forecast row has a positive price inside its band |
| GlobalInference.ForecastBanded | web/app/services/global_inference.py:142-240 | with positive supplied prices every forecast row has a positive price inside its band |
| GlobalInference.ForecastAnchoredOnLastPrice | web/app/services/global_inference.py:221-238 | the future rows are anchored on the price of the latest supplied day |
| GlobalInference.StoreForecastRows | web/app/services/global_inference.py:110-139 | nothing is stored for a non-positive horizon or no rows; otherwise the asset's rows are replaced by one record per row and their number returned, or, for repeated dates, an error with the table unchanged |
| GlobalInference.RunById | web/app/services/global_inference.py:250-252 | the run found has the requested id, and none is found exactly when no run has it |
| GlobalInference.ForecastAndStore | web/app/services/global_inference.py:262-285 | the forecast is returned and, when not empty, stored with the last price's date as cutoff in the GRU table for a GRU run and the LSTM table otherwise, the other table unchanged; it fails exactly when the store refuses a forecast with a positive horizon and a repeated date, and then and for an empty forecast nothing changes |
| GlobalInference.PredictForRun | web/app/services/global_inference.py:258-285 | without Darts or with fewer than 5 prices the result is empty; otherwise a model that does not load gives `Model artifact path missing.`, and a model that loads gives the forecast of the fetched prices, unless the store refuses it for a repeated date, which is an error; a non-empty result is stored in the table of the run's cell type; an error or an empty result changes no table |
| GlobalInference.PredictWithGlobalModel | web/app/services/global_inference.py:243-285 | an unknown run gives "Model run not found.", an asset outside the training set (unless allowed) "Crypto not part of the training set."; for an admitted asset, with the run's horizon as the default, the outcome is exactly the one described for the run above (empty, load error, store error or the stored forecast); an error or an empty result changes no table |
| Rnn.InputChunk | web/app/services/rnn.py:80-85 | the input chunk is between 3 and 30; from 4 points on it leaves room for the one-step output chunk; it is 3 for up to 3 points, all but one point for 4 or 5, 5 up to 23 points, a quarter of the series up to 123 and 30 beyond |
| Rnn.PredictionsByDate | web/app/services/rnn.py:150-154 | the dictionary filled from prediction pairs is keyed by exactly the predicted dates |
| Rnn.PredictionsByDateLastWins | web/app/services/rnn.py:150-154 | the value kept for a date is that of the last pair with that date |
| Rnn.ForecastMap | web/app/services/rnn.py:150-154 | `forecast_map` holds the dates of both prediction lists; a future prediction overrides the historical one for its date, and a date without one keeps its historical prediction |
| Rnn.FillForecastMap | web/app/services/rnn.py:150-154 | the two filling loops produce exactly the specified `forecast_map` |
| Rnn.SortedDates | web/app/services/rnn.py:157 | `sorted(forecast_map)` lists exactly the map's dates in strictly ascending order |
| Rnn.MapRows | web/app/services/rnn.py:157-168 | one row per listed date, in order, each carrying that date's prediction and its band |
| Rnn.ActualByDate | web/app/services/rnn.py:137 | `actual_by_date` is keyed by exactly the input rows' dates |
| Rnn.ActualByDateOfUnique | web/app/services/rnn.py:137 | with one row per date, the actual price of a row's date is its own price |
| Rnn.RnnWidth | web/app/services/rnn.py:137-144 | the band width is never negative under a lawful standard deviation and is zero when no historical prediction falls on an input date |
| Rnn.RnnRows | web/app/services/rnn.py:150-168 | the forecast rows are in strictly ascending date order |
| Rnn.RnnForecast | web/app/services/rnn.py:104-170 | without Darts, with a non-positive horizon or with fewer than 5 rows the forecast is empty; otherwise it is the rows of the prediction map with the residuals' band width |
| Rnn.RnnRowsCoverDates | web/app/services/rnn.py:150-168 | there is a row for a date exactly when the model predicted that date, historically or in the future |
| Rnn.RnnRowsValues | web/app/services/rnn.py:150-168 | each row carries the last future prediction for its date when there is one, else the last historical one, with the band from the prediction minus to plus the width |
| Rnn.RnnRowsBanded | web/app/services/rnn.py:158-168 | with a non-negative width every row lies inside its band |
| Rnn.BuildRnnRows | web/app/services/rnn.py:150-168 | the loops that fill `forecast_map` and turn it into rows produce exactly the specified rows |
| Rnn.ComputeRnnForecast | web/app/services/rnn.py:104-170 | `_compute_forecast` returns the specified forecast |
| Rnn.StoreRnnForecast | web/app/services/rnn.py:173-218 | nothing is stored for a non-positive horizon, fewer than 5 rows or an empty forecast; otherwise the asset's rows are replaced by the forecast, tagged with the last input row's date as cutoff, and their number returned |
| Rnn.DistinctOfStrictlySorted | web/app/services/rnn.py:157 | rows in strictly ascending date order repeat no date, so a forecast never breaks the per-asset date constraint |
| Rnn.StoredRnnReadsBack | web/app/services/rnn.py:221-254 | after a store that wrote rows, fetching without a start date reads back exactly the forecast, and the metadata read is the store's cutoff and horizon |
| Prophet.StoreProphetForecast | web/app/services/prophet.py:19-53 | nothing is stored for a non-positive horizon, fewer than 2 price rows or an empty forecast; a forecast repeating a date fails with the table unchanged; otherwise the asset's rows are replaced by the forecast, tagged with the last price row's date as cutoff, and their number returned |
| Prophet.StoredProphetReadsBack | web/app/services/prophet.py:19-85 | after a store that wrote rows, fetching without a start date reads back the forecast's rows in date order, and the metadata read is the store's cutoff and horizon |
| Common.SortByKey | web/app/services/rnn.py:230 | ordering by ascending date gives a sorted permutation of the rows |

## Left out

- Darts, PyTorch and pandas internals are not modelled. This covers model construction, `fit`, `predict`, `historical_forecasts`, saving and `load_weights`, the `Scaler`, and `_extract_points`. Their outputs are parameters.
- The sin/cos calendar covariates of `_build_covariates` are not modelled. Only whether covariates exist enters `CovariateKwargs`.
- `forecast_horizon` and the `getattr` of `input_chunk_length` in `_compute_forecast` only configure the forecaster, so they are not modelled.
- `exp`, `ln` and the standard deviation are abstract. The proofs use only the `Lawful` facts. Log returns assume positive prices.
- Floating point is modelled as exact reals. This covers the float rounding of the validation-split check, `_to_decimal` when forecasts are stored, and the `float(...)` config delays. Those delays are not modelled.
- The Prophet forecaster, `compute_prophet_forecast`, is not part of this model. Its rows are an input, with their ISO dates already parsed.
- `split_before` is a Darts call. The training part of a split is modelled as `floor(len * (1 - r))`.
- Threads and the job lock are not modelled. Each locked block is one atomic step of `Jobs.JobTable`, and the worker thread's run is a separate `RunJob` call.
- The `_now_iso` timestamps and `created_at` are not modelled. `created_at` is a given integer.
- Database sessions, commit and refresh are not modelled. A failed commit on the unique (crypto_id, date) constraint is an `Err` that leaves the table unchanged.
- `ForecastStore.FetchMeta`: when several rows share the newest `created_at`, SQL may return any of them. The model picks one newest row, so it does not fix which.
- Filesystem side effects are not modelled. `os.makedirs` and file writes are left out, and the files present are a given set.
- The hyperparameter `int()` parsing of `train_global_model` is not modelled, and the hyperparameters are given already normalised.
- The warm start and the `update_run` overrides that rewrite a run's fields during retraining are not modelled.
- `_val_covariate_kwargs`, `_series_width` and the covariate split are not modelled.
- The "Darts not available" `RuntimeError` of `train_global_model` is not modelled.
- `find_latest_model_run` with its hyperparameter filter is not modelled, and neither is `load_weights_from_checkpoint`.
- The `model_type` string passed to `_compute_forecast` in web/app/services/rnn.py only selects the cell, so it is not modelled.
- The Flask glue is not modelled: `require_login`, `login_required`, page rendering, `_redirect_with_days` and the worker closures that the chart routes hand to `start_job`.
- Some call sites pass arguments their callee does not accept (web/app/routes/charts.py:249-256 against web/app/services/rnn.py:209-212). Each function is modelled by its own definition.
- Input prices are assumed to have one row per asset and date, as the prices table's unique constraint guarantees (`UniqueCryptoDate`, `KeysUnique`).
- Python `int()` accepts only an optional sign and ASCII digits here, not whitespace or underscores.
- `isdigit`, `\d`, `\s`, `str.strip` and `str.lower` are ASCII only: non-ASCII whitespace is not stripped and non-ASCII letters are not lowercased.
- The regex `$` of `validate_email` would also match before a final newline. This is not modelled.
- `Config.NormalizeBaseUrl` is not idempotent (`"a /"` becomes `"a "`, which becomes `"a"`), so idempotence is not claimed.
- Network clients, updaters, the scheduler, the dashboard percentages and analytics.py are not part of this model.
