/** The per-asset recurrent forecasts of web/app/services/rnn.py: the
    input window of `_train_rnn`, the rows `_compute_forecast` builds from
    the model's historical and future predictions (one row per date,
    future over historical, a band of 1.96 residual standard deviations),
    and the guarded replace-store of `_store_forecast` into the LSTM or GRU
    table. The network, the scaler and the covariates are not modelled:
    the model's predictions, already scaled back, are inputs. */
module Rnn {
  import opened Common
  import opened Series
  import opened Numerics
  import opened PriceFrame
  import opened ForecastStore
  import opened GlobalInference

  // ---------------------------------------------------------------------
  // Window sizing

  /** `output_chunk` of `_train_rnn`: the model predicts one step. */
  const OutputChunk: int := 1

  /** `input_chunk` of `_train_rnn`: a quarter of the series kept between
      5 and 30, cut back to the series less one step when the input window
      and the output step do not fit, but never below 3. */
  function InputChunk(seriesLen: nat): (c: int)
    ensures 3 <= c <= 30
    ensures seriesLen >= 4 ==> c + OutputChunk <= seriesLen
    ensures seriesLen <= 3 ==> c == 3
    ensures 4 <= seriesLen <= 5 ==> c == seriesLen - OutputChunk
    ensures 6 <= seriesLen < 24 ==> c == 5
    ensures 24 <= seriesLen < 124 ==> c == seriesLen / 4
    ensures seriesLen >= 124 ==> c == 30
  {
    var c := Max(5, Min(30, seriesLen / 4));
    if c + OutputChunk > seriesLen then Max(3, seriesLen - OutputChunk) else c
  }

  // ---------------------------------------------------------------------
  // The forecast map

  /** A dictionary filled from `(date, prediction)` pairs in order. */
  function PredictionsByDate(points: seq<Prediction>): (r: map<Date, real>)
    ensures forall d :: d in r <==> exists k :: 0 <= k < |points| && points[k].date == d
  {
    if points == [] then map[]
    else
      var init := points[..|points| - 1];
      var p := points[|points| - 1];
      assert forall k :: 0 <= k < |init| ==> init[k] == points[k];
      PredictionsByDate(init)[p.date := p.value]
  }

  /** A later pair overwrites an earlier one: the value kept for a date is
      that of the last pair with the date. */
  lemma {:induction false} PredictionsByDateLastWins(points: seq<Prediction>, d: Date) returns (k: int)
    requires d in PredictionsByDate(points)
    ensures 0 <= k < |points| && points[k].date == d && PredictionsByDate(points)[d] == points[k].value
    ensures forall j :: k < j < |points| ==> points[j].date != d
  {
    var init := points[..|points| - 1];
    var p := points[|points| - 1];
    if p.date == d {
      k := |points| - 1;
    } else {
      assert PredictionsByDate(points) == PredictionsByDate(init)[p.date := p.value];
      k := PredictionsByDateLastWins(init, d);
      assert points[k] == init[k];
      assert forall j :: k < j < |init| ==> points[j] == init[j];
    }
  }

  /** `forecast_map`: the historical predictions, then the future ones
      written over them. */
  function ForecastMap(hist: seq<Prediction>, future: seq<Prediction>): (r: map<Date, real>)
    ensures forall d :: d in r <==> d in PredictionsByDate(hist) || d in PredictionsByDate(future)
    ensures forall d :: d in PredictionsByDate(future) ==> r[d] == PredictionsByDate(future)[d]
    ensures forall d :: d in r && d !in PredictionsByDate(future) ==> r[d] == PredictionsByDate(hist)[d]
  {
    PredictionsByDate(hist) + PredictionsByDate(future)
  }

  /** The two loops that fill `forecast_map`. */
  method FillForecastMap(hist: seq<Prediction>, future: seq<Prediction>) returns (fm: map<Date, real>)
    ensures fm == ForecastMap(hist, future)
  {
    fm := map[];
    for i := 0 to |hist|
      invariant fm == PredictionsByDate(hist[..i])
    {
      assert hist[..i + 1][..i] == hist[..i];
      fm := fm[hist[i].date := hist[i].value];
    }
    assert hist[..|hist|] == hist;
    for j := 0 to |future|
      invariant fm == PredictionsByDate(hist) + PredictionsByDate(future[..j])
    {
      assert future[..j + 1][..j] == future[..j];
      OverwriteUnion(PredictionsByDate(hist), PredictionsByDate(future[..j]), future[j].date, future[j].value);
      fm := fm[future[j].date := future[j].value];
    }
    assert future[..|future|] == future;
  }

  /** Writing a key over a union is writing it over the right operand. */
  lemma OverwriteUnion(a: map<Date, real>, b: map<Date, real>, d: Date, v: real)
    ensures (a + b)[d := v] == a + b[d := v]
  {
  }

  // ---------------------------------------------------------------------
  // Sorted dates

  /** `sorted(forecast_map)`: the keys in ascending order. */
  function SortedDates(s: set<Date>): (r: seq<Date>)
    ensures forall d :: d in r <==> d in s
    ensures forall i, j :: 0 <= i < j < |r| ==> r[i] < r[j]
    decreases s
  {
    if forall d | d in s :: false then []
    else
      var m := Least(s);
      [m] + SortedDates(s - {m})
  }

  // ---------------------------------------------------------------------
  // Rows

  /** The row `_compute_forecast` builds for a date and its prediction. */
  function RnnRow(date: Date, prediction: real, w: real): ForecastRow
  {
    ForecastRow(date, Some(prediction), Some(prediction - w), Some(prediction + w))
  }

  /** One row per date, in the order of `dates`. */
  function MapRows(dates: seq<Date>, fm: map<Date, real>, w: real): (r: seq<ForecastRow>)
    requires forall d :: d in dates ==> d in fm
    ensures |r| == |dates|
    ensures forall i :: 0 <= i < |r| ==> r[i] == RnnRow(dates[i], fm[dates[i]], w)
  {
    if dates == [] then []
    else
      var init := dates[..|dates| - 1];
      assert forall i :: 0 <= i < |init| ==> init[i] == dates[i];
      MapRows(init, fm, w) + [RnnRow(dates[|dates| - 1], fm[dates[|dates| - 1]], w)]
  }

  lemma MapRowsSnoc(dates: seq<Date>, fm: map<Date, real>, w: real, i: int)
    requires forall d :: d in dates ==> d in fm
    requires 0 <= i < |dates|
    ensures MapRows(dates[..i + 1], fm, w) == MapRows(dates[..i], fm, w) + [RnnRow(dates[i], fm[dates[i]], w)]
  {
    assert dates[..i + 1][..i] == dates[..i];
  }

  /** `actual_by_date`: each input row's price under its date. */
  function ActualByDate(rows: seq<PricePoint>): (r: map<Date, real>)
    ensures forall d :: d in r <==> exists k :: 0 <= k < |rows| && rows[k].date == d
  {
    if rows == [] then map[]
    else
      var init := rows[..|rows| - 1];
      var p := rows[|rows| - 1];
      assert forall k :: 0 <= k < |init| ==> init[k] == rows[k];
      ActualByDate(init)[p.date := p.price]
  }

  /** With one row per date, the actual price of a row's date is its own. */
  lemma {:induction false} ActualByDateOfUnique(rows: seq<PricePoint>, k: int)
    requires KeysUnique(rows, PointDate) && 0 <= k < |rows|
    ensures ActualByDate(rows)[rows[k].date] == rows[k].price
  {
    var init := rows[..|rows| - 1];
    var p := rows[|rows| - 1];
    assert ActualByDate(rows) == ActualByDate(init)[p.date := p.price];
    if k < |rows| - 1 {
      assert PointDate(rows[k]) != PointDate(rows[|rows| - 1]);
      assert KeysUnique(init, PointDate) by {
        forall i, j | 0 <= i < j < |init| ensures PointDate(init[i]) != PointDate(init[j]) {
          assert init[i] == rows[i] && init[j] == rows[j];
        }
      }
      ActualByDateOfUnique(init, k);
      assert init[k] == rows[k];
    }
  }

  /** The band width of a forecast: 1.96 standard deviations of the
      residuals of the historical predictions against the input prices. */
  function RnnWidth(rows: seq<PricePoint>, hist: seq<Prediction>, m: Primitives): (w: real)
    ensures Lawful(m) ==> w >= 0.0
    ensures (forall k :: 0 <= k < |hist| ==> hist[k].date !in ActualByDate(rows)) ==> w == 0.0
  {
    CiWidth(Residuals(hist, ActualByDate(rows)), m)
  }

  /** The rows of a prediction map: one per date, in ascending date
      order, each with the band `± w`. */
  function RowsOfMap(fm: map<Date, real>, w: real): (r: seq<ForecastRow>)
    ensures StrictlySortedBy(r, RowDate)
  {
    var r := MapRows(SortedDates(fm.Keys), fm, w);
    assert forall i, j :: 0 <= i < j < |r| ==> RowDate(r[i]) < RowDate(r[j]);
    r
  }

  /** Each row of a prediction map is the row of one of its dates. */
  lemma RowsOfMapAt(fm: map<Date, real>, w: real, i: int) returns (d: Date)
    requires 0 <= i < |RowsOfMap(fm, w)|
    ensures d in fm && RowsOfMap(fm, w)[i] == RnnRow(d, fm[d], w)
  {
    var dates := SortedDates(fm.Keys);
    assert RowsOfMap(fm, w) == MapRows(dates, fm, w);
    d := dates[i];
  }

  /** The rows `_compute_forecast` builds once its guards pass: the rows
      of `forecast_map`. */
  function RnnRows(hist: seq<Prediction>, future: seq<Prediction>, w: real): (r: seq<ForecastRow>)
    ensures StrictlySortedBy(r, RowDate)
  {
    RowsOfMap(ForecastMap(hist, future), w)
  }

  /** `_compute_forecast`. `dartsAvailable` says whether Darts could be
      imported; `hist` and `future` are the trained model's historical
      one-step predictions and its forecast, scaled back to prices.
      Nothing without Darts, for a non-positive horizon, fewer than 5 rows
      or a daily series of fewer than 5 days; otherwise the rows of
      `RnnRows` with the band width of `RnnWidth`. The daily series is
      never shorter than the rows, so its guard never cuts anything the
      row guard lets through. */
  function RnnForecast(rows: seq<PricePoint>, horizonDays: int, dartsAvailable: bool,
                       hist: seq<Prediction>, future: seq<Prediction>, m: Primitives): (r: seq<ForecastRow>)
    requires KeysUnique(rows, PointDate)
    ensures !dartsAvailable || horizonDays <= 0 || |rows| < 5 ==> r == []
    ensures dartsAvailable && horizonDays > 0 && |rows| >= 5 ==> r == RnnRows(hist, future, RnnWidth(rows, hist, m))
  {
    if !dartsAvailable || horizonDays <= 0 || |rows| < 5 then []
    else
      FrameAtLeastRows(rows);
      if |BuildPriceFrame(rows).value| < 5 then [] else RnnRows(hist, future, RnnWidth(rows, hist, m))
  }

  /** There is a row for exactly the dates the model predicted, historical
      or future. */
  lemma {:induction false} RnnRowsCoverDates(hist: seq<Prediction>, future: seq<Prediction>, w: real, d: Date)
    ensures var r := RnnRows(hist, future, w);
            (exists i :: 0 <= i < |r| && r[i].date == d)
            <==> (exists k :: 0 <= k < |hist| && hist[k].date == d)
                  || (exists k :: 0 <= k < |future| && future[k].date == d)
  {
    var fm := ForecastMap(hist, future);
    var dates := SortedDates(fm.Keys);
    var r := MapRows(dates, fm, w);
    assert RnnRows(hist, future, w) == r;
    if d in fm {
      var i :| 0 <= i < |dates| && dates[i] == d;
      assert r[i].date == d;
    }
  }

  /** Every row carries the last future prediction for its date when the
      model forecast that date, else the last historical one, with the
      band `yhat - w` .. `yhat + w`. */
  lemma {:induction false} RnnRowsValues(hist: seq<Prediction>, future: seq<Prediction>, w: real, i: int)
    requires 0 <= i < |RnnRows(hist, future, w)|
    ensures var row := RnnRows(hist, future, w)[i];
            row.yhat.Some?
            && (row.date in PredictionsByDate(future) ==> row.yhat.value == PredictionsByDate(future)[row.date])
            && (row.date !in PredictionsByDate(future) ==> row.yhat.value == PredictionsByDate(hist)[row.date])
            && row == RnnRow(row.date, row.yhat.value, w)
  {
    var d, v := RnnRowsAt(hist, future, w, i);
  }

  /** Each row is the row of one date of `forecast_map`, with the
      prediction the map keeps for it. */
  lemma {:induction false} RnnRowsAt(hist: seq<Prediction>, future: seq<Prediction>, w: real, i: int) returns (d: Date, v: real)
    requires 0 <= i < |RnnRows(hist, future, w)|
    ensures RnnRows(hist, future, w)[i] == RnnRow(d, v, w)
    ensures d in PredictionsByDate(future) ==> v == PredictionsByDate(future)[d]
    ensures d !in PredictionsByDate(future) ==> d in PredictionsByDate(hist) && v == PredictionsByDate(hist)[d]
  {
    var fm := ForecastMap(hist, future);
    d := RowsOfMapAt(fm, w, i);
    v := fm[d];
    ForecastMapAt(hist, future, d);
  }

  /** The prediction `forecast_map` keeps for one of its dates. */
  lemma {:induction false} ForecastMapAt(hist: seq<Prediction>, future: seq<Prediction>, d: Date)
    requires d in ForecastMap(hist, future)
    ensures d in PredictionsByDate(future) ==> ForecastMap(hist, future)[d] == PredictionsByDate(future)[d]
    ensures d !in PredictionsByDate(future) ==> ForecastMap(hist, future)[d] == PredictionsByDate(hist)[d]
  {
  }

  lemma RnnRowBand(date: Date, prediction: real, w: real)
    ensures var row := RnnRow(date, prediction, w);
            row.yhat == Some(prediction) && row.yhatLower == Some(prediction - w) && row.yhatUpper == Some(prediction + w)
  {
  }

  /** With a non-negative width every row's band encloses it. */
  lemma RnnRowsBanded(hist: seq<Prediction>, future: seq<Prediction>, w: real)
    requires w >= 0.0
    ensures forall row :: row in RnnRows(hist, future, w) ==> Banded(row)
  {
    var r := RnnRows(hist, future, w);
    forall row | row in r ensures Banded(row) {
      var i :| 0 <= i < |r| && r[i] == row;
      RnnRowsValues(hist, future, w, i);
      RnnRowBand(row.date, row.yhat.value, w);
    }
  }

  /** The loops of `_compute_forecast` that fill `forecast_map` and turn it
      into rows. */
  method BuildRnnRows(hist: seq<Prediction>, future: seq<Prediction>, w: real) returns (r: seq<ForecastRow>)
    ensures r == RnnRows(hist, future, w)
  {
    var fm := FillForecastMap(hist, future);
    var dates := SortedDates(fm.Keys);
    r := [];
    for i := 0 to |dates|
      invariant r == MapRows(dates[..i], fm, w)
    {
      MapRowsSnoc(dates, fm, w, i);
      r := r + [RnnRow(dates[i], fm[dates[i]], w)];
    }
    assert dates[..|dates|] == dates;
  }

  /** `_compute_forecast` with its guards. */
  method ComputeRnnForecast(rows: seq<PricePoint>, horizonDays: int, dartsAvailable: bool,
                            hist: seq<Prediction>, future: seq<Prediction>, m: Primitives)
    returns (r: seq<ForecastRow>)
    requires KeysUnique(rows, PointDate)
    ensures r == RnnForecast(rows, horizonDays, dartsAvailable, hist, future, m)
  {
    if !dartsAvailable || horizonDays <= 0 || |rows| < 5 {
      return [];
    }
    var series := BuildPriceFrame(rows).value;
    FrameAtLeastRows(rows);
    if |series| < 5 {
      return [];
    }
    var w := RnnWidth(rows, hist, m);
    r := BuildRnnRows(hist, future, w);
  }

  // ---------------------------------------------------------------------
  // Storing

  /** `_store_forecast` (and `store_lstm_forecast`, `store_gru_forecast`,
      which pass the LSTM or the GRU table): nothing for a non-positive
      horizon, fewer than 5 rows or an empty forecast; otherwise the
      asset's rows are replaced by the forecast, tagged with the last
      input row's date as cutoff, and their number is returned. */
  method StoreRnnForecast(table: ForecastTable, cryptoId: int, rows: seq<PricePoint>, horizonDays: int,
                          dartsAvailable: bool, hist: seq<Prediction>, future: seq<Prediction>,
                          m: Primitives, now: int) returns (n: nat)
    requires table.Valid() && KeysUnique(rows, PointDate)
    modifies table
    ensures table.Valid()
    ensures horizonDays <= 0 || |rows| < 5 ==> n == 0 && table.records == old(table.records)
    ensures horizonDays > 0 && |rows| >= 5 ==>
              var forecast := RnnForecast(rows, horizonDays, dartsAvailable, hist, future, m);
              n == |forecast|
              && table.records == AfterStore(old(table.records), cryptoId, forecast, rows[|rows| - 1].date,
                                             horizonDays, None, now)
  {
    if horizonDays <= 0 || |rows| < 5 {
      return 0;
    }
    var cutoffDate := rows[|rows| - 1].date;
    var forecast := ComputeRnnForecast(rows, horizonDays, dartsAvailable, hist, future, m);
    if forecast == [] {
      return 0;
    }
    DistinctOfStrictlySorted(forecast);
    var stored := table.ReplaceCrypto(cryptoId, forecast, cutoffDate, horizonDays, None, now);
    n := stored.value;
  }

  /** Rows in strictly ascending date order repeat no date. */
  lemma DistinctOfStrictlySorted(rows: seq<ForecastRow>)
    requires StrictlySortedBy(rows, RowDate)
    ensures RowDatesDistinct(rows)
  {
    forall i, j | 0 <= i < j < |rows| ensures rows[i].date != rows[j].date {
      assert RowDate(rows[i]) < RowDate(rows[j]);
    }
  }

  /** After a store that wrote rows, `_fetch_forecast` without a start date
      reads back exactly the forecast and `_fetch_meta` the cutoff and
      horizon of the store. */
  lemma StoredRnnReadsBack(records: seq<StoredForecast>, cryptoId: int, rows: seq<PricePoint>, horizonDays: int,
                           dartsAvailable: bool, hist: seq<Prediction>, future: seq<Prediction>,
                           m: Primitives, now: int)
    requires KeysUnique(rows, PointDate) && horizonDays > 0 && |rows| >= 5
    requires RnnForecast(rows, horizonDays, dartsAvailable, hist, future, m) != []
    ensures var forecast := RnnForecast(rows, horizonDays, dartsAvailable, hist, future, m);
            var after := AfterStore(records, cryptoId, forecast, rows[|rows| - 1].date, horizonDays, None, now);
            FetchForecast(after, cryptoId, None) == forecast
            && FetchMeta(after, cryptoId) == (Some(rows[|rows| - 1].date), Some(horizonDays))
  {
    var forecast := RnnForecast(rows, horizonDays, dartsAvailable, hist, future, m);
    StoreThenFetch(records, cryptoId, forecast, rows[|rows| - 1].date, horizonDays, None, now);
    StoreThenMeta(records, cryptoId, forecast, rows[|rows| - 1].date, horizonDays, None, now);
  }
}
