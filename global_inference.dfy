/** The forecasting side of the shared (global) models,
    web/app/services/global_inference.py: which covariate argument a model
    takes, the rows built from the model's historical and future
    predictions of daily log returns, and the guarded replace-store into
    the LSTM or GRU forecast table. The trained model is not modelled: its
    predictions are inputs. */
module GlobalInference {
  import opened Common
  import opened Series
  import opened Numerics
  import opened PriceFrame
  import opened ForecastStore
  import opened ModelRegistry

  // ---------------------------------------------------------------------
  // Covariates

  datatype CovariateArg = FutureCovariates | PastCovariates

  /** `_covariate_kwargs`: the one keyword argument the covariates are
      passed under, or none. */
  function CovariateKwargs(hasCovariates: bool, supportsFuture: bool, supportsPast: bool): (r: Option<CovariateArg>)
    ensures !hasCovariates ==> r == None
    ensures hasCovariates && supportsFuture ==> r == Some(FutureCovariates)
    ensures hasCovariates && !supportsFuture && supportsPast ==> r == Some(PastCovariates)
    ensures !supportsFuture && !supportsPast ==> r == None
  {
    if !hasCovariates then None
    else if supportsFuture && !supportsPast then Some(FutureCovariates)
    else if supportsPast && !supportsFuture then Some(PastCovariates)
    else if supportsFuture then Some(FutureCovariates)
    else if supportsPast then Some(PastCovariates)
    else None
  }

  // ---------------------------------------------------------------------
  // Residuals and the band width

  /** One `(date, value)` pair of `_extract_points`: a predicted log
      return for a day. */
  datatype Prediction = Prediction(date: Date, value: real)

  /** The dictionaries `price_by_date` and `actual_returns`: a later row
      overwrites an earlier one with the same date. */
  function PriceByDate(frame: seq<FrameRow>): (r: map<Date, real>)
    ensures forall d :: d in r <==> exists k :: 0 <= k < |frame| && frame[k].date == d
    ensures forall d :: d in r ==> exists k :: 0 <= k < |frame| && frame[k].date == d && r[d] == frame[k].price
  {
    if frame == [] then map[]
    else
      var init := frame[..|frame| - 1];
      var x := frame[|frame| - 1];
      assert forall k :: 0 <= k < |init| ==> init[k] == frame[k];
      PriceByDate(init)[x.date := x.price]
  }

  function ReturnsByDate(series: seq<ReturnPoint>): (r: map<Date, real>)
    ensures forall d :: d in r <==> exists k :: 0 <= k < |series| && series[k].date == d
  {
    if series == [] then map[]
    else
      var init := series[..|series| - 1];
      var x := series[|series| - 1];
      assert forall k :: 0 <= k < |init| ==> init[k] == series[k];
      ReturnsByDate(init)[x.date := x.value]
  }

  /** The residuals `actual - prediction` of the historical predictions
      dated on a day with an actual return, in prediction order. */
  function Residuals(points: seq<Prediction>, actual: map<Date, real>): (r: seq<real>)
    ensures |r| <= |points|
    ensures r == [] <==> forall k :: 0 <= k < |points| ==> points[k].date !in actual
    ensures forall x :: x in r ==>
              exists k :: 0 <= k < |points| && points[k].date in actual && x == actual[points[k].date] - points[k].value
  {
    if points == [] then []
    else
      var init := points[..|points| - 1];
      var p := points[|points| - 1];
      assert forall k :: 0 <= k < |init| ==> init[k] == points[k];
      Residuals(init, actual) + (if p.date in actual then [actual[p.date] - p.value] else [])
  }

  /** `ci_width`: 1.96 standard deviations of the residuals, 0 without
      residuals. */
  function CiWidth(residuals: seq<real>, m: Primitives): (w: real)
    ensures residuals == [] ==> w == 0.0
    ensures Lawful(m) ==> w >= 0.0
  {
    if residuals == [] then 0.0 else 1.96 * m.std(residuals)
  }

  // ---------------------------------------------------------------------
  // One forecast row

  /** A row anchored on the price `prev`: the predicted return `p` turned
      into a price, with the band `p - w` .. `p + w`. */
  function BandRow(date: Date, prev: real, p: real, w: real, m: Primitives): ForecastRow
  {
    ForecastRow(date, Some(prev * m.exp(p)), Some(prev * m.exp(p - w)), Some(prev * m.exp(p + w)))
  }

  /** A row whose band encloses its price. */
  predicate Banded(row: ForecastRow)
  {
    row.yhat.Some? && row.yhatLower.Some? && row.yhatUpper.Some?
    && row.yhatLower.value <= row.yhat.value <= row.yhatUpper.value
  }

  lemma ScaleMonotone(c: real, a: real, b: real)
    requires c >= 0.0 && a <= b
    ensures c * a <= c * b
  {
    assert c * b - c * a == c * (b - a);
  }

  /** With a lawful `exp`, a non-negative anchor and a non-negative width
      the band encloses the price, a positive anchor gives a positive
      price, and a zero prediction keeps the anchor. */
  lemma BandRowFacts(date: Date, prev: real, p: real, w: real, m: Primitives)
    requires Lawful(m) && prev >= 0.0 && w >= 0.0
    ensures Banded(BandRow(date, prev, p, w, m))
    ensures prev > 0.0 ==> BandRow(date, prev, p, w, m).yhat.value > 0.0
    ensures p == 0.0 ==> BandRow(date, prev, p, w, m).yhat == Some(prev)
  {
    assert m.exp(p - w) <= m.exp(p) <= m.exp(p + w);
    ScaleMonotone(prev, m.exp(p - w), m.exp(p));
    ScaleMonotone(prev, m.exp(p), m.exp(p + w));
    if prev > 0.0 {
      assert m.exp(p) > 0.0;
    }
  }

  // ---------------------------------------------------------------------
  // Rows from the historical predictions

  function Dates(rows: seq<ForecastRow>): set<Date>
  {
    set row | row in rows :: row.date
  }

  /** The rows of the historical loop: each prediction dated `d` gives a
      row dated `d - 1` anchored on that day's price; it is skipped when
      the day has no price or already has a row. */
  function HistoricalRows(points: seq<Prediction>, prices: map<Date, real>, w: real, m: Primitives): (r: seq<ForecastRow>)
    ensures |r| <= |points|
    ensures RowDatesDistinct(r)
    ensures forall k :: 0 <= k < |r| ==> r[k].date in prices
  {
    if points == [] then []
    else
      var init := HistoricalRows(points[..|points| - 1], prices, w, m);
      var p := points[|points| - 1];
      var d := p.date - 1;
      if d in Dates(init) || d !in prices then init
      else
        assert forall k :: 0 <= k < |init| ==> init[k] in init;
        init + [BandRow(d, prices[d], p.value, w, m)]
  }

  lemma DatesSnoc(rows: seq<ForecastRow>, row: ForecastRow)
    ensures Dates(rows + [row]) == Dates(rows) + {row.date}
  {
    assert forall x :: x in rows + [row] <==> x in rows || x == row;
  }

  /** The historical loop of `_compute_forecast`, with its `seen_dates`
      set. */
  method HistoricalRowsLoop(points: seq<Prediction>, prices: map<Date, real>, w: real, m: Primitives)
    returns (rows: seq<ForecastRow>)
    ensures rows == HistoricalRows(points, prices, w, m)
  {
    rows := [];
    var seen: set<Date> := {};
    for i := 0 to |points|
      invariant rows == HistoricalRows(points[..i], prices, w, m)
      invariant seen == Dates(rows)
    {
      HistoricalRowsStep(points, prices, w, m, i);
      var outputDate := points[i].date - 1;
      if outputDate !in seen && outputDate in prices {
        var row := BandRow(outputDate, prices[outputDate], points[i].value, w, m);
        DatesSnoc(rows, row);
        rows := rows + [row];
        seen := seen + {outputDate};
      }
    }
    assert points[..|points|] == points;
  }

  /** One more step of the historical loop. */
  lemma HistoricalRowsStep(points: seq<Prediction>, prices: map<Date, real>, w: real, m: Primitives, i: int)
    requires 0 <= i < |points|
    ensures var before := HistoricalRows(points[..i], prices, w, m);
            var d := points[i].date - 1;
            HistoricalRows(points[..i + 1], prices, w, m)
            == if d in Dates(before) || d !in prices then before
               else before + [BandRow(d, prices[d], points[i].value, w, m)]
  {
    var prefix := points[..i + 1];
    assert |prefix| - 1 == i;
    assert prefix[..i] == points[..i];
    assert prefix[i] == points[i];
    HistoricalRowsSnoc(prefix, prices, w, m);
  }

  /** Every historical row comes from the first prediction dated the day
      after it, anchored on the price of its own day. */
  lemma {:induction false} HistoricalRowSource(points: seq<Prediction>, prices: map<Date, real>, w: real,
                                               m: Primitives, k: int) returns (i: int)
    requires 0 <= k < |HistoricalRows(points, prices, w, m)|
    ensures 0 <= i < |points|
    ensures var row := HistoricalRows(points, prices, w, m)[k];
            points[i].date == row.date + 1
            && row == BandRow(row.date, prices[row.date], points[i].value, w, m)
            && forall j :: 0 <= j < i ==> points[j].date != points[i].date
  {
    var init := points[..|points| - 1];
    var p := points[|points| - 1];
    var before := HistoricalRows(init, prices, w, m);
    HistoricalRowsSnoc(points, prices, w, m);
    if k < |before| {
      i := HistoricalRowSource(init, prices, w, m, k);
      assert init[i] == points[i];
      assert forall j :: 0 <= j < i ==> init[j] == points[j];
    } else {
      i := |points| - 1;
      FirstOfItsDate(points, prices, w, m);
    }
  }

  /** A prediction whose previous day is priced but has no row yet is the
      first prediction of its date. */
  lemma FirstOfItsDate(points: seq<Prediction>, prices: map<Date, real>, w: real, m: Primitives)
    requires points != []
    requires var p := points[|points| - 1];
             p.date - 1 in prices && p.date - 1 !in Dates(HistoricalRows(points[..|points| - 1], prices, w, m))
    ensures forall j :: 0 <= j < |points| - 1 ==> points[j].date != points[|points| - 1].date
  {
    var init := points[..|points| - 1];
    var p := points[|points| - 1];
    forall j | 0 <= j < |points| - 1 ensures points[j].date != p.date {
      assert init[j] == points[j];
      if points[j].date == p.date {
        HistoricalRowsComplete(init, prices, w, m, j);
      }
    }
  }

  /** The historical rows of a longer prefix: the last prediction adds a
      row for the day before it when that day is priced and new. */
  lemma HistoricalRowsSnoc(points: seq<Prediction>, prices: map<Date, real>, w: real, m: Primitives)
    requires points != []
    ensures var before := HistoricalRows(points[..|points| - 1], prices, w, m);
            var p := points[|points| - 1];
            HistoricalRows(points, prices, w, m)
            == if p.date - 1 in Dates(before) || p.date - 1 !in prices then before
               else before + [BandRow(p.date - 1, prices[p.date - 1], p.value, w, m)]
  {
  }

  /** Every prediction dated the day after a priced day has a row. */
  lemma {:induction false} HistoricalRowsComplete(points: seq<Prediction>, prices: map<Date, real>, w: real,
                                                  m: Primitives, i: int)
    requires 0 <= i < |points| && points[i].date - 1 in prices
    ensures points[i].date - 1 in Dates(HistoricalRows(points, prices, w, m))
  {
    var init := points[..|points| - 1];
    var before := HistoricalRows(init, prices, w, m);
    var r := HistoricalRows(points, prices, w, m);
    assert forall x :: x in before ==> x in r;
    if i < |points| - 1 {
      assert init[i] == points[i];
      HistoricalRowsComplete(init, prices, w, m, i);
      var x :| x in before && x.date == points[i].date - 1;
      assert x in r;
    } else if points[i].date - 1 !in Dates(before) {
      assert r[|r| - 1] in r;
    } else {
      var x :| x in before && x.date == points[i].date - 1;
      assert x in r;
    }
  }

  /** With a lawful `exp`, positive prices and a non-negative width every
      historical row has a positive price inside its band. */
  lemma {:induction false} HistoricalRowsBanded(points: seq<Prediction>, prices: map<Date, real>, w: real, m: Primitives)
    requires Lawful(m) && w >= 0.0 && forall d :: d in prices ==> prices[d] > 0.0
    ensures forall k :: 0 <= k < |HistoricalRows(points, prices, w, m)| ==>
              Banded(HistoricalRows(points, prices, w, m)[k])
  {
    if points != [] {
      var init := points[..|points| - 1];
      HistoricalRowsBanded(init, prices, w, m);
      var p := points[|points| - 1];
      var d := p.date - 1;
      if d in prices {
        BandRowFacts(d, prices[d], p.value, w, m);
      }
    }
  }

  // ---------------------------------------------------------------------
  // Rows from the future predictions

  /** The rows of the future loop: each prediction dated `d` gives a row
      dated `d - 1`, the first anchored on `anchor` and each later one on
      the price predicted by the row before it; no rows without an
      anchor. */
  function FutureRows(points: seq<Prediction>, anchor: Option<real>, w: real, m: Primitives): (r: seq<ForecastRow>)
    ensures anchor.None? ==> r == []
    ensures anchor.Some? ==> |r| == |points|
    ensures forall k :: 0 <= k < |r| ==> r[k].date == points[k].date - 1 && r[k].yhat.Some?
    decreases |points|
  {
    if anchor.None? || points == [] then []
    else
      var row := BandRow(points[0].date - 1, anchor.value, points[0].value, w, m);
      [row] + FutureRows(points[1..], row.yhat, w, m)
  }

  /** The future loop of `_compute_forecast`: `prev_price` starts at the
      last known price and is rebound to each predicted price. */
  method FutureRowsLoop(points: seq<Prediction>, anchor: Option<real>, w: real, m: Primitives)
    returns (rows: seq<ForecastRow>)
    ensures rows == FutureRows(points, anchor, w, m)
  {
    rows := [];
    var prev := anchor;
    for i := 0 to |points|
      invariant rows + FutureRows(points[i..], prev, w, m) == FutureRows(points, anchor, w, m)
    {
      if prev.None? {
        break;
      }
      var row := BandRow(points[i].date - 1, prev.value, points[i].value, w, m);
      FutureRowsStep(points, i, prev.value, w, m);
      AppendOne(rows, row, FutureRows(points[i + 1..], row.yhat, w, m));
      rows := rows + [row];
      prev := row.yhat;
    }
  }

  lemma AppendOne<T>(a: seq<T>, x: T, b: seq<T>)
    ensures a + [x] + b == a + ([x] + b)
  {
  }

  /** One step of the future loop. */
  lemma FutureRowsStep(points: seq<Prediction>, i: int, prev: real, w: real, m: Primitives)
    requires 0 <= i < |points|
    ensures var row := BandRow(points[i].date - 1, prev, points[i].value, w, m);
            FutureRows(points[i..], Some(prev), w, m) == [row] + FutureRows(points[i + 1..], row.yhat, w, m)
  {
    assert points[i..][1..] == points[i + 1..];
  }

  /** The future rows form a chain: the first is anchored on `anchor`,
      every later one on the price predicted by the row before it. */
  lemma {:induction false} FutureRowsChained(points: seq<Prediction>, anchor: real, w: real, m: Primitives, k: int)
    requires 0 <= k < |points|
    ensures var r := FutureRows(points, Some(anchor), w, m);
            r[k] == BandRow(points[k].date - 1, if k == 0 then anchor else r[k - 1].yhat.value,
                            points[k].value, w, m)
    decreases |points|
  {
    if k > 0 {
      var first := BandRow(points[0].date - 1, anchor, points[0].value, w, m);
      FutureRowsChained(points[1..], first.yhat.value, w, m, k - 1);
    }
  }

  /** With a lawful `exp`, a positive anchor and a non-negative width every
      future row has a positive price inside its band. */
  lemma {:induction false} FutureRowsBanded(points: seq<Prediction>, anchor: real, w: real, m: Primitives)
    requires Lawful(m) && anchor > 0.0 && w >= 0.0
    ensures forall k :: 0 <= k < |FutureRows(points, Some(anchor), w, m)| ==>
              Banded(FutureRows(points, Some(anchor), w, m)[k])
    decreases |points|
  {
    if points != [] {
      var first := BandRow(points[0].date - 1, anchor, points[0].value, w, m);
      BandRowFacts(points[0].date - 1, anchor, points[0].value, w, m);
      FutureRowsBanded(points[1..], first.yhat.value, w, m);
    }
  }

  /** A zero predicted return keeps the previous price: with all future
      predictions zero every row repeats the anchor. */
  lemma {:induction false} FutureRowsFlat(points: seq<Prediction>, anchor: real, w: real, m: Primitives)
    requires Lawful(m) && anchor >= 0.0 && w >= 0.0
    requires forall k :: 0 <= k < |points| ==> points[k].value == 0.0
    ensures forall k :: 0 <= k < |FutureRows(points, Some(anchor), w, m)| ==>
              FutureRows(points, Some(anchor), w, m)[k].yhat == Some(anchor)
    decreases |points|
  {
    if points != [] {
      BandRowFacts(points[0].date - 1, anchor, 0.0, w, m);
      assert forall k :: 0 <= k < |points[1..]| ==> points[1..][k].value == 0.0;
      FutureRowsFlat(points[1..], anchor, w, m);
    }
  }

  // ---------------------------------------------------------------------
  // The whole forecast

  /** A frame with one row per calendar day from its first date on, as
      `BuildPriceFrame` makes it. */
  ghost predicate Daily(frame: seq<FrameRow>)
  {
    frame != [] && forall j :: 0 <= j < |frame| ==> frame[j].date == frame[0].date + j
  }

  /** The forecast from a daily frame: none when the return series has
      fewer than 5 points, else the historical rows followed by the future
      rows anchored on the frame's last price, both with the band width of
      the residuals of the historical predictions. */
  function FrameForecast(frame: seq<FrameRow>, hist: seq<Prediction>, future: seq<Prediction>, m: Primitives)
    : (r: seq<ForecastRow>)
    requires frame != []
    ensures |r| <= |hist| + |future|
  {
    var series := ReturnSeries(frame, m);
    if series.None? || |series.value| < 5 then []
    else
      var w := CiWidth(Residuals(hist, ReturnsByDate(series.value)), m);
      var prices := PriceByDate(frame);
      var last := frame[|frame| - 1].date;
      HistoricalRows(hist, prices, w, m)
        + FutureRows(future, if last in prices then Some(prices[last]) else None, w, m)
  }

  /** The rows `_compute_forecast` returns for the fetched price series
      `rows`, given the model's historical predictions `hist` and its
      future predictions `future`: none when the daily frame has fewer
      than 6 days. */
  function GlobalForecast(rows: seq<PricePoint>, hist: seq<Prediction>, future: seq<Prediction>, m: Primitives)
    : (r: seq<ForecastRow>)
    requires KeysUnique(rows, PointDate)
    ensures |r| <= |hist| + |future|
    ensures rows == [] ==> r == []
  {
    match BuildPriceFrame(rows)
    case None => []
    case Some(frame) => if |frame| < 6 then [] else FrameForecast(frame, hist, future, m)
  }

  /** `_compute_forecast` once the model's predictions are known. */
  method ComputeForecast(rows: seq<PricePoint>, hist: seq<Prediction>, future: seq<Prediction>, m: Primitives)
    returns (out: seq<ForecastRow>)
    requires KeysUnique(rows, PointDate)
    ensures out == GlobalForecast(rows, hist, future, m)
  {
    var priceFrame := BuildPriceFrame(rows);
    if priceFrame.None? || |priceFrame.value| < 6 {
      return [];
    }
    out := ComputeFrameForecast(priceFrame.value, hist, future, m);
  }

  /** The part of `_compute_forecast` after the frame is built. */
  method ComputeFrameForecast(frame: seq<FrameRow>, hist: seq<Prediction>, future: seq<Prediction>, m: Primitives)
    returns (out: seq<ForecastRow>)
    requires frame != []
    ensures out == FrameForecast(frame, hist, future, m)
  {
    var series := ReturnSeries(frame, m);
    if series.None? || |series.value| < 5 {
      return [];
    }
    var actualReturns := ReturnsByDate(series.value);
    var residuals := Residuals(hist, actualReturns);
    var ciWidth := CiWidth(residuals, m);
    var priceByDate := PriceByDate(frame);
    var historicalRows := HistoricalRowsLoop(hist, priceByDate, ciWidth, m);
    var lastPriceDate := frame[|frame| - 1].date;
    var prevPrice := if lastPriceDate in priceByDate then Some(priceByDate[lastPriceDate]) else None;
    var futureRows := FutureRowsLoop(future, prevPrice, ciWidth, m);
    out := historicalRows + futureRows;
  }

  /** In a daily frame each day's price is found under its date. */
  lemma DailyPriceAt(frame: seq<FrameRow>, k: int)
    requires Daily(frame) && 0 <= k < |frame|
    ensures frame[k].date in PriceByDate(frame) && PriceByDate(frame)[frame[k].date] == frame[k].price
  {
    var d := frame[k].date;
    assert frame[k].date == d;
    var j :| 0 <= j < |frame| && frame[j].date == d && PriceByDate(frame)[d] == frame[j].price;
    assert frame[j].date == frame[0].date + j;
  }

  /** On a daily frame of at least six days the forecast is the
      historical rows followed by the future rows anchored on the last
      day's price, with a band width that is never negative under a
      lawful standard deviation. */
  lemma FrameForecastParts(frame: seq<FrameRow>, hist: seq<Prediction>, future: seq<Prediction>, m: Primitives)
    returns (w: real)
    requires Daily(frame) && |frame| >= 6
    ensures Lawful(m) ==> w >= 0.0
    ensures FrameForecast(frame, hist, future, m)
            == HistoricalRows(hist, PriceByDate(frame), w, m) + FutureRows(future, Some(frame[|frame| - 1].price), w, m)
  {
    var series := ReturnSeries(frame, m);
    w := CiWidth(Residuals(hist, ReturnsByDate(series.value)), m);
    DailyPriceAt(frame, |frame| - 1);
  }

  /** The frame of the supplied prices is daily and ends on the latest
      supplied day with its price; its prices are supplied prices. */
  lemma FrameOfRows(rows: seq<PricePoint>) returns (latest: PricePoint)
    requires KeysUnique(rows, PointDate) && rows != []
    ensures Daily(BuildPriceFrame(rows).value)
    ensures latest in rows && forall q :: q in rows ==> q.date <= latest.date
    ensures var f := BuildPriceFrame(rows).value; f[|f| - 1] == FrameRow(latest.date, latest.price)
  {
    latest := FrameEndsOnLatest(rows);
  }

  lemma ConcatDistinct(a: seq<ForecastRow>, b: seq<ForecastRow>)
    requires RowDatesDistinct(a) && RowDatesDistinct(b)
    requires forall i, j :: 0 <= i < |a| && 0 <= j < |b| ==> a[i].date < b[j].date
    ensures RowDatesDistinct(a + b)
  {
    forall i, j | 0 <= i < j < |a + b| ensures (a + b)[i].date != (a + b)[j].date {
      if j < |a| {
        assert (a + b)[i] == a[i] && (a + b)[j] == a[j];
      } else if i >= |a| {
        assert (a + b)[i] == b[i - |a|] && (a + b)[j] == b[j - |a|];
      } else {
        assert (a + b)[i] == a[i] && (a + b)[j] == b[j - |a|];
      }
    }
  }

  /** On a daily frame: when the model predicts history on days up to the
      frame's last day and the future on later days in ascending order,
      the forecast has one row per date. */
  lemma FrameForecastDatesDistinct(frame: seq<FrameRow>, hist: seq<Prediction>, future: seq<Prediction>, m: Primitives)
    requires Daily(frame) && |frame| >= 6
    requires forall p :: p in hist ==> p.date <= frame[|frame| - 1].date
    requires forall p :: p in future ==> frame[|frame| - 1].date < p.date
    requires forall i, j :: 0 <= i < j < |future| ==> future[i].date < future[j].date
    ensures RowDatesDistinct(FrameForecast(frame, hist, future, m))
  {
    var w := FrameForecastParts(frame, hist, future, m);
    var prices := PriceByDate(frame);
    var a := HistoricalRows(hist, prices, w, m);
    var b := FutureRows(future, Some(frame[|frame| - 1].price), w, m);
    var last := frame[|frame| - 1].date;
    forall i | 0 <= i < |a| ensures a[i].date < last {
      var s := HistoricalRowSource(hist, prices, w, m, i);
      assert hist[s] in hist;
    }
    forall j | 0 <= j < |b| ensures last <= b[j].date {
      assert future[j] in future;
    }
    ConcatDistinct(a, b);
  }

  /** When the model predicts history on days up to the last supplied
      price and the future on later days in ascending order, the forecast
      has one row per date, so storing it keeps the table's uniqueness
      constraint. */
  lemma ForecastDatesDistinct(rows: seq<PricePoint>, hist: seq<Prediction>, future: seq<Prediction>, m: Primitives)
    requires KeysUnique(rows, PointDate)
    requires forall p :: p in hist ==> exists q :: q in rows && p.date <= q.date
    requires forall p, q :: p in future && q in rows ==> q.date < p.date
    requires forall i, j :: 0 <= i < j < |future| ==> future[i].date < future[j].date
    ensures RowDatesDistinct(GlobalForecast(rows, hist, future, m))
  {
    if rows != [] && |BuildPriceFrame(rows).value| >= 6 {
      var latest := FrameOfRows(rows);
      var frame := BuildPriceFrame(rows).value;
      assert forall p :: p in hist ==> p.date <= frame[|frame| - 1].date;
      FrameForecastDatesDistinct(frame, hist, future, m);
    }
  }

  /** On a daily frame with positive prices, under a lawful `exp` and
      standard deviation, every forecast row has a positive price inside
      its band. */
  lemma FrameForecastBanded(frame: seq<FrameRow>, hist: seq<Prediction>, future: seq<Prediction>, m: Primitives)
    requires Daily(frame) && |frame| >= 6 && Lawful(m)
    requires forall k :: 0 <= k < |frame| ==> frame[k].price > 0.0
    ensures forall k :: 0 <= k < |FrameForecast(frame, hist, future, m)| ==> Banded(FrameForecast(frame, hist, future, m)[k])
  {
    var w := FrameForecastParts(frame, hist, future, m);
    var prices := PriceByDate(frame);
    PricesPositive(frame);
    HistoricalRowsBanded(hist, prices, w, m);
    FutureRowsBanded(future, frame[|frame| - 1].price, w, m);
    ConcatBanded(HistoricalRows(hist, prices, w, m), FutureRows(future, Some(frame[|frame| - 1].price), w, m));
  }

  lemma PricesPositive(frame: seq<FrameRow>)
    requires forall k :: 0 <= k < |frame| ==> frame[k].price > 0.0
    ensures forall d :: d in PriceByDate(frame) ==> PriceByDate(frame)[d] > 0.0
  {
  }

  lemma ConcatBanded(a: seq<ForecastRow>, b: seq<ForecastRow>)
    requires forall k :: 0 <= k < |a| ==> Banded(a[k])
    requires forall k :: 0 <= k < |b| ==> Banded(b[k])
    ensures forall k :: 0 <= k < |a + b| ==> Banded((a + b)[k])
  {
    forall k | 0 <= k < |a + b| ensures Banded((a + b)[k]) {
      if k < |a| { assert (a + b)[k] == a[k]; } else { assert (a + b)[k] == b[k - |a|]; }
    }
  }

  /** With a lawful `exp` and standard deviation and positive supplied
      prices, every forecast row has a positive price inside its band. */
  lemma ForecastBanded(rows: seq<PricePoint>, hist: seq<Prediction>, future: seq<Prediction>, m: Primitives)
    requires KeysUnique(rows, PointDate) && Lawful(m)
    requires forall p :: p in rows ==> p.price > 0.0
    ensures forall k :: 0 <= k < |GlobalForecast(rows, hist, future, m)| ==> Banded(GlobalForecast(rows, hist, future, m)[k])
  {
    if rows != [] && |BuildPriceFrame(rows).value| >= 6 {
      var frame := BuildPriceFrame(rows).value;
      forall k | 0 <= k < |frame| ensures frame[k].price > 0.0 {
        FrameFillsForward(rows, k);
      }
      var _ := FrameOfRows(rows);
      FrameForecastBanded(frame, hist, future, m);
    }
  }

  /** The first future row is anchored on the latest supplied price. */
  lemma ForecastAnchoredOnLastPrice(rows: seq<PricePoint>, hist: seq<Prediction>, future: seq<Prediction>, m: Primitives)
    returns (w: real, latest: PricePoint)
    requires KeysUnique(rows, PointDate) && rows != [] && |BuildPriceFrame(rows).value| >= 6
    ensures Lawful(m) ==> w >= 0.0
    ensures latest in rows && forall q :: q in rows ==> q.date <= latest.date
    ensures GlobalForecast(rows, hist, future, m)
            == HistoricalRows(hist, PriceByDate(BuildPriceFrame(rows).value), w, m)
               + FutureRows(future, Some(latest.price), w, m)
  {
    latest := FrameOfRows(rows);
    var frame := BuildPriceFrame(rows).value;
    GlobalForecastOfFrame(rows, hist, future, m);
    w := FrameForecastAnchored(frame, latest.price, hist, future, m);
  }

  lemma FrameForecastAnchored(frame: seq<FrameRow>, anchor: real, hist: seq<Prediction>, future: seq<Prediction>,
                              m: Primitives) returns (w: real)
    requires Daily(frame) && |frame| >= 6 && frame[|frame| - 1].price == anchor
    ensures Lawful(m) ==> w >= 0.0
    ensures FrameForecast(frame, hist, future, m)
            == HistoricalRows(hist, PriceByDate(frame), w, m) + FutureRows(future, Some(anchor), w, m)
  {
    w := FrameForecastParts(frame, hist, future, m);
  }

  lemma GlobalForecastOfFrame(rows: seq<PricePoint>, hist: seq<Prediction>, future: seq<Prediction>, m: Primitives)
    requires KeysUnique(rows, PointDate) && rows != [] && |BuildPriceFrame(rows).value| >= 6
    ensures GlobalForecast(rows, hist, future, m) == FrameForecast(BuildPriceFrame(rows).value, hist, future, m)
  {
  }

  // ---------------------------------------------------------------------
  // Storing and predicting

  /** `_store_forecast_rows`: nothing for a non-positive horizon or no
      rows, otherwise a replace of the asset's rows. */
  method StoreForecastRows(table: ForecastTable, cryptoId: int, rows: seq<ForecastRow>, horizonDays: int,
                           cutoffDate: Date, modelRunId: Option<int>, now: int) returns (r: Result<nat>)
    requires table.Valid()
    modifies table
    ensures table.Valid()
    ensures horizonDays <= 0 || rows == [] ==> r == Ok(0) && table.records == old(table.records)
    ensures horizonDays > 0 && rows != [] && !RowDatesDistinct(rows) ==>
              r.Err? && table.records == old(table.records)
    ensures horizonDays > 0 && rows != [] && RowDatesDistinct(rows) ==>
              r == Ok(|rows|)
              && table.records == OtherCryptos(old(table.records), cryptoId)
                                  + TagAll(rows, cryptoId, cutoffDate, horizonDays, modelRunId, now)
  {
    if horizonDays <= 0 || rows == [] {
      return Ok(0);
    }
    r := table.ReplaceCrypto(cryptoId, rows, cutoffDate, horizonDays, modelRunId, now);
  }

  /** `session.get(ForecastModelRun, id)`. */
  function RunById(runs: seq<ModelRun>, id: int): (r: Option<ModelRun>)
    ensures r.Some? ==> r.value in runs && r.value.id == id
    ensures r.None? <==> forall x :: x in runs ==> x.id != id
  {
    if runs == [] then None
    else if runs[0].id == id then Some(runs[0])
    else
      assert forall x :: x in runs ==> x == runs[0] || x in runs[1..];
      RunById(runs[1..], id)
  }

  /** What a guarded store leaves in a table: the table as it was when
      the horizon is not positive or there are no rows, else the other
      assets' rows followed by one record per row. */
  ghost function AfterStore(before: seq<StoredForecast>, cryptoId: int, rows: seq<ForecastRow>,
                            cutoffDate: Date, horizonDays: int, modelRunId: Option<int>, now: int)
    : seq<StoredForecast>
  {
    if horizonDays <= 0 || rows == [] then before
    else OtherCryptos(before, cryptoId) + TagAll(rows, cryptoId, cutoffDate, horizonDays, modelRunId, now)
  }

  /** Whether `_store_forecast_rows` refuses rows: a positive horizon and
      two rows on one date. */
  predicate StoreRejects(rows: seq<ForecastRow>, horizonDays: int)
  {
    horizonDays > 0 && rows != [] && !RowDatesDistinct(rows)
  }

  /** Whether a run's forecasts go to the GRU table rather than the LSTM one. */
  predicate IsGru(run: ModelRun)
  {
    run.cellType == "GRU"
  }

  /** The end of `predict_with_global_model`, once the run is known and
      at least 5 prices are fetched: compute the forecast and, when it is
      not empty, store it in the table of the run's cell type with the
      last price's date as cutoff. */
  method ForecastAndStore(rows: seq<PricePoint>, run: ModelRun, horizonDays: int, cryptoId: int,
                          hist: seq<Prediction>, future: seq<Prediction>, m: Primitives,
                          lstm: ForecastTable, gru: ForecastTable, now: int)
    returns (r: Result<seq<ForecastRow>>)
    requires KeysUnique(rows, PointDate) && |rows| >= 5
    requires lstm != gru && lstm.Valid() && gru.Valid()
    modifies lstm, gru
    ensures lstm.Valid() && gru.Valid()
    ensures r.Ok? ==> r.value == GlobalForecast(rows, hist, future, m)
    ensures r.Err? <==> StoreRejects(GlobalForecast(rows, hist, future, m), horizonDays)
    ensures r.Err? || r.value == [] ==> lstm.records == old(lstm.records) && gru.records == old(gru.records)
    ensures r.Ok? && IsGru(run) ==>
              gru.records == AfterStore(old(gru.records), cryptoId, r.value, rows[|rows| - 1].date, horizonDays, Some(run.id), now)
              && lstm.records == old(lstm.records)
    ensures r.Ok? && !IsGru(run) ==>
              lstm.records == AfterStore(old(lstm.records), cryptoId, r.value, rows[|rows| - 1].date, horizonDays, Some(run.id), now)
              && gru.records == old(gru.records)
  {
    var forecastRows := ComputeForecast(rows, hist, future, m);
    if forecastRows == [] {
      return Ok([]);
    }
    var cutoffDate := rows[|rows| - 1].date;
    var table := if IsGru(run) then gru else lstm;
    var stored := StoreForecastRows(table, cryptoId, forecastRows, horizonDays, cutoffDate, Some(run.id), now);
    if stored.Err? {
      return Err(stored.error);
    }
    return Ok(forecastRows);
  }

  /** `predict_with_global_model` once the run is known and the asset is
      allowed: nothing without Darts or with fewer than 5 prices, else
      load the run's model, forecast and store. `h` is the horizon in use. */
  method PredictForRun(run: ModelRun, h: int, cryptoId: int, dartsAvailable: bool, prices: seq<PriceRow>,
                       today: Date, fs: FileSystem, checkpointLoads: bool, hist: seq<Prediction>,
                       future: seq<Prediction>, m: Primitives, lstm: ForecastTable, gru: ForecastTable, now: int)
    returns (r: Result<seq<ForecastRow>>)
    requires lstm != gru && lstm.Valid() && gru.Valid() && UniqueCryptoDate(prices)
    modifies lstm, gru
    ensures lstm.Valid() && gru.Valid()
    ensures !dartsAvailable || |FetchPriceSeries(prices, cryptoId, 0, today)| < 5 ==> r == Ok([])
    ensures r.Err? || r.value == [] ==> lstm.records == old(lstm.records) && gru.records == old(gru.records)
    ensures dartsAvailable && |FetchPriceSeries(prices, cryptoId, 0, today)| >= 5
            && !LoadSucceeds(run, "best_checkpoint", fs, checkpointLoads) ==>
              r == Err("Model artifact path missing.")
    ensures dartsAvailable && |FetchPriceSeries(prices, cryptoId, 0, today)| >= 5
            && LoadSucceeds(run, "best_checkpoint", fs, checkpointLoads) ==>
              var series := FetchPriceSeries(prices, cryptoId, 0, today);
              KeysUnique(series, PointDate)
              && (var forecast := GlobalForecast(series, hist, future, m);
                  if StoreRejects(forecast, h) then r.Err? else r == Ok(forecast))
    ensures r.Ok? && r.value != [] ==>
              var series := FetchPriceSeries(prices, cryptoId, 0, today);
              |series| >= 5 && KeysUnique(series, PointDate)
              && r.value == GlobalForecast(series, hist, future, m)
              && (IsGru(run) ==>
                    gru.records == AfterStore(old(gru.records), cryptoId, r.value, series[|series| - 1].date, h, Some(run.id), now)
                    && lstm.records == old(lstm.records))
              && (!IsGru(run) ==>
                    lstm.records == AfterStore(old(lstm.records), cryptoId, r.value, series[|series| - 1].date, h, Some(run.id), now)
                    && gru.records == old(gru.records))
  {
    if !dartsAvailable {
      return Ok([]);
    }
    var rows := FetchPriceSeries(prices, cryptoId, 0, today);
    if |rows| < 5 {
      return Ok([]);
    }
    var loaded := LoadGlobalModel(run, "best_checkpoint", fs, dartsAvailable, checkpointLoads);
    if loaded.Err? {
      return Err(loaded.error);
    }
    FetchPriceSeriesStrictlyAscending(prices, cryptoId, 0, today);
    assert KeysUnique(rows, PointDate);
    r := ForecastAndStore(rows, run, h, cryptoId, hist, future, m, lstm, gru, now);
  }

  /** The run exists and the asset may be forecast with it: it was part
      of the training set, or unseen assets are allowed. */
  predicate Admitted(runs: seq<ModelRun>, modelRunId: int, cryptoId: int, allowUnseen: bool)
  {
    RunById(runs, modelRunId).Some?
    && (allowUnseen || cryptoId in RunById(runs, modelRunId).value.trainingCryptoIds)
  }

  /** `predict_with_global_model`. `runs` is the runs table, `prices` the
      prices table and `today` the current date; `dartsAvailable` says
      whether Darts could be imported, `fs` and `checkpointLoads` describe
      what loading the model finds, and `hist` and `future` are the loaded
      model's historical and future predictions for the asset. */
  method PredictWithGlobalModel(runs: seq<ModelRun>, modelRunId: int, cryptoId: int, horizonDays: Option<int>,
                                allowUnseen: bool, dartsAvailable: bool, prices: seq<PriceRow>, today: Date,
                                fs: FileSystem, checkpointLoads: bool, hist: seq<Prediction>,
                                future: seq<Prediction>, m: Primitives,
                                lstm: ForecastTable, gru: ForecastTable, now: int)
    returns (r: Result<seq<ForecastRow>>)
    requires lstm != gru && lstm.Valid() && gru.Valid() && UniqueCryptoDate(prices)
    modifies lstm, gru
    ensures lstm.Valid() && gru.Valid()
    ensures RunById(runs, modelRunId).None? ==>
              r == Err("Model run not found.") && lstm.records == old(lstm.records) && gru.records == old(gru.records)
    ensures RunById(runs, modelRunId).Some? && !allowUnseen
            && cryptoId !in RunById(runs, modelRunId).value.trainingCryptoIds ==>
              r == Err("Crypto not part of the training set.")
              && lstm.records == old(lstm.records) && gru.records == old(gru.records)
    ensures r.Err? || r.value == [] ==> lstm.records == old(lstm.records) && gru.records == old(gru.records)
    ensures Admitted(runs, modelRunId, cryptoId, allowUnseen) ==>
              var run := RunById(runs, modelRunId).value;
              var series := FetchPriceSeries(prices, cryptoId, 0, today);
              var h := if horizonDays.Some? then horizonDays.value else run.horizonDays;
              (!dartsAvailable || |series| < 5 ==> r == Ok([]))
              && (dartsAvailable && |series| >= 5 && !LoadSucceeds(run, "best_checkpoint", fs, checkpointLoads) ==>
                    r == Err("Model artifact path missing."))
              && (dartsAvailable && |series| >= 5 && LoadSucceeds(run, "best_checkpoint", fs, checkpointLoads) ==>
                    KeysUnique(series, PointDate)
                    && (var forecast := GlobalForecast(series, hist, future, m);
                        if StoreRejects(forecast, h) then r.Err? else r == Ok(forecast)))
    ensures r.Ok? && r.value != [] ==>
              var run := RunById(runs, modelRunId).value;
              var series := FetchPriceSeries(prices, cryptoId, 0, today);
              var h := if horizonDays.Some? then horizonDays.value else run.horizonDays;
              |series| >= 5 && KeysUnique(series, PointDate)
              && r.value == GlobalForecast(series, hist, future, m)
              && (IsGru(run) ==>
                    gru.records == AfterStore(old(gru.records), cryptoId, r.value, series[|series| - 1].date, h, Some(run.id), now)
                    && lstm.records == old(lstm.records))
              && (!IsGru(run) ==>
                    lstm.records == AfterStore(old(lstm.records), cryptoId, r.value, series[|series| - 1].date, h, Some(run.id), now)
                    && gru.records == old(gru.records))
  {
    var found := RunById(runs, modelRunId);
    if found.None? {
      return Err("Model run not found.");
    }
    var run := found.value;
    var h := if horizonDays.Some? then horizonDays.value else run.horizonDays;
    if !allowUnseen && cryptoId !in run.trainingCryptoIds {
      return Err("Crypto not part of the training set.");
    }
    r := PredictForRun(run, h, cryptoId, dartsAvailable, prices, today, fs, checkpointLoads, hist, future, m, lstm, gru, now);
  }
}
