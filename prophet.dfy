/** The Prophet forecasts of web/app/services/prophet.py: the guarded
    replace-store of `store_prophet_forecast` into `prophet_forecasts`.
    The forecaster, `compute_prophet_forecast` of
    web/app/services/analytics.py, is not part of this model: the rows it
    returns, with their ISO dates already parsed, are an input. The two
    reads `fetch_prophet_forecast` and `fetch_prophet_meta` are
    `FetchForecast` and `FetchMeta` of the forecast store. */
module Prophet {
  import opened Common
  import opened Series
  import opened ForecastStore
  import opened GlobalInference

  /** `store_prophet_forecast`: nothing for a non-positive horizon, fewer
      than 2 price rows or an empty forecast; otherwise the asset's rows
      are replaced by one record per forecast row, tagged with the last
      price row's date as cutoff and without a model run, and their number
      is returned. A forecast that repeats a date breaks the uniqueness
      constraint at commit: the error propagates and nothing changes. */
  method StoreProphetForecast(table: ForecastTable, cryptoId: int, rows: seq<PricePoint>, horizonDays: int,
                              forecast: seq<ForecastRow>, now: int) returns (r: Result<nat>)
    requires table.Valid()
    modifies table
    ensures table.Valid()
    ensures horizonDays <= 0 || |rows| < 2 || forecast == [] ==>
              r == Ok(0) && table.records == old(table.records)
    ensures horizonDays > 0 && |rows| >= 2 && !RowDatesDistinct(forecast) ==>
              r.Err? && table.records == old(table.records)
    ensures horizonDays > 0 && |rows| >= 2 && forecast != [] && RowDatesDistinct(forecast) ==>
              r == Ok(|forecast|)
              && table.records == AfterStore(old(table.records), cryptoId, forecast, rows[|rows| - 1].date,
                                             horizonDays, None, now)
  {
    if horizonDays <= 0 || |rows| < 2 {
      return Ok(0);
    }
    var cutoffDate := rows[|rows| - 1].date;
    if forecast == [] {
      return Ok(0);
    }
    r := table.ReplaceCrypto(cryptoId, forecast, cutoffDate, horizonDays, None, now);
  }

  /** After a store that wrote rows, `fetch_prophet_forecast` without a
      start date reads back exactly the forecast's rows, in date order, and
      `fetch_prophet_meta` the cutoff and horizon of the store. */
  lemma StoredProphetReadsBack(records: seq<StoredForecast>, cryptoId: int, rows: seq<PricePoint>,
                               horizonDays: int, forecast: seq<ForecastRow>, now: int)
    requires horizonDays > 0 && |rows| >= 2 && forecast != []
    ensures var after := AfterStore(records, cryptoId, forecast, rows[|rows| - 1].date, horizonDays, None, now);
            var back := FetchForecast(after, cryptoId, None);
            SortedBy(back, RowDate) && multiset(back) == multiset(forecast)
            && FetchMeta(after, cryptoId) == (Some(rows[|rows| - 1].date), Some(horizonDays))
  {
    var cutoffDate := rows[|rows| - 1].date;
    ReplaceSelectsNewRows(records, cryptoId, forecast, cutoffDate, horizonDays, None, now);
    ProjectTagAll(forecast, cryptoId, cutoffDate, horizonDays, None, now);
    StoreThenMeta(records, cryptoId, forecast, cutoffDate, horizonDays, None, now);
  }
}
