/** The three forecast tables `prophet_forecasts`, `lstm_forecasts` and
    `gru_forecasts` (web/app/models.py), which share one layout and one
    uniqueness constraint on (crypto_id, date), with the replace-by-asset
    write and the two read queries the forecast services run on them. */
module ForecastStore {
  import opened Common

  /** A stored forecast row. `modelRunId` is always `None` in
      `prophet_forecasts`, which has no such column; `createdAt` is the
      server-side timestamp of the inserting transaction. */
  datatype StoredForecast = StoredForecast(
    cryptoId: int,
    date: Date,
    yhat: Option<real>,
    yhatLower: Option<real>,
    yhatUpper: Option<real>,
    cutoffDate: Date,
    horizonDays: int,
    modelRunId: Option<int>,
    createdAt: int)

  /** A forecast row as the services build it and as the fetch queries
      return it. */
  datatype ForecastRow = ForecastRow(date: Date, yhat: Option<real>, yhatLower: Option<real>, yhatUpper: Option<real>)

  function RowDate(r: ForecastRow): int { r.date }

  /** The constraints `uq_prophet_crypto_date`, `uq_lstm_crypto_date` and
      `uq_gru_crypto_date`. */
  ghost predicate UniqueForecastDates(records: seq<StoredForecast>)
  {
    forall i, j :: 0 <= i < j < |records| ==>
      records[i].cryptoId != records[j].cryptoId || records[i].date != records[j].date
  }

  /** No two rows to insert share a date. */
  predicate RowDatesDistinct(rows: seq<ForecastRow>)
  {
    forall i, j :: 0 <= i < j < |rows| ==> rows[i].date != rows[j].date
  }

  /** `WHERE crypto_id = cryptoId [AND date >= start]`, in table order. */
  function Select(records: seq<StoredForecast>, cryptoId: int, start: Option<Date>): (r: seq<StoredForecast>)
    ensures forall x :: x in r <==>
      x in records && x.cryptoId == cryptoId && (start.Some? ==> x.date >= start.value)
    ensures |r| <= |records|
  {
    if records == [] then []
    else
      var init := records[..|records| - 1];
      var x := records[|records| - 1];
      assert records == init + [x];
      Select(init, cryptoId, start)
        + (if x.cryptoId == cryptoId && (start.Some? ==> x.date >= start.value) then [x] else [])
  }

  /** What `DELETE ... WHERE crypto_id = cryptoId` leaves, in table order. */
  function OtherCryptos(records: seq<StoredForecast>, cryptoId: int): (r: seq<StoredForecast>)
    ensures forall x :: x in r <==> x in records && x.cryptoId != cryptoId
    ensures |r| <= |records|
  {
    if records == [] then []
    else
      var init := records[..|records| - 1];
      var x := records[|records| - 1];
      assert records == init + [x];
      OtherCryptos(init, cryptoId) + (if x.cryptoId != cryptoId then [x] else [])
  }

  /** The record the services build for one forecast row. */
  function Tagged(row: ForecastRow, cryptoId: int, cutoffDate: Date, horizonDays: int,
                  modelRunId: Option<int>, now: int): StoredForecast
  {
    StoredForecast(cryptoId, row.date, row.yhat, row.yhatLower, row.yhatUpper,
                   cutoffDate, horizonDays, modelRunId, now)
  }

  /** The records built for `rows`, one per row and in the same order. */
  function TagAll(rows: seq<ForecastRow>, cryptoId: int, cutoffDate: Date, horizonDays: int,
                  modelRunId: Option<int>, now: int): (r: seq<StoredForecast>)
    ensures |r| == |rows|
    ensures forall i :: 0 <= i < |rows| ==> r[i] == Tagged(rows[i], cryptoId, cutoffDate, horizonDays, modelRunId, now)
  {
    if rows == [] then []
    else
      TagAll(rows[..|rows| - 1], cryptoId, cutoffDate, horizonDays, modelRunId, now)
        + [Tagged(rows[|rows| - 1], cryptoId, cutoffDate, horizonDays, modelRunId, now)]
  }

  /** The row a fetch query returns for a record. */
  function Project(x: StoredForecast): ForecastRow
  {
    ForecastRow(x.date, x.yhat, x.yhatLower, x.yhatUpper)
  }

  function ProjectAll(records: seq<StoredForecast>): (r: seq<ForecastRow>)
    ensures |r| == |records|
    ensures forall i :: 0 <= i < |records| ==> r[i] == Project(records[i])
  {
    seq(|records|, i requires 0 <= i < |records| => Project(records[i]))
  }

  /** `_fetch_forecast` and `fetch_prophet_forecast`: the asset's rows from
      `start` on (all of them without `start`), in ascending date order. */
  function FetchForecast(records: seq<StoredForecast>, cryptoId: int, start: Option<Date>): (r: seq<ForecastRow>)
    ensures SortedBy(r, RowDate)
    ensures multiset(r) == multiset(ProjectAll(Select(records, cryptoId, start)))
    ensures start.Some? ==> forall i :: 0 <= i < |r| ==> r[i].date >= start.value
  {
    var selected := ProjectAll(Select(records, cryptoId, start));
    var r := SortByKey(selected, RowDate);
    assert forall i :: 0 <= i < |r| ==> start.None? || r[i].date >= start.value by {
      forall i | 0 <= i < |r| && start.Some? ensures r[i].date >= start.value {
        assert r[i] in multiset(selected);
        var k :| 0 <= k < |selected| && selected[k] == r[i];
        assert Select(records, cryptoId, start)[k] in Select(records, cryptoId, start);
      }
    }
    r
  }

  /** The row `ORDER BY created_at DESC LIMIT 1` picks: one with the
      greatest timestamp, or none in an empty selection. */
  function Newest(records: seq<StoredForecast>): (r: Option<StoredForecast>)
    ensures r.None? <==> records == []
    ensures r.Some? ==> r.value in records && forall y :: y in records ==> y.createdAt <= r.value.createdAt
  {
    if records == [] then None
    else
      var init := records[..|records| - 1];
      var x := records[|records| - 1];
      assert records == init + [x];
      var rest := Newest(init);
      if rest.Some? && rest.value.createdAt >= x.createdAt then rest else Some(x)
  }

  /** `_fetch_meta` and `fetch_prophet_meta`: `(None, None)` for an asset
      without rows, else the cutoff date and horizon of its newest row. */
  function FetchMeta(records: seq<StoredForecast>, cryptoId: int): (m: (Option<Date>, Option<int>))
    ensures (forall x :: x in records ==> x.cryptoId != cryptoId) ==> m == (None, None)
    ensures (exists x :: x in records && x.cryptoId == cryptoId) ==>
              exists x :: x in records && x.cryptoId == cryptoId
                && m == (Some(x.cutoffDate), Some(x.horizonDays))
                && forall y :: y in records && y.cryptoId == cryptoId ==> y.createdAt <= x.createdAt
  {
    match Newest(Select(records, cryptoId, None))
    case None => (None, None)
    case Some(x) => (Some(x.cutoffDate), Some(x.horizonDays))
  }

  /** One of the forecast tables. */
  class ForecastTable {
    var records: seq<StoredForecast>

    ghost predicate Valid()
      reads this
    {
      UniqueForecastDates(records)
    }

    constructor()
      ensures Valid() && records == []
    {
      records := [];
    }

    /** The write of `_store_forecast_rows`, `_store_forecast` and
        `store_prophet_forecast` once their guards have passed: delete the
        asset's rows, build one record per forecast row, insert them and
        commit, answering the number of records. Rows that repeat a date
        break the uniqueness constraint at commit; the transaction, delete
        included, is then rolled back and the error propagates. */
    method ReplaceCrypto(cryptoId: int, rows: seq<ForecastRow>, cutoffDate: Date, horizonDays: int,
                         modelRunId: Option<int>, now: int) returns (r: Result<nat>)
      requires Valid()
      modifies this
      ensures Valid()
      ensures !RowDatesDistinct(rows) ==> r.Err? && records == old(records)
      ensures RowDatesDistinct(rows) ==>
                r == Ok(|rows|)
                && records == OtherCryptos(old(records), cryptoId)
                              + TagAll(rows, cryptoId, cutoffDate, horizonDays, modelRunId, now)
    {
      var kept: seq<StoredForecast> := [];
      for i := 0 to |records|
        invariant kept == OtherCryptos(records[..i], cryptoId)
      {
        assert records[..i + 1][..i] == records[..i];
        kept := kept + (if records[i].cryptoId != cryptoId then [records[i]] else []);
      }
      assert records[..|records|] == records;
      var added: seq<StoredForecast> := [];
      for i := 0 to |rows|
        invariant added == TagAll(rows[..i], cryptoId, cutoffDate, horizonDays, modelRunId, now)
      {
        assert rows[..i + 1][..i] == rows[..i];
        added := added + [Tagged(rows[i], cryptoId, cutoffDate, horizonDays, modelRunId, now)];
      }
      assert rows[..|rows|] == rows;
      if !RowDatesDistinct(rows) {
        return Err("duplicate key value violates unique constraint");
      }
      ReplaceKeepsUnique(records, cryptoId, rows, cutoffDate, horizonDays, modelRunId, now);
      records := kept + added;
      return Ok(|rows|);
    }
  }

  /** Appending a record whose key is new keeps the keys unique. */
  lemma UniqueSnoc(a: seq<StoredForecast>, x: StoredForecast)
    requires UniqueForecastDates(a)
    requires forall y :: y in a ==> y.cryptoId != x.cryptoId || y.date != x.date
    ensures UniqueForecastDates(a + [x])
  {
    forall i, j | 0 <= i < j < |a + [x]|
      ensures (a + [x])[i].cryptoId != (a + [x])[j].cryptoId || (a + [x])[i].date != (a + [x])[j].date
    {
      if j == |a| { assert (a + [x])[i] == a[i] && a[i] in a; }
    }
  }

  /** Deleting rows keeps the remaining keys unique. */
  lemma {:induction false} OtherCryptosUnique(records: seq<StoredForecast>, cryptoId: int)
    requires UniqueForecastDates(records)
    ensures UniqueForecastDates(OtherCryptos(records, cryptoId))
  {
    if records != [] {
      var init := records[..|records| - 1];
      var x := records[|records| - 1];
      assert UniqueForecastDates(init);
      OtherCryptosUnique(init, cryptoId);
      forall y | y in OtherCryptos(init, cryptoId) ensures y.cryptoId != x.cryptoId || y.date != x.date {
        var k :| 0 <= k < |init| && init[k] == y;
        assert records[k] == y;
      }
      if x.cryptoId != cryptoId {
        UniqueSnoc(OtherCryptos(init, cryptoId), x);
      } else {
        assert OtherCryptos(records, cryptoId) == OtherCryptos(init, cryptoId) + [];
      }
    }
  }

  /** The table after a replace keeps its uniqueness constraint when the
      new rows have distinct dates. */
  lemma ReplaceKeepsUnique(records: seq<StoredForecast>, cryptoId: int, rows: seq<ForecastRow>,
                           cutoffDate: Date, horizonDays: int, modelRunId: Option<int>, now: int)
    requires UniqueForecastDates(records) && RowDatesDistinct(rows)
    ensures UniqueForecastDates(OtherCryptos(records, cryptoId)
                             + TagAll(rows, cryptoId, cutoffDate, horizonDays, modelRunId, now))
  {
    var a := OtherCryptos(records, cryptoId);
    var b := TagAll(rows, cryptoId, cutoffDate, horizonDays, modelRunId, now);
    var ab: seq<StoredForecast> := a + b;
    OtherCryptosUnique(records, cryptoId);
    forall i, j | 0 <= i < j < |ab|
      ensures ab[i].cryptoId != ab[j].cryptoId || ab[i].date != ab[j].date
    {
      if j < |a| {
        assert ab[i] == a[i] && ab[j] == a[j];
      } else if i < |a| {
        assert ab[i] == a[i] && a[i] in a;
        assert ab[j] == b[j - |a|];
      } else {
        assert ab[i] == b[i - |a|] && ab[j] == b[j - |a|];
      }
    }
  }

  /** Selecting from a concatenation selects from each part. */
  lemma {:induction false} SelectAppend(a: seq<StoredForecast>, b: seq<StoredForecast>, cryptoId: int, start: Option<Date>)
    ensures Select(a + b, cryptoId, start) == Select(a, cryptoId, start) + Select(b, cryptoId, start)
  {
    if b != [] {
      var init := b[..|b| - 1];
      assert (a + b)[..|a + b| - 1] == a + init;
      assert (a + b)[|a + b| - 1] == b[|b| - 1];
      SelectAppend(a, init, cryptoId, start);
    } else {
      assert a + b == a;
    }
  }

  /** Nothing is selected for an asset that has no rows. */
  lemma {:induction false} SelectAbsent(records: seq<StoredForecast>, cryptoId: int, start: Option<Date>)
    requires forall x :: x in records ==> x.cryptoId != cryptoId
    ensures Select(records, cryptoId, start) == []
  {
    if records != [] {
      assert records[|records| - 1] in records;
      SelectAbsent(records[..|records| - 1], cryptoId, start);
    }
  }

  /** Selecting everything of an asset from rows that all belong to it
      gives the rows back. */
  lemma {:induction false} SelectWhole(records: seq<StoredForecast>, cryptoId: int)
    requires forall x :: x in records ==> x.cryptoId == cryptoId
    ensures Select(records, cryptoId, None) == records
  {
    if records != [] {
      var init := records[..|records| - 1];
      assert records[|records| - 1] in records;
      SelectWhole(init, cryptoId);
      assert records == init + [records[|records| - 1]];
    }
  }

  /** Deleting one asset's rows does not change what is selected for
      another asset. */
  lemma {:induction false} SelectOtherCryptos(records: seq<StoredForecast>, cryptoId: int, other: int, start: Option<Date>)
    requires other != cryptoId
    ensures Select(OtherCryptos(records, cryptoId), other, start) == Select(records, other, start)
  {
    if records != [] {
      var init := records[..|records| - 1];
      var x := records[|records| - 1];
      SelectOtherCryptos(init, cryptoId, other, start);
      SelectAppend(OtherCryptos(init, cryptoId), if x.cryptoId != cryptoId then [x] else [], other, start);
      var tail := if x.cryptoId != cryptoId then [x] else [];
      assert Select(tail, other, start)
             == (if x.cryptoId == other && (start.Some? ==> x.date >= start.value) then [x] else []) by {
        if x.cryptoId != cryptoId {
          assert tail[..0] == [];
        }
      }
    }
  }

  /** Projecting the records built for `rows` gives the rows back. */
  lemma ProjectTagAll(rows: seq<ForecastRow>, cryptoId: int, cutoffDate: Date, horizonDays: int,
                      modelRunId: Option<int>, now: int)
    ensures ProjectAll(TagAll(rows, cryptoId, cutoffDate, horizonDays, modelRunId, now)) == rows
  {
  }

  /** A sequence already in strictly ascending key order is left as it is
      by sorting. */
  lemma {:induction false} SortStrictlySorted<T>(s: seq<T>, key: T -> int)
    requires StrictlySortedBy(s, key)
    ensures SortByKey(s, key) == s
  {
    if s != [] {
      SortStrictlySorted(s[1..], key);
    }
  }

  /** After a replace, the asset's rows are exactly the new rows, all
      carrying the same cutoff date, horizon and model run. */
  lemma ReplaceSelectsNewRows(records: seq<StoredForecast>, cryptoId: int, rows: seq<ForecastRow>,
                              cutoffDate: Date, horizonDays: int, modelRunId: Option<int>, now: int)
    ensures Select(OtherCryptos(records, cryptoId)
                   + TagAll(rows, cryptoId, cutoffDate, horizonDays, modelRunId, now), cryptoId, None)
            == TagAll(rows, cryptoId, cutoffDate, horizonDays, modelRunId, now)
  {
    var a := OtherCryptos(records, cryptoId);
    var b := TagAll(rows, cryptoId, cutoffDate, horizonDays, modelRunId, now);
    SelectAppend(a, b, cryptoId, None);
    SelectAbsent(a, cryptoId, None);
    SelectWhole(b, cryptoId);
  }

  /** Storing a forecast whose rows are in ascending date order and then
      fetching the asset's forecast gives the same rows back. */
  lemma StoreThenFetch(records: seq<StoredForecast>, cryptoId: int, rows: seq<ForecastRow>,
                       cutoffDate: Date, horizonDays: int, modelRunId: Option<int>, now: int)
    requires StrictlySortedBy(rows, RowDate)
    ensures FetchForecast(OtherCryptos(records, cryptoId)
                          + TagAll(rows, cryptoId, cutoffDate, horizonDays, modelRunId, now), cryptoId, None)
            == rows
  {
    ReplaceSelectsNewRows(records, cryptoId, rows, cutoffDate, horizonDays, modelRunId, now);
    ProjectTagAll(rows, cryptoId, cutoffDate, horizonDays, modelRunId, now);
    SortStrictlySorted(rows, RowDate);
  }

  /** After storing a non-empty forecast, the asset's meta answer is the
      cutoff date and horizon it was stored with. */
  lemma StoreThenMeta(records: seq<StoredForecast>, cryptoId: int, rows: seq<ForecastRow>,
                      cutoffDate: Date, horizonDays: int, modelRunId: Option<int>, now: int)
    requires rows != []
    ensures FetchMeta(OtherCryptos(records, cryptoId)
                      + TagAll(rows, cryptoId, cutoffDate, horizonDays, modelRunId, now), cryptoId)
            == (Some(cutoffDate), Some(horizonDays))
  {
    ReplaceSelectsNewRows(records, cryptoId, rows, cutoffDate, horizonDays, modelRunId, now);
  }

  /** A replace for one asset selects the same rows as before for any
      other asset. */
  lemma {:induction false} ReplaceSelectsSameOthers(records: seq<StoredForecast>, cryptoId: int, rows: seq<ForecastRow>,
                                  cutoffDate: Date, horizonDays: int, modelRunId: Option<int>, now: int,
                                  other: int, start: Option<Date>)
    requires other != cryptoId
    ensures Select(OtherCryptos(records, cryptoId)
                   + TagAll(rows, cryptoId, cutoffDate, horizonDays, modelRunId, now), other, start)
            == Select(records, other, start)
  {
    var a := OtherCryptos(records, cryptoId);
    var b := TagAll(rows, cryptoId, cutoffDate, horizonDays, modelRunId, now);
    SelectAppend(a, b, other, start);
    SelectAbsent(b, other, start);
    SelectOtherCryptos(records, cryptoId, other, start);
  }

  /** A replace for one asset leaves every other asset's forecast and meta
      answers as they were. */
  lemma ReplaceLeavesOthers(records: seq<StoredForecast>, cryptoId: int, rows: seq<ForecastRow>,
                            cutoffDate: Date, horizonDays: int, modelRunId: Option<int>, now: int,
                            other: int, start: Option<Date>)
    requires other != cryptoId
    ensures FetchForecast(OtherCryptos(records, cryptoId)
                          + TagAll(rows, cryptoId, cutoffDate, horizonDays, modelRunId, now), other, start)
            == FetchForecast(records, other, start)
    ensures FetchMeta(OtherCryptos(records, cryptoId)
                      + TagAll(rows, cryptoId, cutoffDate, horizonDays, modelRunId, now), other)
            == FetchMeta(records, other)
  {
    ReplaceSelectsSameOthers(records, cryptoId, rows, cutoffDate, horizonDays, modelRunId, now, other, start);
    ReplaceSelectsSameOthers(records, cryptoId, rows, cutoffDate, horizonDays, modelRunId, now, other, None);
  }

  /** Under the uniqueness constraint a fetched forecast has one row per
      date, in strictly ascending order. */
  lemma FetchStrictlyAscending(records: seq<StoredForecast>, cryptoId: int, start: Option<Date>)
    requires UniqueForecastDates(records)
    ensures StrictlySortedBy(FetchForecast(records, cryptoId, start), RowDate)
  {
    var sel := Select(records, cryptoId, start);
    var p := ProjectAll(sel);
    var r := FetchForecast(records, cryptoId, start);
    forall i, j | 0 <= i < j < |p| ensures p[i].date != p[j].date {
      SelectPositions(records, cryptoId, start, i, j);
    }
    PermutationKeepsKeysUnique(p, r, RowDate);
    SortedUniqueIsStrict(r, RowDate);
  }

  /** Two positions of a selection come from two positions of the table. */
  lemma {:induction false} SelectPositions(records: seq<StoredForecast>, cryptoId: int, start: Option<Date>, i: int, j: int)
    requires UniqueForecastDates(records)
    requires 0 <= i < j < |Select(records, cryptoId, start)|
    ensures Select(records, cryptoId, start)[i].date != Select(records, cryptoId, start)[j].date
  {
    var init := records[..|records| - 1];
    var x := records[|records| - 1];
    var sel := Select(records, cryptoId, start);
    assert UniqueForecastDates(init);
    if j < |Select(init, cryptoId, start)| {
      SelectPositions(init, cryptoId, start, i, j);
    } else {
      assert sel[j] == x;
      var y := Select(init, cryptoId, start)[i];
      assert sel[i] == y && y in Select(init, cryptoId, start);
      var k :| 0 <= k < |init| && init[k] == y;
      assert records[k] == y;
    }
  }
}
