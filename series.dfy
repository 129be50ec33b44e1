/** The price-series helpers of web/app/services/series.py: parsing the
    requested day window and reading one asset's price history. */
module Series {
  import opened Common
  import opened Text

  /** `clamp_days`: the digits of `daysRaw` (0 when it is not a digit
      string), capped at `maxDays`. */
  function ClampDays(daysRaw: string, maxDays: int): (r: int)
    ensures !IsDigits(daysRaw) ==> r == Min(0, maxDays)
    ensures IsDigits(daysRaw) ==> r == Min(ParseDigits(daysRaw), maxDays)
    ensures r <= maxDays
    ensures maxDays >= 0 ==> 0 <= r <= maxDays
  {
    var days := if IsDigits(daysRaw) then ParseDigits(daysRaw) else 0;
    if days > maxDays then maxDays else days
  }

  /** The four cases of tests/test_series.py. */
  lemma ClampDaysExamples()
    ensures ClampDays("30", 10) == 10
    ensures ClampDays("7", 365) == 7
    ensures ClampDays("", 365) == 0
    ensures ClampDays("abc", 365) == 0
  {
    assert ParseDigits("30") == 30 by { assert "30"[..1] == "3"; }
    assert !IsDigits("abc") by { assert !IsDigit("abc"[0]); }
  }

  /** A row of the `prices` table. */
  datatype PriceRow = PriceRow(cryptoId: int, date: Date, price: real)

  /** One element of what `fetch_price_series` returns. */
  datatype PricePoint = PricePoint(date: Date, price: real)

  function PointDate(p: PricePoint): int { p.date }

  /** The table constraint `uq_price_crypto_date`. */
  ghost predicate UniqueCryptoDate(prices: seq<PriceRow>)
  {
    forall i, j :: 0 <= i < j < |prices| ==>
      prices[i].cryptoId != prices[j].cryptoId || prices[i].date != prices[j].date
  }

  /** The `WHERE` part of the query: rows of `cryptoId`, from `since` on. */
  function SelectPrices(prices: seq<PriceRow>, cryptoId: int, since: Option<Date>): (r: seq<PriceRow>)
    ensures forall x :: x in r <==>
      x in prices && x.cryptoId == cryptoId && (since.Some? ==> x.date >= since.value)
    ensures |r| <= |prices|
  {
    if prices == [] then []
    else
      var rest := SelectPrices(prices[1..], cryptoId, since);
      assert forall x :: x in prices <==> x == prices[0] || x in prices[1..];
      var x := prices[0];
      if x.cryptoId == cryptoId && (since.Some? ==> x.date >= since.value) then [x] + rest else rest
  }

  function ToPoints(rows: seq<PriceRow>): (r: seq<PricePoint>)
    ensures |r| == |rows|
    ensures forall i :: 0 <= i < |rows| ==> r[i] == PricePoint(rows[i].date, rows[i].price)
  {
    seq(|rows|, i requires 0 <= i < |rows| => PricePoint(rows[i].date, rows[i].price))
  }

  /** `fetch_price_series`: the asset's prices in ascending date order,
      restricted to the last `days` days before `today` when `days > 0`.
      `today` stands for `date.today()`. */
  function FetchPriceSeries(prices: seq<PriceRow>, cryptoId: int, days: int, today: Date): (r: seq<PricePoint>)
    ensures SortedBy(r, PointDate)
    ensures multiset(r) == multiset(ToPoints(SelectPrices(prices, cryptoId, if days > 0 then Some(today - days) else None)))
    ensures days > 0 ==> forall i :: 0 <= i < |r| ==> r[i].date >= today - days
  {
    var since := if days > 0 then Some(today - days) else None;
    var selected := ToPoints(SelectPrices(prices, cryptoId, since));
    var r := SortByKey(selected, PointDate);
    assert forall i :: 0 <= i < |r| ==> r[i].date >= today - days || days <= 0 by {
      forall i | 0 <= i < |r| && days > 0 ensures r[i].date >= today - days {
        assert r[i] in multiset(selected);
        var k :| 0 <= k < |selected| && selected[k] == r[i];
      }
    }
    r
  }

  /** Selecting from a table that keeps its uniqueness constraint gives
      rows with pairwise different dates. */
  lemma {:induction false} SelectedDatesUnique(prices: seq<PriceRow>, cryptoId: int, since: Option<Date>)
    requires UniqueCryptoDate(prices)
    ensures KeysUnique(ToPoints(SelectPrices(prices, cryptoId, since)), PointDate)
  {
    if prices != [] {
      SelectedDatesUnique(prices[1..], cryptoId, since);
      var rest := SelectPrices(prices[1..], cryptoId, since);
      forall y | y in rest ensures y.date != prices[0].date || prices[0].cryptoId != cryptoId {
        var k :| 1 <= k < |prices| && prices[k] == y by { assert y in prices[1..]; }
      }
    }
  }

  /** Under the table's uniqueness constraint the series is strictly
      ascending: one price per date. */
  lemma FetchPriceSeriesStrictlyAscending(prices: seq<PriceRow>, cryptoId: int, days: int, today: Date)
    requires UniqueCryptoDate(prices)
    ensures StrictlySortedBy(FetchPriceSeries(prices, cryptoId, days, today), PointDate)
  {
    var since := if days > 0 then Some(today - days) else None;
    SelectedDatesUnique(prices, cryptoId, since);
    var r := FetchPriceSeries(prices, cryptoId, days, today);
    PermutationKeepsKeysUnique(ToPoints(SelectPrices(prices, cryptoId, since)), r, PointDate);
    SortedUniqueIsStrict(r, PointDate);
  }
}
