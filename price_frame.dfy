/** `_build_price_frame` and `_build_return_series` of
    web/app/services/global_training.py (the same code appears in
    web/app/services/global_inference.py): the price rows of one asset,
    sorted by date, reindexed to one row per calendar day with gaps
    forward-filled, and the daily log returns that drop the first row. */
module PriceFrame {
  import opened Common
  import opened Series
  import opened Numerics

  /** A row of the daily frame. */
  datatype FrameRow = FrameRow(date: Date, price: real)

  /** A point of the return series. */
  datatype ReturnPoint = ReturnPoint(date: Date, value: real)

  /** Dates strictly increase along `points`. */
  ghost predicate Ascending(points: seq<PricePoint>)
  {
    forall i, j :: 0 <= i < j < |points| ==> points[i].date < points[j].date
  }

  lemma AscendingOf(points: seq<PricePoint>)
    requires StrictlySortedBy(points, PointDate)
    ensures Ascending(points)
  {
    forall i, j | 0 <= i < j < |points| ensures points[i].date < points[j].date {
      assert PointDate(points[i]) < PointDate(points[j]);
    }
  }

  /** The position of the last point dated on or before `d`. */
  function LastAtOrBefore(points: seq<PricePoint>, d: Date): (j: nat)
    requires points != [] && points[0].date <= d
    ensures j < |points| && points[j].date <= d
    ensures j + 1 == |points| || d < points[j + 1].date
    decreases |points|
  {
    if |points| == 1 || d < points[1].date then 0
    else 1 + LastAtOrBefore(points[1..], d)
  }

  /** `asfreq("D")` followed by `ffill()` on points in strictly ascending
      date order: every point stands for itself and the days up to the
      next point. */
  function Fill(points: seq<PricePoint>): (f: seq<FrameRow>)
    requires points != [] && Ascending(points)
    ensures |f| == points[|points| - 1].date - points[0].date + 1
    ensures forall k :: 0 <= k < |f| ==> f[k].date == points[0].date + k
    decreases |points|
  {
    if |points| == 1 then [FrameRow(points[0].date, points[0].price)]
    else
      var gap := points[1].date - points[0].date;
      var head := seq(gap, k requires 0 <= k < gap => FrameRow(points[0].date + k, points[0].price));
      head + Fill(points[1..])
  }

  /** The dates after the first point strictly increase as well. */
  lemma AscendingTail(points: seq<PricePoint>)
    requires points != [] && Ascending(points)
    ensures Ascending(points[1..])
  {
    forall i, j | 0 <= i < j < |points| - 1 ensures points[1..][i].date < points[1..][j].date {
      assert points[1..][i] == points[i + 1] && points[1..][j] == points[j + 1];
    }
  }

  /** The days before the second point repeat the first point. */
  lemma FillHead(points: seq<PricePoint>, k: int)
    requires |points| > 1 && Ascending(points)
    requires 0 <= k < points[1].date - points[0].date
    ensures k < |Fill(points)| && Fill(points)[k].price == points[0].price
    ensures LastAtOrBefore(points, points[0].date + k) == 0
  {
  }

  /** The days from the second point on are the fill of the rest. */
  lemma FillTail(points: seq<PricePoint>, k: int)
    requires |points| > 1 && Ascending(points)
    requires points[1].date - points[0].date <= k < |Fill(points)|
    ensures Ascending(points[1..])
    ensures Fill(points)[k] == Fill(points[1..])[k - (points[1].date - points[0].date)]
    ensures LastAtOrBefore(points, points[0].date + k) == 1 + LastAtOrBefore(points[1..], points[0].date + k)
  {
    AscendingTail(points);
  }

  /** Day `k` of the fill carries the price of the last point on or
      before it. */
  lemma {:induction false} FillPrice(points: seq<PricePoint>, k: int)
    requires points != [] && Ascending(points)
    requires 0 <= k < |Fill(points)|
    ensures Fill(points)[k].price == points[LastAtOrBefore(points, points[0].date + k)].price
    decreases |points|
  {
    if |points| > 1 {
      var gap := points[1].date - points[0].date;
      if k >= gap {
        FillTail(points, k);
        FillPrice(points[1..], k - gap);
        assert points[1].date + (k - gap) == points[0].date + k;
      } else {
        FillHead(points, k);
      }
    }
  }

  /** `_build_price_frame`: `None` for no rows, else the daily frame from
      the first to the last supplied date. Duplicate dates make `asfreq`
      raise; the prices table's uniqueness constraint rules them out. */
  function BuildPriceFrame(rows: seq<PricePoint>): (f: Option<seq<FrameRow>>)
    requires KeysUnique(rows, PointDate)
    ensures f.None? <==> rows == []
    ensures f.Some? ==> |f.value| >= 1
    ensures f.Some? ==> forall k :: 0 <= k < |f.value| ==> f.value[k].date == f.value[0].date + k
  {
    if rows == [] then None
    else
      var sorted := SortByKey(rows, PointDate);
      PermutationKeepsKeysUnique(rows, sorted, PointDate);
      SortedUniqueIsStrict(sorted, PointDate);
      AscendingOf(sorted);
      Some(Fill(sorted))
  }

  /** A point dated `points[j].date` is found at position `j`. */
  lemma {:induction false} LastAtOrBeforeOwnDate(points: seq<PricePoint>, j: int)
    requires Ascending(points) && 0 <= j < |points|
    ensures LastAtOrBefore(points, points[j].date) == j
  {
    if j > 0 {
      LastAtOrBeforeOwnDate(points[1..], j - 1);
    }
  }

  /** No point on or before `d` is later than the one found. */
  lemma LastAtOrBeforeIsLatest(points: seq<PricePoint>, d: Date, i: int)
    requires Ascending(points) && points != [] && points[0].date <= d
    requires 0 <= i < |points| && points[i].date <= d
    ensures points[i].date <= points[LastAtOrBefore(points, d)].date
  {
  }

  /** Day `k` of the fill carries the price of the latest point on or
      before it. */
  lemma FillForward(points: seq<PricePoint>, k: int) returns (j: int)
    requires points != [] && Ascending(points)
    requires 0 <= k < |Fill(points)|
    ensures 0 <= j < |points| && points[j].date <= Fill(points)[k].date
    ensures Fill(points)[k].price == points[j].price
    ensures forall q :: q in points && q.date <= Fill(points)[k].date ==> q.date <= points[j].date
  {
    var d := points[0].date + k;
    j := LastAtOrBefore(points, d);
    FillPrice(points, k);
    forall q | q in points && q.date <= d ensures q.date <= points[j].date {
      var i :| 0 <= i < |points| && points[i] == q;
      LastAtOrBeforeIsLatest(points, d, i);
    }
  }

  /** The fill runs from the first point's date to the last one's. */
  lemma FillSpan(points: seq<PricePoint>)
    requires points != [] && Ascending(points)
    ensures var f := Fill(points);
            f[0].date == points[0].date && f[|f| - 1].date == points[|points| - 1].date
            && forall q :: q in points ==> f[0].date <= q.date <= f[|f| - 1].date
  {
    var f := Fill(points);
    assert f[0].date == points[0].date && f[|f| - 1].date == points[|points| - 1].date;
    forall q | q in points ensures points[0].date <= q.date <= points[|points| - 1].date {
      var i :| 0 <= i < |points| && points[i] == q;
    }
  }

  /** Every point keeps its own price on its own day of the fill. */
  lemma FillKeepsPoint(points: seq<PricePoint>, p: PricePoint)
    requires points != [] && Ascending(points) && p in points
    ensures var f := Fill(points);
            0 <= p.date - f[0].date < |f| && f[p.date - f[0].date] == FrameRow(p.date, p.price)
  {
    var j :| 0 <= j < |points| && points[j] == p;
    FillSpan(points);
    var k := p.date - points[0].date;
    FillPrice(points, k);
    LastAtOrBeforeOwnDate(points, j);
  }

  /** The frame of `rows` is the fill of the same points in date order. */
  lemma FrameOfSorted(rows: seq<PricePoint>) returns (sorted: seq<PricePoint>)
    requires KeysUnique(rows, PointDate) && rows != []
    ensures sorted != [] && Ascending(sorted) && |sorted| == |rows|
    ensures forall p :: p in rows <==> p in sorted
    ensures BuildPriceFrame(rows) == Some(Fill(sorted))
  {
    sorted := SortByKey(rows, PointDate);
    PermutationKeepsKeysUnique(rows, sorted, PointDate);
    SortedUniqueIsStrict(sorted, PointDate);
    AscendingOf(sorted);
    forall p ensures p in rows <==> p in sorted {
      assert p in rows <==> p in multiset(rows);
      assert p in sorted <==> p in multiset(sorted);
    }
  }

  /** The frame runs from the earliest to the latest supplied date, one
      row per calendar day. */
  lemma FrameCoversDays(rows: seq<PricePoint>)
    requires KeysUnique(rows, PointDate) && rows != []
    ensures var f := BuildPriceFrame(rows).value;
            (forall p :: p in rows ==> f[0].date <= p.date <= f[|f| - 1].date)
            && (exists p :: p in rows && p.date == f[0].date)
            && (exists p :: p in rows && p.date == f[|f| - 1].date)
  {
    var sorted := FrameOfSorted(rows);
    FillSpan(sorted);
    assert sorted[0] in rows && sorted[|sorted| - 1] in rows;
  }

  /** The fill ends on the last point with its price. */
  lemma FillLast(points: seq<PricePoint>)
    requires points != [] && Ascending(points)
    ensures var f := Fill(points);
            f[|f| - 1] == FrameRow(points[|points| - 1].date, points[|points| - 1].price)
  {
    FillKeepsPoint(points, points[|points| - 1]);
  }

  /** The frame ends on the latest supplied day, with that day's price. */
  lemma FrameEndsOnLatest(rows: seq<PricePoint>) returns (latest: PricePoint)
    requires KeysUnique(rows, PointDate) && rows != []
    ensures latest in rows && forall q :: q in rows ==> q.date <= latest.date
    ensures var f := BuildPriceFrame(rows).value;
            f[|f| - 1] == FrameRow(latest.date, latest.price)
  {
    var sorted := FrameOfSorted(rows);
    latest := sorted[|sorted| - 1];
    FillLast(sorted);
    forall q | q in rows ensures q.date <= latest.date {
      assert q in sorted;
      var i :| 0 <= i < |sorted| && sorted[i] == q;
      if i < |sorted| - 1 {
        assert sorted[i].date < sorted[|sorted| - 1].date;
      }
    }
  }

  /** Strictly increasing dates span at least one day per point. */
  lemma {:induction false} AscendingSpan(points: seq<PricePoint>, i: int)
    requires Ascending(points) && 0 <= i < |points|
    ensures points[i].date - points[0].date >= i
  {
    if i > 0 {
      AscendingSpan(points, i - 1);
      assert points[i - 1].date < points[i].date;
    }
  }

  /** The frame has a row for every supplied day at least, so it is never
      shorter than the input. */
  lemma FrameAtLeastRows(rows: seq<PricePoint>)
    requires KeysUnique(rows, PointDate) && rows != []
    ensures |BuildPriceFrame(rows).value| >= |rows|
  {
    var sorted := FrameOfSorted(rows);
    AscendingSpan(sorted, |sorted| - 1);
  }

  /** A supplied day keeps its own price. */
  lemma FrameKeepsSuppliedPrices(rows: seq<PricePoint>, p: PricePoint)
    requires KeysUnique(rows, PointDate) && p in rows
    ensures var f := BuildPriceFrame(rows).value;
            0 <= p.date - f[0].date < |f| && f[p.date - f[0].date] == FrameRow(p.date, p.price)
  {
    var sorted := FrameOfSorted(rows);
    FillKeepsPoint(sorted, p);
  }

  /** A day without a price takes the price of the latest supplied day
      before it. */
  lemma FrameFillsForward(rows: seq<PricePoint>, k: int)
    requires KeysUnique(rows, PointDate) && rows != []
    requires 0 <= k < |BuildPriceFrame(rows).value|
    ensures var f := BuildPriceFrame(rows).value;
            exists p :: p in rows && p.date <= f[k].date && f[k].price == p.price
              && forall q :: q in rows && q.date <= f[k].date ==> q.date <= p.date
  {
    var sorted := FrameOfSorted(rows);
    var j := FillForward(sorted, k);
    assert sorted[j] in rows;
  }

  /** `_build_return_series`: the daily log returns, which exist from the
      second frame row on (`diff` leaves the first row empty and
      `dropna` removes it); `None` when nothing is left. Prices are taken
      to be positive, so no other row is dropped. */
  function ReturnSeries(frame: seq<FrameRow>, m: Primitives): (r: Option<seq<ReturnPoint>>)
    ensures r.None? <==> |frame| <= 1
    ensures r.Some? ==> |r.value| == |frame| - 1
    ensures r.Some? ==> forall k :: 0 <= k < |r.value| ==>
              r.value[k] == ReturnPoint(frame[k + 1].date, m.ln(frame[k + 1].price) - m.ln(frame[k].price))
  {
    if |frame| <= 1 then None
    else
      Some(seq(|frame| - 1, k requires 0 <= k < |frame| - 1 =>
        ReturnPoint(frame[k + 1].date, m.ln(frame[k + 1].price) - m.ln(frame[k].price))))
  }
}
