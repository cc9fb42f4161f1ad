/** The portfolio forecast: per-ticker bands carried forward to every forecast date and added up. */
module Forecast {
  import opened Wrappers
  import opened Series

  datatype Band = Band(predicted: real, lower: real, upper: real)

  /** One aggregated point, in cents. */
  datatype Point = Point(date: int, predicted: int, lower: int, upper: int)

  datatype Holding = Holding(ticker: string, qty: real)

  /** Each ticker's latest forecast run in date order; every row has a band. */
  type Runs = map<string, seq<Dated<Band>>>
  type BandMaps = map<string, map<int, Band>>

  ghost predicate Ordered(runs: Runs) {
    forall t :: t in runs ==> Ascending(runs[t]) && forall i :: 0 <= i < |runs[t]| ==> runs[t][i].value.Some?
  }

  ghost predicate MapsIndex(maps: BandMaps, runs: Runs) {
    maps.Keys == runs.Keys && forall t :: t in runs ==> Indexes(maps[t], runs[t])
  }

  ghost predicate IsSeries(dates: seq<int>, runs: Runs) {
    Increasing(dates) && forall d :: d in dates <==> exists t :: t in runs && RowOn(runs[t], d)
  }

  // ------------------------------------------------------------- reference

  function Share(h: Holding, runs: Runs, d: int): Option<Band> {
    if h.ticker in runs then AsOf(runs[h.ticker], d) else None
  }

  function Plus(total: Band, qty: real, band: Band): Band {
    Band(total.predicted + qty * band.predicted, total.lower + qty * band.lower, total.upper + qty * band.upper)
  }

  /** The portfolio's band on a date, each holding at its forecast as of that date. */
  function Total(holdings: seq<Holding>, runs: Runs, d: int): Band {
    if holdings == [] then Band(0.0, 0.0, 0.0)
    else
      var h := holdings[|holdings| - 1];
      var rest, band := Total(holdings[..|holdings| - 1], runs, d), Share(h, runs, d);
      if band.Some? then Plus(rest, h.qty, band.value) else rest
  }

  function Points(holdings: seq<Holding>, runs: Runs, dates: seq<int>): seq<Point> {
    if dates == [] then []
    else
      var d := dates[|dates| - 1];
      var total := Total(holdings, runs, d);
      Points(holdings, runs, dates[..|dates| - 1])
      + if total.predicted > 0.0 then [Point(d, Cents(total.predicted), Cents(total.lower), Cents(total.upper))] else []
  }

  function WithShare(total: Band, h: Holding, runs: Runs, d: int): Band {
    var band := Share(h, runs, d);
    if band.Some? then Plus(total, h.qty, band.value) else total
  }

  lemma SharesCommute(total: Band, h: Holding, g: Holding, runs: Runs, d: int)
    ensures WithShare(WithShare(total, h, runs, d), g, runs, d) == WithShare(WithShare(total, g, runs, d), h, runs, d)
  {
    hide Share;
  }

  lemma {:induction false} HoldingAnywhere(before: seq<Holding>, h: Holding, after: seq<Holding>, runs: Runs, d: int)
    ensures Total(before + [h] + after, runs, d) == WithShare(Total(before + after, runs, d), h, runs, d)
  {
    hide Share, Plus;
    if after == [] {
      assert before + [h] + after == before + [h] && before + after == before;
      assert (before + [h])[..|before|] == before;
    } else {
      var last, most := after[|after| - 1], after[..|after| - 1];
      HoldingAnywhere(before, h, most, runs, d);
      assert (before + [h] + after)[..|before| + |after|] == before + [h] + most;
      assert (before + after)[..|before| + |most|] == before + most;
      SharesCommute(Total(before + most, runs, d), h, last, runs, d);
    }
  }

  lemma WithShareIs(without: Band, h: Holding, runs: Runs, d: int)
    ensures var with := WithShare(without, h, runs, d);
            if h.ticker in runs && AsOf(runs[h.ticker], d).Some? then
              var band := AsOf(runs[h.ticker], d).value;
              && with.predicted == without.predicted + h.qty * band.predicted
              && with.lower == without.lower + h.qty * band.lower
              && with.upper == without.upper + h.qty * band.upper
            else with == without
  {
    hide AsOf;
  }

  /** Without holdings there is nothing; a holding, wherever it is listed, adds its quantity times its ticker's as-of
      forecast, if there is one. */
  lemma HoldingAddsItsShare(before: seq<Holding>, h: Holding, after: seq<Holding>, runs: Runs, d: int)
    ensures Total([], runs, d) == Band(0.0, 0.0, 0.0)
    ensures var with, without := Total(before + [h] + after, runs, d), Total(before + after, runs, d);
            if h.ticker in runs && AsOf(runs[h.ticker], d).Some? then
              var band := AsOf(runs[h.ticker], d).value;
              && with.predicted == without.predicted + h.qty * band.predicted
              && with.lower == without.lower + h.qty * band.lower
              && with.upper == without.upper + h.qty * band.upper
            else with == without
  {
    HoldingAnywhere(before, h, after, runs, d);
    assert Total([], runs, d) == Band(0.0, 0.0, 0.0);
    hide *;
    WithShareIs(Total(before + after, runs, d), h, runs, d);
  }

  ghost predicate HasPoint(points: seq<Point>, d: int) {
    exists i :: 0 <= i < |points| && points[i].date == d
  }

  /** The points are the dates with a positive predicted total, each with its totals in cents. */
  ghost predicate ArePoints(points: seq<Point>, holdings: seq<Holding>, runs: Runs, dates: seq<int>) {
    && (forall i :: 0 <= i < |points| ==> IsPoint(points[i], Total(holdings, runs, points[i].date)))
    && (forall d :: HasPoint(points, d) <==> d in dates && Total(holdings, runs, d).predicted > 0.0)
  }

  predicate IsPoint(point: Point, total: Band) {
    && point.predicted == Cents(total.predicted) && point.lower == Cents(total.lower)
    && point.upper == Cents(total.upper)
  }

  lemma {:induction false} PointsAre(holdings: seq<Holding>, runs: Runs, dates: seq<int>)
    ensures ArePoints(Points(holdings, runs, dates), holdings, runs, dates)
  {
    if dates != [] {
      var earlier, d := dates[..|dates| - 1], dates[|dates| - 1];
      PointsAre(holdings, runs, earlier);
      var total := Total(holdings, runs, d);
      hide Total, Cents, ArePoints;
      var before, point := Points(holdings, runs, earlier), Point(d, Cents(total.predicted), Cents(total.lower),
                                                                  Cents(total.upper));
      assert dates == earlier + [d] && before + [] == before;
      OneMoreDate(before, point, holdings, runs, earlier);
    }
  }

  lemma OneMoreDate(before: seq<Point>, point: Point, holdings: seq<Holding>, runs: Runs, earlier: seq<int>)
    requires ArePoints(before, holdings, runs, earlier) && IsPoint(point, Total(holdings, runs, point.date))
    ensures ArePoints(if Total(holdings, runs, point.date).predicted > 0.0 then before + [point] else before,
                      holdings, runs, earlier + [point.date])
  {
    hide Total, IsPoint, HasPoint;
    PointAppend(before, point);
  }

  lemma PointAppend(points: seq<Point>, point: Point)
    ensures forall e :: HasPoint(points + [point], e) <==> HasPoint(points, e) || e == point.date
  {
    var more := points + [point];
    forall e ensures HasPoint(more, e) <==> HasPoint(points, e) || e == point.date {
      if i :| 0 <= i < |points| && points[i].date == e {
        assert more[i].date == e;
      }
      assert more[|points|].date == point.date;
    }
  }

  // ------------------------------------------------------------ streaming

  /** Forecasts last known after a date: exactly the as-of ones, for the holdings' tickers. */
  ghost predicate Known(known: map<string, Band>, holdings: seq<Holding>, n: nat, runs: Runs, d: int)
    requires n <= |holdings|
  {
    forall i :: 0 <= i < n && holdings[i].ticker in runs ==>
      var t := holdings[i].ticker;
      AsOf(runs[t], d) == if t in known then Some(known[t]) else None
  }

  ghost predicate Distinct(holdings: seq<Holding>) {
    forall i, j :: 0 <= i < j < |holdings| ==> holdings[i].ticker != holdings[j].ticker
  }

  /** On a date with its own row a ticker's as-of forecast is that row's; otherwise it is unchanged since any earlier
      date with no row in between. */
  lemma {:induction false} NothingBetween(rows: seq<Dated<Band>>, d: int, e: int)
    requires d <= e && forall i :: 0 <= i < |rows| ==> rows[i].date <= d || e < rows[i].date
    ensures AsOf(rows, d) == AsOf(rows, e)
  {
    if rows != [] { NothingBetween(rows[..|rows| - 1], d, e); }
  }

  lemma {:induction false} NothingYet(rows: seq<Dated<Band>>, d: int)
    requires forall i :: 0 <= i < |rows| ==> d < rows[i].date
    ensures AsOf(rows, d) == None
  {
    if rows != [] { NothingYet(rows[..|rows| - 1], d); }
  }

  lemma {:induction false} OwnRow(rows: seq<Dated<Band>>, d: int)
    requires RowOn(rows, d) && forall i :: 0 <= i < |rows| ==> rows[i].value.Some?
    ensures AsOf(rows, d).Some?
  {
    var last, before := rows[|rows| - 1], rows[..|rows| - 1];
    if last.date != d {
      var i :| 0 <= i < |rows| && rows[i].date == d;
      assert before[i].date == d;
      OwnRow(before, d);
    }
  }

  /** Between two neighbouring dates of the series no ticker has a row. */
  lemma StepInSeries(dates: seq<int>, runs: Runs, k: nat, t: string)
    requires IsSeries(dates, runs) && k < |dates| && t in runs && !RowOn(runs[t], dates[k])
    ensures AsOf(runs[t], dates[k]) == if k == 0 then None else AsOf(runs[t], dates[k - 1])
  {
    var rows := runs[t];
    forall i | 0 <= i < |rows| ensures dates[k] < rows[i].date || (k > 0 && rows[i].date <= dates[k - 1]) {
      assert RowOn(rows, rows[i].date);
      assert rows[i].date in dates;
      var j :| 0 <= j < |dates| && dates[j] == rows[i].date;
      assert j != k;
      if k > 0 { assert j < k ==> dates[j] <= dates[k - 1]; }
    }
    if k == 0 { NothingYet(rows, dates[0]); } else { NothingBetween(rows, dates[k - 1], dates[k]); }
  }

  method BuildMaps(runs: Runs) returns (maps: BandMaps)
    requires Ordered(runs)
    ensures MapsIndex(maps, runs)
  {
    maps := map[];
    var left := runs.Keys;
    while left != {}
      invariant left <= runs.Keys && maps.Keys == runs.Keys - left
      invariant forall t :: t in maps ==> Indexes(maps[t], runs[t])
      decreases |left|
    {
      var t :| t in left;
      left := left - {t};
      var m := IndexByDate(runs[t]);
      maps := maps[t := m];
    }
  }

  /** A later row for the same date wins. */
  method IndexByDate(rows: seq<Dated<Band>>) returns (m: map<int, Band>)
    requires Ascending(rows) && forall i :: 0 <= i < |rows| ==> rows[i].value.Some?
    ensures Indexes(m, rows)
  {
    m := map[];
    for i := 0 to |rows|
      invariant Indexes(m, rows[..i])
    {
      assert rows[..i + 1] == rows[..i] + [rows[i]];
      IndexesExtend(m, rows[..i], rows[i], rows[i].value);
      m := m[rows[i].date := rows[i].value.value];
    }
    assert rows[..|rows|] == rows;
  }

  method ForecastDates(maps: BandMaps, ghost runs: Runs) returns (dates: seq<int>)
    requires Ordered(runs) && MapsIndex(maps, runs)
    ensures IsSeries(dates, runs)
  {
    var all := set t, d | t in maps && d in maps[t] :: d;
    dates := SortedDates(all);
    forall d ensures d in dates <==> exists t :: t in runs && RowOn(runs[t], d) {
      if d in dates {
        var t :| t in maps && d in maps[t];
        assert RowOn(runs[t], d);
      }
      if t :| t in runs && RowOn(runs[t], d) {
        OwnRow(runs[t], d);
        assert d in maps[t];
      }
    }
  }

  /** The streaming pass over the dates, with the last known band of each ticker. */
  method Aggregate(holdings: seq<Holding>, maps: BandMaps, dates: seq<int>, ghost runs: Runs)
    returns (points: seq<Point>)
    requires Ordered(runs) && MapsIndex(maps, runs) && IsSeries(dates, runs) && Distinct(holdings)
    ensures points == Points(holdings, runs, dates)
  {
    hide AsOf, Cents, Plus, Ordered;
    points := [];
    var known: map<string, Band> := map[];
    for k := 0 to |dates|
      invariant points == Points(holdings, runs, dates[..k])
      invariant if k == 0 then known == map[] else Known(known, holdings, |holdings|, runs, dates[k - 1])
    {
      var total;
      known, total := AddUp(holdings, maps, dates, k, known, runs);
      assert dates[..k + 1][..k] == dates[..k];
      if total.predicted > 0.0 {
        points := points + [Point(dates[k], Cents(total.predicted), Cents(total.lower), Cents(total.upper))];
      }
    }
    assert dates[..|dates|] == dates;
  }

  method AddUp(holdings: seq<Holding>, maps: BandMaps, dates: seq<int>, k: nat, before: map<string, Band>,
               ghost runs: Runs)
    returns (known: map<string, Band>, total: Band)
    requires Ordered(runs) && MapsIndex(maps, runs) && IsSeries(dates, runs) && Distinct(holdings) && k < |dates|
    requires if k == 0 then before == map[] else Known(before, holdings, |holdings|, runs, dates[k - 1])
    ensures Known(known, holdings, |holdings|, runs, dates[k]) && total == Total(holdings, runs, dates[k])
  {
    hide AsOf, Plus, IsSeries, RowOn;
    var d := dates[k];
    known, total := before, Band(0.0, 0.0, 0.0);
    for i := 0 to |holdings|
      invariant Known(known, holdings, i, runs, d)
      invariant forall j :: i <= j < |holdings| ==>
                  (holdings[j].ticker in known <==> holdings[j].ticker in before)
                  && (holdings[j].ticker in known ==> known[holdings[j].ticker] == before[holdings[j].ticker])
      invariant total == Total(holdings[..i], runs, d)
    {
      var h := holdings[i];
      assert holdings[..i + 1][..i] == holdings[..i];
      if h.ticker in maps {
        var m, vals := maps[h.ticker], None;
        if RowOn(runs[h.ticker], d) { OwnRow(runs[h.ticker], d); } else { StepInSeries(dates, runs, k, h.ticker); }
        if d in m {
          vals := Some(m[d]);
          known := known[h.ticker := m[d]];
        } else if h.ticker in known {
          vals := Some(known[h.ticker]);
        }
        if vals.Some? { total := Plus(total, h.qty, vals.value); }
      }
    }
    assert holdings[..|holdings|] == holdings;
  }

  method BuildForecast(holdings: seq<Holding>, runs: Runs) returns (dates: seq<int>, points: seq<Point>)
    requires Ordered(runs) && Distinct(holdings)
    ensures IsSeries(dates, runs) && points == Points(holdings, runs, dates)
    ensures ArePoints(points, holdings, runs, dates)
  {
    hide Ordered, ArePoints;
    var maps := BuildMaps(runs);
    dates := ForecastDates(maps, runs);
    points := Aggregate(holdings, maps, dates, runs);
    PointsAre(holdings, runs, dates);
  }

  // ----------------------------------------------------------------- bands

  ghost predicate BandsOrdered(runs: Runs) {
    forall t, i :: t in runs && 0 <= i < |runs[t]| && runs[t][i].value.Some? ==> InOrder(runs[t][i].value.value)
  }

  predicate InOrder(b: Band) {
    b.lower <= b.predicted <= b.upper
  }

  lemma {:induction false} AsOfInOrder(rows: seq<Dated<Band>>, d: int)
    requires forall i :: 0 <= i < |rows| && rows[i].value.Some? ==> InOrder(rows[i].value.value)
    ensures AsOf(rows, d).Some? ==> InOrder(AsOf(rows, d).value)
  {
    if rows != [] { AsOfInOrder(rows[..|rows| - 1], d); }
  }

  lemma PlusInOrder(total: Band, qty: real, band: Band)
    requires InOrder(total) && InOrder(band) && qty >= 0.0
    ensures InOrder(Plus(total, qty, band))
  {
    ScaleKeepsOrder(qty, band.lower, band.predicted);
    ScaleKeepsOrder(qty, band.predicted, band.upper);
  }

  lemma ScaleKeepsOrder(qty: real, x: real, y: real)
    requires qty >= 0.0 && x <= y
    ensures qty * x <= qty * y
  {
    assert qty * (y - x) == qty * y - qty * x;
  }

  lemma {:induction false} TotalInOrder(holdings: seq<Holding>, runs: Runs, d: int)
    requires BandsOrdered(runs) && forall i :: 0 <= i < |holdings| ==> holdings[i].qty >= 0.0
    ensures InOrder(Total(holdings, runs, d))
  {
    if holdings != [] {
      var h, before := holdings[|holdings| - 1], holdings[..|holdings| - 1];
      TotalInOrder(before, runs, d);
      if h.ticker in runs {
        AsOfInOrder(runs[h.ticker], d);
        var band := Share(h, runs, d);
        if band.Some? { PlusInOrder(Total(before, runs, d), h.qty, band.value); }
      }
    }
  }

  ghost predicate AllInOrder(points: seq<Point>) {
    forall i :: 0 <= i < |points| ==>
      0 <= points[i].predicted && points[i].lower <= points[i].predicted <= points[i].upper
  }

  lemma RoundedInOrder(total: Band)
    requires InOrder(total) && total.predicted > 0.0
    ensures 0 <= Cents(total.predicted) && Cents(total.lower) <= Cents(total.predicted) <= Cents(total.upper)
  {
    hide HalfEven;
    HalfEvenIsMonotone(total.lower * 100.0, total.predicted * 100.0);
    HalfEvenIsMonotone(total.predicted * 100.0, total.upper * 100.0);
    HalfEvenIsMonotone(0.0, total.predicted * 100.0);
    HalfEvenOfZero();
  }

  /** Lower, predicted and upper stay in order on every point, also after rounding. */
  lemma {:induction false} PointsInOrder(holdings: seq<Holding>, runs: Runs, dates: seq<int>)
    requires BandsOrdered(runs) && forall i :: 0 <= i < |holdings| ==> holdings[i].qty >= 0.0
    ensures AllInOrder(Points(holdings, runs, dates))
  {
    if dates != [] {
      hide BandsOrdered, Total, Cents, InOrder;
      var d := dates[|dates| - 1];
      PointsInOrder(holdings, runs, dates[..|dates| - 1]);
      TotalInOrder(holdings, runs, d);
      var total := Total(holdings, runs, d);
      if total.predicted > 0.0 { RoundedInOrder(total); }
    }
  }

  lemma HalfEvenOfZero()
    ensures HalfEven(0.0) == 0
  {
    assert (0.0).Floor == 0;
  }
}
