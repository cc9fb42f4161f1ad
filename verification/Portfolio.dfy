/** The daily portfolio series: forward-filled closes, value against cost, cash-flow-neutral profit, drawdown. */
module Portfolio {
  import opened Wrappers
  import opened Series

  /** Close rows per ticker in date order, as the store returns them. */
  type Quotes = map<string, seq<Dated<real>>>
  type CloseMaps = map<string, map<int, real>>

  /** A purchase as recorded (an unknown price is 0) and the lot it becomes. */
  datatype Lot = Lot(ticker: string, qty: real, date: int, price: real)

  /** One day of the series, in cents. */
  datatype Day = Day(date: int, value: int, invested: int)

  ghost predicate Ordered(quotes: Quotes) {
    forall t :: t in quotes ==> Ascending(quotes[t])
  }

  // -------------------------------------------------------------- pricing

  /** The price the series uses: the as-of close on the ticker's own dates and after its last one. */
  function PriceOn(rows: seq<Dated<real>>, d: int): Option<real> {
    if RowOn(rows, d) || (rows != [] && rows[|rows| - 1].date < d) then AsOf(rows, d) else None
  }

  function Lookup(m: map<int, real>, d: int): Option<real> {
    if d in m then Some(m[d]) else None
  }

  lemma {:induction false} AsOfStays(rows: seq<Dated<real>>, d: int, e: int)
    requires d <= e && AsOf(rows, d).Some?
    ensures AsOf(rows, e).Some?
  {
    var last := rows[|rows| - 1];
    if !(last.date <= d && last.value.Some?) {
      AsOfStays(rows[..|rows| - 1], d, e);
    }
  }

  /** A ticker's map ends on its last row, or is empty because the ticker never closed. */
  lemma MapEndsOnLastRow(rows: seq<Dated<real>>, m: map<int, real>)
    requires Ascending(rows) && Indexes(m, rows) && rows != []
    ensures forall d :: d in m ==> d <= rows[|rows| - 1].date
    ensures m != map[] <==> rows[|rows| - 1].date in m
  {
    var end := rows[|rows| - 1].date;
    assert RowOn(rows, end);
    forall d | d in m ensures d <= end && end in m {
      assert RowOn(rows, d);
      AsOfStays(rows, d, end);
    }
    assert m != map[] ==> exists d :: d in m;
  }

  method Latest(m: map<int, real>) returns (end: int)
    requires m != map[]
    ensures end in m && forall d :: d in m ==> d <= end
  {
    EmptyOrMember(m.Keys);
    end :| end in m.Keys;
    var left := m.Keys - {end};
    while left != {}
      invariant end in m && left <= m.Keys
      invariant forall d :: d in m ==> d in left || d <= end
      decreases |left|
    {
      EmptyOrMember(left);
      var d :| d in left;
      if d > end { end := d; }
      left := left - {d};
    }
  }

  /** Carrying one ticker's last close to the end of the series. */
  method CarryForward(m: map<int, real>, dates: seq<int>, ghost rows: seq<Dated<real>>) returns (out: map<int, real>)
    requires Increasing(dates) && Ascending(rows) && rows != [] && Indexes(m, rows)
    requires forall d :: d in m ==> d in dates
    ensures forall d :: d in m ==> d in out && out[d] == m[d]
    ensures forall d :: d in out && d !in m ==> d in dates && rows[|rows| - 1].date < d
    ensures forall d :: d in dates ==> Lookup(out, d) == PriceOn(rows, d)
  {
    out := m;
    MapEndsOnLastRow(rows, m);
    ghost var last := rows[|rows| - 1].date;
    assert RowOn(rows, last);
    if m == map[] || |dates| == 0 {
      forall d | d in dates ensures PriceOn(rows, d) == None {
        UnpricedTicker(rows, m, d);
      }
      return;
    }
    var end := Latest(m);
    assert end == last;
    var seriesEnd := dates[|dates| - 1];
    if end < seriesEnd {
      var carry := m[end];
      for i := 0 to |dates|
        invariant forall d :: d in m ==> d in out && out[d] == m[d]
        invariant forall d :: d in out && d !in m ==> d in dates && end < d && out[d] == carry
        invariant forall k :: 0 <= k < i && end < dates[k] ==> dates[k] in out
      {
        var d := dates[i];
        if d > end && d !in out { out := out[d := carry]; }
      }
    }
    forall d | d in dates ensures Lookup(out, d) == PriceOn(rows, d) {
      PricedTicker(rows, m, d);
    }
  }

  lemma UnpricedTicker(rows: seq<Dated<real>>, m: map<int, real>, d: int)
    requires Ascending(rows) && rows != [] && Indexes(m, rows) && m == map[]
    ensures PriceOn(rows, d) == None
  {
    var last := rows[|rows| - 1].date;
    assert RowOn(rows, last) && last !in m;
    if last < d { AsOfBeyond(rows, last, d); }
    assert d !in m;
    assert RowOn(rows, d) ==> AsOf(rows, d).None?;
  }

  lemma PricedTicker(rows: seq<Dated<real>>, m: map<int, real>, d: int)
    requires Ascending(rows) && rows != [] && Indexes(m, rows) && rows[|rows| - 1].date in m
    ensures PriceOn(rows, d) == if rows[|rows| - 1].date < d then Some(m[rows[|rows| - 1].date]) else Lookup(m, d)
  {
    var last := rows[|rows| - 1].date;
    assert RowOn(rows, last);
    if last < d { AsOfBeyond(rows, last, d); }
    assert RowOn(rows, d) ==> (d in m <==> AsOf(rows, d).Some?);
  }

  /** On the last date of the series a ticker that ever closed is priced at its last real close. */
  lemma PricedAtLastCloseAtEnd(rows: seq<Dated<real>>, dates: seq<int>)
    requires Ascending(rows) && rows != [] && Increasing(dates) && dates != []
    requires forall d :: RowOn(rows, d) && AsOf(rows, d).Some? ==> d in dates
    requires exists i :: 0 <= i < |rows| && rows[i].value.Some?
    ensures exists i :: 0 <= i < |rows| && rows[i].value.Some? && PriceOn(rows, dates[|dates| - 1]) == rows[i].value
                        && forall j :: i < j < |rows| ==> rows[j].value.None?
  {
    var i := LastReal(rows, |rows|);
    var last, end := rows[|rows| - 1].date, dates[|dates| - 1];
    AsOfIsLastReal(rows, i, last);
    assert RowOn(rows, last);
    var k :| 0 <= k < |dates| && dates[k] == last;
    assert last <= end;
    AsOfBeyond(rows, last, end);
  }

  lemma {:induction false} LastReal(rows: seq<Dated<real>>, n: nat) returns (i: nat)
    requires n <= |rows| && exists k :: 0 <= k < n && rows[k].value.Some?
    ensures i < n && rows[i].value.Some? && forall j :: i < j < n ==> rows[j].value.None?
  {
    i := n - 1;
    if rows[n - 1].value.None? { i := LastReal(rows, n - 1); }
  }

  lemma {:induction false} AsOfIsLastReal(rows: seq<Dated<real>>, i: nat, d: int)
    requires i < |rows| && rows[i].value.Some? && rows[i].date <= d
    requires forall j :: i < j < |rows| ==> rows[j].value.None? || d < rows[j].date
    ensures AsOf(rows, d) == rows[i].value
  {
    if i < |rows| - 1 {
      AsOfIsLastReal(rows[..|rows| - 1], i, d);
    }
  }

  /** The series has the as-of price or none, and misses it exactly in a ticker's interior gaps: a date without a
      row, before the ticker's last one, with a close already known. */
  lemma UnpricedIffInteriorGap(rows: seq<Dated<real>>, d: int)
    requires Ascending(rows)
    ensures PriceOn(rows, d) == None || PriceOn(rows, d) == AsOf(rows, d)
    ensures PriceOn(rows, d) != AsOf(rows, d)
            <==> !RowOn(rows, d) && AsOf(rows, d).Some? && exists i :: 0 <= i < |rows| && d < rows[i].date
  {
    if rows != [] && d < rows[|rows| - 1].date {
      assert exists i :: 0 <= i < |rows| && d < rows[i].date;
    }
    if rows != [] && d == rows[|rows| - 1].date {
      assert RowOn(rows, d);
    }
  }

  // --------------------------------------------------------- value and cost

  /** A lot's price on a day: none before it is bought and none where its ticker has no price. */
  function Mark(lot: Lot, quotes: Quotes, d: int): Option<real> {
    if d < lot.date || lot.ticker !in quotes then None else PriceOn(quotes[lot.ticker], d)
  }

  function LotWorth(lot: Lot, quotes: Quotes, d: int): real {
    var mark := Mark(lot, quotes, d);
    if mark.Some? then lot.qty * mark.value else 0.0
  }

  function LotCost(lot: Lot, quotes: Quotes, d: int): real {
    if Mark(lot, quotes, d).Some? then lot.qty * lot.price else 0.0
  }

  function Worth(lots: seq<Lot>, quotes: Quotes, d: int): real {
    if lots == [] then 0.0
    else Worth(lots[..|lots| - 1], quotes, d) + LotWorth(lots[|lots| - 1], quotes, d)
  }

  function Cost(lots: seq<Lot>, quotes: Quotes, d: int): real {
    if lots == [] then 0.0
    else Cost(lots[..|lots| - 1], quotes, d) + LotCost(lots[|lots| - 1], quotes, d)
  }

  lemma {:induction false} LotAnywhere(before: seq<Lot>, lot: Lot, after: seq<Lot>, quotes: Quotes, d: int)
    ensures Worth(before + [lot] + after, quotes, d) == Worth(before + after, quotes, d) + LotWorth(lot, quotes, d)
    ensures Cost(before + [lot] + after, quotes, d) == Cost(before + after, quotes, d) + LotCost(lot, quotes, d)
  {
    hide LotWorth, LotCost;
    if after == [] {
      assert before + [lot] + after == before + [lot] && before + after == before;
      assert (before + [lot])[..|before|] == before;
    } else {
      var last, most := after[|after| - 1], after[..|after| - 1];
      LotAnywhere(before, lot, most, quotes, d);
      assert (before + [lot] + after)[..|before| + |after|] == before + [lot] + most;
      assert (before + after)[..|before| + |most|] == before + most;
    }
  }

  /** A lot, wherever it is listed, adds its quantity at the day's price to the worth and at the price paid to the
      cost; unless it is not bought yet or its ticker has no price that day, when it adds nothing to either. */
  lemma LotAddsItsShare(before: seq<Lot>, lot: Lot, after: seq<Lot>, quotes: Quotes, d: int)
    ensures Worth([], quotes, d) == 0.0 == Cost([], quotes, d)
    ensures var with, without := before + [lot] + after, before + after;
            if lot.date <= d && lot.ticker in quotes && PriceOn(quotes[lot.ticker], d).Some? then
              var price := PriceOn(quotes[lot.ticker], d).value;
              && Worth(with, quotes, d) == Worth(without, quotes, d) + lot.qty * price
              && Cost(with, quotes, d) == Cost(without, quotes, d) + lot.qty * lot.price
            else
              && Worth(with, quotes, d) == Worth(without, quotes, d)
              && Cost(with, quotes, d) == Cost(without, quotes, d)
  {
    LotAnywhere(before, lot, after, quotes, d);
    assert Worth([], quotes, d) == 0.0 == Cost([], quotes, d);
    hide PriceOn, Worth, Cost;
  }

  /** The days on which the portfolio is worth something. */
  function Days(lots: seq<Lot>, quotes: Quotes, dates: seq<int>): seq<Day> {
    if dates == [] then []
    else
      var d := dates[|dates| - 1];
      var worth := Worth(lots, quotes, d);
      Days(lots, quotes, dates[..|dates| - 1])
      + if worth > 0.0 then [Day(d, Cents(worth), Cents(Cost(lots, quotes, d)))] else []
  }

  /** The price paid; when none is recorded, the close of the trade date, or zero without one. */
  function PricePaid(buy: Lot, rows: seq<Dated<real>>): real {
    if buy.price > 0.0 then buy.price
    else if RowOn(rows, buy.date) && AsOf(rows, buy.date).Some? then AsOf(rows, buy.date).value
    else 0.0
  }

  /** The purchases of tickers with any rows, at the price paid. */
  function Lots(buys: seq<Lot>, quotes: Quotes): seq<Lot> {
    if buys == [] then []
    else
      var buy := buys[|buys| - 1];
      Lots(buys[..|buys| - 1], quotes)
      + if buy.ticker in quotes && quotes[buy.ticker] != []
        then [buy.(price := PricePaid(buy, quotes[buy.ticker]))] else []
  }

  /** One purchase: nothing for a ticker without rows; otherwise a lot with the same ticker, quantity and date, at the
      recorded price if there is one, else at the close of the trade date if that has one, else at zero. */
  lemma OneLot(buy: Lot, quotes: Quotes)
    ensures if buy.ticker !in quotes || quotes[buy.ticker] == [] then Lots([buy], quotes) == []
            else
              var rows := quotes[buy.ticker];
              && |Lots([buy], quotes)| == 1
              && var lot := Lots([buy], quotes)[0];
                 && lot.ticker == buy.ticker && lot.qty == buy.qty && lot.date == buy.date
                 && (buy.price > 0.0 ==> lot.price == buy.price)
                 && (buy.price <= 0.0 && RowOn(rows, buy.date) && AsOf(rows, buy.date).Some?
                     ==> AsOf(rows, buy.date) == Some(lot.price))
                 && (buy.price <= 0.0 && !(RowOn(rows, buy.date) && AsOf(rows, buy.date).Some?) ==> lot.price == 0.0)
  {
    assert [buy][..0] == [];
    hide RowOn, AsOf;
  }

  /** Each purchase becomes its own lot, in order. */
  lemma {:induction false} LotsConcat(a: seq<Lot>, b: seq<Lot>, quotes: Quotes)
    ensures Lots(a + b, quotes) == Lots(a, quotes) + Lots(b, quotes)
  {
    if b == [] {
      assert a + b == a;
    } else {
      LotsConcat(a, b[..|b| - 1], quotes);
      assert (a + b)[..|a + b| - 1] == a + b[..|b| - 1];
    }
  }

  ghost predicate MapsIndex(maps: CloseMaps, quotes: Quotes) {
    && (forall t :: t in maps <==> t in quotes && quotes[t] != [])
    && (forall t :: t in maps ==> Indexes(maps[t], quotes[t]))
  }

  ghost predicate IsSeries(dates: seq<int>, quotes: Quotes) {
    && Increasing(dates)
    && (forall d :: d in dates <==> exists t :: t in quotes && RowOn(quotes[t], d) && AsOf(quotes[t], d).Some?)
  }

  method BuildMaps(quotes: Quotes) returns (maps: CloseMaps)
    requires Ordered(quotes)
    ensures MapsIndex(maps, quotes)
  {
    maps := map[];
    var left := quotes.Keys;
    while left != {}
      invariant left <= quotes.Keys
      invariant forall t :: t in maps <==> t in quotes && t !in left && quotes[t] != []
      invariant forall t :: t in maps ==> Indexes(maps[t], quotes[t])
      decreases |left|
    {
      var t :| t in left;
      left := left - {t};
      if quotes[t] != [] {
        var m := FillForward(quotes[t]);
        maps := maps[t := m];
      }
    }
  }

  method BuildLots(buys: seq<Lot>, maps: CloseMaps, ghost quotes: Quotes) returns (lots: seq<Lot>)
    requires MapsIndex(maps, quotes)
    ensures lots == Lots(buys, quotes)
  {
    lots := [];
    for i := 0 to |buys|
      invariant lots == Lots(buys[..i], quotes)
    {
      var buy := buys[i];
      assert buys[..i + 1][..i] == buys[..i];
      if buy.ticker in maps {
        var m, price := maps[buy.ticker], buy.price;
        assert RowOn(quotes[buy.ticker], buy.date) || buy.date !in m;
        if price <= 0.0 { price := if buy.date in m then m[buy.date] else 0.0; }
        lots := lots + [buy.(price := price)];
      }
    }
    assert buys[..|buys|] == buys;
  }

  method SeriesDates(maps: CloseMaps, ghost quotes: Quotes) returns (dates: seq<int>)
    requires MapsIndex(maps, quotes)
    ensures IsSeries(dates, quotes)
    ensures forall t, d :: t in maps && d in maps[t] ==> d in dates
  {
    var all := set t, d | t in maps && d in maps[t] :: d;
    dates := SortedDates(all);
    forall d ensures d in dates <==> exists t :: t in quotes && RowOn(quotes[t], d) && AsOf(quotes[t], d).Some? {
      if d in dates {
        var t :| t in maps && d in maps[t];
        assert RowOn(quotes[t], d);
      }
      if t :| t in quotes && RowOn(quotes[t], d) && AsOf(quotes[t], d).Some? {
        assert d in maps[t];
      }
    }
  }

  /** Every ticker's map, once extended, prices exactly what PriceOn prices. */
  method CarryAll(maps: CloseMaps, dates: seq<int>, ghost quotes: Quotes) returns (full: CloseMaps)
    requires Ordered(quotes) && MapsIndex(maps, quotes) && Increasing(dates)
    requires forall t, d :: t in maps && d in maps[t] ==> d in dates
    ensures full.Keys == maps.Keys
    ensures forall t, d :: t in maps && d in dates ==> Lookup(full[t], d) == PriceOn(quotes[t], d)
  {
    full := maps;
    var left := maps.Keys;
    while left != {}
      invariant left <= maps.Keys && full.Keys == maps.Keys
      invariant forall t :: t in left ==> full[t] == maps[t]
      invariant forall t, d :: t in maps && t !in left && d in dates ==> Lookup(full[t], d) == PriceOn(quotes[t], d)
      decreases |left|
    {
      var t :| t in left;
      left := left - {t};
      var m := CarryForward(full[t], dates, quotes[t]);
      full := full[t := m];
    }
  }

  /** A day of the series shows the worth and the cost of its date. */
  ghost predicate Shows(day: Day, lots: seq<Lot>, quotes: Quotes) {
    && day.value == Cents(Worth(lots, quotes, day.date))
    && day.invested == Cents(Cost(lots, quotes, day.date))
  }

  ghost predicate ShowsDate(days: seq<Day>, d: int) {
    exists i :: 0 <= i < |days| && days[i].date == d
  }

  /** The days are the dates on which the portfolio is worth something, each with its worth and its cost. */
  ghost predicate AreDays(days: seq<Day>, lots: seq<Lot>, quotes: Quotes, dates: seq<int>) {
    && (forall i :: 0 <= i < |days| ==> Shows(days[i], lots, quotes))
    && (forall d :: ShowsDate(days, d) <==> d in dates && Worth(lots, quotes, d) > 0.0)
  }

  lemma {:induction false} DaysAre(lots: seq<Lot>, quotes: Quotes, dates: seq<int>)
    ensures AreDays(Days(lots, quotes, dates), lots, quotes, dates)
  {
    if dates != [] {
      var earlier, d := dates[..|dates| - 1], dates[|dates| - 1];
      DaysAre(lots, quotes, earlier);
      hide Worth, Cost, Cents, AreDays;
      var before := Days(lots, quotes, earlier);
      var day := Day(d, Cents(Worth(lots, quotes, d)), Cents(Cost(lots, quotes, d)));
      assert dates == earlier + [d] && before + [] == before;
      OneMoreDate(before, day, lots, quotes, earlier);
    }
  }

  lemma OneMoreDate(before: seq<Day>, day: Day, lots: seq<Lot>, quotes: Quotes, earlier: seq<int>)
    requires AreDays(before, lots, quotes, earlier) && Shows(day, lots, quotes)
    ensures AreDays(if Worth(lots, quotes, day.date) > 0.0 then before + [day] else before, lots, quotes,
                    earlier + [day.date])
  {
    hide Worth, Shows, ShowsDate;
    ShowsAppend(before, day);
  }

  lemma ShowsAppend(days: seq<Day>, day: Day)
    ensures forall e :: ShowsDate(days + [day], e) <==> ShowsDate(days, e) || e == day.date
  {
    var more := days + [day];
    forall e ensures ShowsDate(more, e) <==> ShowsDate(days, e) || e == day.date {
      if i :| 0 <= i < |days| && days[i].date == e {
        assert more[i].date == e;
      }
      assert more[|days|].date == day.date;
    }
  }

  /** One day's accumulators over the lots held and priced that day. */
  method DayTotals(lots: seq<Lot>, maps: CloseMaps, d: int, ghost quotes: Quotes) returns (worth: real, cost: real)
    requires forall t :: t in maps ==> t in quotes && Lookup(maps[t], d) == PriceOn(quotes[t], d)
    requires forall i :: 0 <= i < |lots| ==> lots[i].ticker in maps
    ensures worth == Worth(lots, quotes, d) && cost == Cost(lots, quotes, d)
  {
    hide PriceOn;
    worth, cost := 0.0, 0.0;
    for i := 0 to |lots|
      invariant worth == Worth(lots[..i], quotes, d) && cost == Cost(lots[..i], quotes, d)
    {
      var lot := lots[i];
      assert lots[..i + 1][..i] == lots[..i];
      if d >= lot.date && d in maps[lot.ticker] {
        worth := worth + lot.qty * maps[lot.ticker][d];
        cost := cost + lot.qty * lot.price;
      }
    }
    assert lots[..|lots|] == lots;
  }

  method DailyValues(lots: seq<Lot>, maps: CloseMaps, dates: seq<int>, ghost quotes: Quotes) returns (days: seq<Day>)
    requires forall t :: t in maps ==> t in quotes
    requires forall t, d :: t in maps && d in dates ==> Lookup(maps[t], d) == PriceOn(quotes[t], d)
    requires forall i :: 0 <= i < |lots| ==> lots[i].ticker in maps
    ensures days == Days(lots, quotes, dates) && AreDays(days, lots, quotes, dates)
  {
    hide Worth, Cost, Cents, PriceOn, AreDays;
    days := [];
    for k := 0 to |dates|
      invariant days == Days(lots, quotes, dates[..k])
    {
      var d := dates[k];
      assert d in dates && dates[..k + 1][..k] == dates[..k];
      var worth, cost := DayTotals(lots, maps, d, quotes);
      if worth > 0.0 { days := days + [Day(d, Cents(worth), Cents(cost))]; }
    }
    assert dates[..|dates|] == dates;
    DaysAre(lots, quotes, dates);
  }
}
