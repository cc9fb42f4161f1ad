/** Profit, drawdown and the period shown, over the daily portfolio series. */
module Performance {
  import opened Wrappers
  import opened Series
  import opened Portfolio

  /** Returns are in ten-thousandths of a percent; best and worst are positions among the days. */
  datatype Report = Report(
    days: seq<Day>, pnl: seq<int>, rates: seq<int>, totalReturn: real, drawdown: real, best: nat, worst: nat)

  const NO_REPORT := Report([], [], [], 0.0, 0.0, 0, 0)

  // ---------------------------------------------------------- daily profit

  function Gain(day: Day): int {
    day.value - day.invested
  }

  function Sum(xs: seq<int>): int {
    if xs == [] then 0 else Sum(xs[..|xs| - 1]) + xs[|xs| - 1]
  }

  /** Each day's profit is its change in value without the capital added that day; the first day has none. */
  ghost predicate IsPnl(days: seq<Day>, pnl: seq<int>) {
    && |pnl| == |days|
    && (days != [] ==> pnl[0] == 0)
    && forall i :: 1 <= i < |days| ==>
         pnl[i] == days[i].value - days[i - 1].value - (days[i].invested - days[i - 1].invested)
  }

  /** A profit as a share of the previous value, rounded to four decimals of a percent. */
  function Share(profit: int, base: int): int {
    if base == 0 then 0 else HalfEven(profit as real / base as real * 1000000.0)
  }

  function DayReturn(prev: Day, day: Day): int {
    Share(Gain(day) - Gain(prev), prev.value)
  }

  ghost predicate IsReturns(days: seq<Day>, rates: seq<int>) {
    && |rates| == |days|
    && (days != [] ==> rates[0] == 0)
    && forall i :: 1 <= i < |days| ==> rates[i] == DayReturn(days[i - 1], days[i])
  }

  method DailyPoints(days: seq<Day>) returns (pnl: seq<int>, rates: seq<int>)
    ensures IsPnl(days, pnl) && IsReturns(days, rates)
  {
    hide Share;
    pnl, rates := [], [];
    for i := 0 to |days|
      invariant IsPnl(days[..i], pnl) && IsReturns(days[..i], rates)
    {
      if i == 0 {
        pnl, rates := [0], [0];
      } else {
        var prev := days[i - 1];
        var cashflow := days[i].invested - prev.invested;
        var change := days[i].value - prev.value - cashflow;
        pnl, rates := pnl + [change], rates + [Share(change, prev.value)];
      }
    }
    hide IsPnl, IsReturns;
    assert days[..|days|] == days;
  }

  /** Up to half a ten-thousandth of a percent, a day's return is its profit as a share of the previous day's value. */
  lemma ReturnIsShare(days: seq<Day>, pnl: seq<int>, rates: seq<int>, i: nat)
    requires IsPnl(days, pnl) && IsReturns(days, rates) && 0 < i < |days|
    ensures days[i - 1].value == 0 ==> rates[i] == 0
    ensures days[i - 1].value > 0 ==>
              var base := days[i - 1].value as real;
              -0.5 * base <= rates[i] as real * base - pnl[i] as real * 1000000.0 <= 0.5 * base
  {
    assert pnl[i] == Gain(days[i]) - Gain(days[i - 1]);
    ShareIsNear(pnl[i], days[i - 1].value);
    hide Share;
  }

  lemma ShareIsNear(profit: int, base: int)
    ensures base == 0 ==> Share(profit, base) == 0
    ensures base > 0 ==>
              var b := base as real;
              -0.5 * b <= Share(profit, base) as real * b - profit as real * 1000000.0 <= 0.5 * b
  {
    if base > 0 {
      var b := base as real;
      var exact := profit as real / b * 1000000.0;
      assert Share(profit, base) == HalfEven(exact);
      HalfEvenIsNear(exact);
      hide HalfEven, Share;
      Quotient(profit as real, b, 1000000.0);
      Scaled(Share(profit, base) as real, exact, b, profit as real * 1000000.0);
    }
  }

  lemma Quotient(p: real, b: real, scale: real)
    requires b != 0.0
    ensures p / b * scale * b == p * scale
  {
    var q := p / b;
    assert q * b == p;
    assert q * scale * b == q * b * scale;
  }

  lemma Scaled(rounded: real, exact: real, b: real, product: real)
    requires -0.5 <= rounded - exact <= 0.5 && b > 0.0 && exact * b == product
    ensures -0.5 * b <= rounded * b - product <= 0.5 * b
  {
    Stretched(-0.5, rounded - exact, b);
    Stretched(rounded - exact, 0.5, b);
    Distributes(rounded, exact, b);
    assert Times(-0.5, b) == -0.5 * b && Times(0.5, b) == 0.5 * b;
    assert Times(rounded, b) == rounded * b && Times(exact, b) == product;
    hide Times;
  }

  function Times(x: real, y: real): real {
    x * y
  }

  lemma Stretched(x: real, y: real, b: real)
    requires x <= y && b > 0.0
    ensures Times(x, b) <= Times(y, b)
  {
    assert (y - x) * b >= 0.0;
  }

  lemma Distributes(x: real, y: real, b: real)
    ensures Times(x - y, b) == Times(x, b) - Times(y, b)
  {
  }

  /** A day's return never has the opposite sign of its profit. */
  lemma ReturnFollowsPnl(days: seq<Day>, pnl: seq<int>, rates: seq<int>, i: nat)
    requires IsPnl(days, pnl) && IsReturns(days, rates) && i < |days|
    requires forall j :: 0 <= j < |days| ==> days[j].value >= 0
    ensures (pnl[i] >= 0 ==> rates[i] >= 0) && (pnl[i] <= 0 ==> rates[i] <= 0)
  {
    if i > 0 {
      assert pnl[i] == Gain(days[i]) - Gain(days[i - 1]);
      ShareKeepsSign(pnl[i], days[i - 1].value);
      hide Share;
    }
  }

  lemma ShareKeepsSign(profit: int, base: nat)
    ensures (profit >= 0 ==> Share(profit, base) >= 0) && (profit <= 0 ==> Share(profit, base) <= 0)
  {
    assert HalfEven(0.0) == 0;
    hide HalfEven;
    if base > 0 {
      var share := profit as real / base as real;
      if profit >= 0 {
        HalfEvenIsMonotone(0.0, share * 1000000.0);
      }
      if profit <= 0 {
        HalfEvenIsMonotone(share * 1000000.0, 0.0);
      }
    }
  }

  /** The first of the highest, from position 1 on. */
  ghost predicate IsFirstHighest(xs: seq<int>, k: nat) {
    && 1 <= k < |xs|
    && (forall i :: 1 <= i < |xs| ==> xs[i] <= xs[k])
    && forall i :: 1 <= i < k ==> xs[i] < xs[k]
  }

  ghost predicate IsFirstLowest(xs: seq<int>, k: nat) {
    && 1 <= k < |xs|
    && (forall i :: 1 <= i < |xs| ==> xs[i] >= xs[k])
    && forall i :: 1 <= i < k ==> xs[i] > xs[k]
  }

  method BestAndWorst(rates: seq<int>) returns (best: nat, worst: nat)
    requires |rates| >= 2
    ensures IsFirstHighest(rates, best) && IsFirstLowest(rates, worst)
  {
    best, worst := 1, 1;
    for i := 2 to |rates|
      invariant IsFirstHighest(rates[..i], best) && IsFirstLowest(rates[..i], worst)
    {
      if rates[i] > rates[best] { best := i; }
      if rates[i] < rates[worst] { worst := i; }
    }
    assert rates[..|rates|] == rates;
  }

  /** Between any two days of the series, the daily profits add up to the change in value over cost. */
  lemma {:induction false} PnlTelescopes(days: seq<Day>, pnl: seq<int>, i: nat, j: nat)
    requires IsPnl(days, pnl) && i <= j < |days|
    ensures Sum(pnl[i + 1..j + 1]) == Gain(days[j]) - Gain(days[i])
  {
    if i < j {
      PnlTelescopes(days, pnl, i, j - 1);
      assert pnl[i + 1..j + 1][..j - i - 1] == pnl[i + 1..j];
    }
  }

  // ---------------------------------------------------------- period filter

  function From(days: seq<Day>, cutoff: int): seq<Day> {
    if days == [] then []
    else
      var day := days[|days| - 1];
      From(days[..|days| - 1], cutoff) + if day.date >= cutoff then [day] else []
  }

  function Kept(days: seq<Day>, period: Option<nat>): seq<Day> {
    if period.None? || days == [] then days else From(days, days[|days| - 1].date - period.value)
  }

  ghost predicate InDateOrder(days: seq<Day>) {
    forall i, j :: 0 <= i < j < |days| ==> days[i].date < days[j].date
  }

  ghost predicate SplitsAt(days: seq<Day>, cutoff: int, k: nat) {
    && k <= |days|
    && (forall i :: 0 <= i < k ==> days[i].date < cutoff)
    && (forall i :: k <= i < |days| ==> cutoff <= days[i].date)
  }

  lemma {:induction false} Split(days: seq<Day>, cutoff: int, n: nat) returns (k: nat)
    requires InDateOrder(days) && n <= |days| && forall i :: n <= i < |days| ==> cutoff <= days[i].date
    ensures SplitsAt(days, cutoff, k)
  {
    k := n;
    if n > 0 && cutoff <= days[n - 1].date { k := Split(days, cutoff, n - 1); }
  }

  lemma {:induction false} FromConcat(a: seq<Day>, b: seq<Day>, cutoff: int)
    ensures From(a + b, cutoff) == From(a, cutoff) + From(b, cutoff)
  {
    if b == [] {
      assert a + b == a;
    } else {
      FromConcat(a, b[..|b| - 1], cutoff);
      assert (a + b)[..|a + b| - 1] == a + b[..|b| - 1];
    }
  }

  lemma {:induction false} FromUniform(days: seq<Day>, cutoff: int, within: bool)
    requires forall i :: 0 <= i < |days| ==> (days[i].date >= cutoff) == within
    ensures From(days, cutoff) == if within then days else []
  {
    if days != [] {
      FromUniform(days[..|days| - 1], cutoff, within);
    }
  }

  lemma FromIsSuffix(days: seq<Day>, cutoff: int, k: nat)
    requires SplitsAt(days, cutoff, k)
    ensures From(days, cutoff) == days[k..]
  {
    hide From;
    assert days == days[..k] + days[k..];
    FromConcat(days[..k], days[k..], cutoff);
    FromUniform(days[..k], cutoff, false);
    FromUniform(days[k..], cutoff, true);
  }

  lemma KeptIsSuffix(days: seq<Day>, period: Option<nat>) returns (k: nat)
    requires InDateOrder(days) && days != []
    ensures k < |days| && Kept(days, period) == days[k..]
    ensures if period.Some? then SplitsAt(days, days[|days| - 1].date - period.value, k) else k == 0
  {
    k := 0;
    if period.Some? {
      hide From;
      var cutoff := days[|days| - 1].date - period.value;
      k := Split(days, cutoff, |days|);
      FromIsSuffix(days, cutoff, k);
    }
  }

  /** Showing a shorter period drops the days more than that long before the last from the front: every day shown
      after the first keeps the profit it has in the full series, and the profits shown add up to the last gain minus
      the first. */
  lemma PeriodKeepsPnl(days: seq<Day>, period: Option<nat>, pnl: seq<int>, shown: seq<int>) returns (k: nat)
    requires InDateOrder(days) && days != [] && IsPnl(days, pnl) && IsPnl(Kept(days, period), shown)
    ensures k < |days| && Kept(days, period) == days[k..]
    ensures if period.Some? then SplitsAt(days, days[|days| - 1].date - period.value, k) else k == 0
    ensures forall i :: k < i < |days| ==> shown[i - k] == pnl[i]
    ensures Sum(shown) == Gain(days[|days| - 1]) - Gain(days[k])
  {
    hide Kept, InDateOrder, IsPnl, Sum;
    k := KeptIsSuffix(days, period);
    SuffixKeepsPnl(days, k, pnl, shown);
  }

  lemma SuffixKeepsPnl(days: seq<Day>, k: nat, pnl: seq<int>, shown: seq<int>)
    requires k < |days| && IsPnl(days, pnl) && IsPnl(days[k..], shown)
    ensures forall i :: k < i < |days| ==> shown[i - k] == pnl[i]
    ensures Sum(shown) == Gain(days[|days| - 1]) - Gain(days[k])
  {
    var kept := days[k..];
    forall i | k < i < |days| ensures shown[i - k] == pnl[i] {
      var t := i - k;
      assert kept[t] == days[i] && kept[t - 1] == days[i - 1];
      assert shown[t] == kept[t].value - kept[t - 1].value - (kept[t].invested - kept[t - 1].invested);
    }
    PnlAddsUp(kept, shown);
  }

  /** Over the whole series the profits add up to the last gain minus the first. */
  lemma PnlAddsUp(days: seq<Day>, pnl: seq<int>)
    requires days != [] && IsPnl(days, pnl)
    ensures Sum(pnl) == Gain(days[|days| - 1]) - Gain(days[0])
  {
    PnlTelescopes(days, pnl, 0, |days| - 1);
    hide Sum;
    SumOfTail(pnl);
    assert pnl[1..] == pnl[1..|days|];
  }

  lemma {:induction false} SumOfTail(xs: seq<int>)
    requires xs != []
    ensures Sum(xs) == xs[0] + Sum(xs[1..])
  {
    if |xs| > 1 {
      SumOfTail(xs[..|xs| - 1]);
      assert xs[1..][..|xs| - 2] == xs[..|xs| - 1][1..];
    }
  }

  // ------------------------------------------------------------ price gaps

  /** What a lot is worth at the last close known on the day. */
  function LotAsOf(lot: Lot, quotes: Quotes, d: int): real {
    if d < lot.date || lot.ticker !in quotes then 0.0
    else
      var close := AsOf(quotes[lot.ticker], d);
      if close.Some? then lot.qty * close.value else 0.0
  }

  function WorthAsOf(lots: seq<Lot>, quotes: Quotes, d: int): real {
    if lots == [] then 0.0
    else WorthAsOf(lots[..|lots| - 1], quotes, d) + LotAsOf(lots[|lots| - 1], quotes, d)
  }

  /** A held ticker without a row on the day, between a known close and a later row. */
  predicate Gapped(lot: Lot, quotes: Quotes, d: int) {
    && lot.date <= d && lot.ticker in quotes
    && var rows := quotes[lot.ticker];
       !RowOn(rows, d) && AsOf(rows, d).Some? && exists i :: 0 <= i < |rows| && d < rows[i].date
  }

  ghost predicate PositivePrices(quotes: Quotes) {
    forall t, i :: t in quotes && 0 <= i < |quotes[t]| && quotes[t][i].value.Some? ==> quotes[t][i].value.value > 0.0
  }

  lemma {:induction false} AsOfPositive(rows: seq<Dated<real>>, d: int)
    requires forall i :: 0 <= i < |rows| && rows[i].value.Some? ==> rows[i].value.value > 0.0
    ensures AsOf(rows, d).Some? ==> AsOf(rows, d).value > 0.0
  {
    if rows != [] { AsOfPositive(rows[..|rows| - 1], d); }
  }

  lemma LotGap(lot: Lot, quotes: Quotes, d: int)
    requires Ordered(quotes) && PositivePrices(quotes) && lot.qty > 0.0
    ensures if Gapped(lot, quotes, d) then LotWorth(lot, quotes, d) < LotAsOf(lot, quotes, d)
            else LotWorth(lot, quotes, d) == LotAsOf(lot, quotes, d)
  {
    if lot.date <= d && lot.ticker in quotes {
      var rows := quotes[lot.ticker];
      UnpricedIffInteriorGap(rows, d);
      AsOfPositive(rows, d);
      hide AsOf, RowOn;
      if AsOf(rows, d).Some? { assert lot.qty * AsOf(rows, d).value > 0.0; }
    }
  }

  /** The value shown never exceeds the as-of value, and falls short of it exactly when a held ticker is in an
      interior gap: carrying the last close to the end of the series does not remove those dips. */
  lemma {:induction false} ValueDipsIffGap(lots: seq<Lot>, quotes: Quotes, d: int)
    requires Ordered(quotes) && PositivePrices(quotes) && forall i :: 0 <= i < |lots| ==> lots[i].qty > 0.0
    ensures Worth(lots, quotes, d) <= WorthAsOf(lots, quotes, d)
    ensures Worth(lots, quotes, d) < WorthAsOf(lots, quotes, d)
            <==> exists i :: 0 <= i < |lots| && Gapped(lots[i], quotes, d)
  {
    if lots != [] {
      hide Gapped, LotWorth, LotAsOf, PositivePrices, Ordered;
      var before := lots[..|lots| - 1];
      ValueDipsIffGap(before, quotes, d);
      LotGap(lots[|lots| - 1], quotes, d);
      if i :| 0 <= i < |before| && Gapped(before[i], quotes, d) { assert Gapped(lots[i], quotes, d); }
    }
  }

  /** A lot of a ticker that closes at 10 on days 1 and 3 and has no row on day 2 is worth nothing on day 2. */
  lemma GapDropsTicker(ticker: string)
    ensures var quotes: Quotes := map[ticker := [Dated(1, Some(10.0)), Dated(3, Some(10.0))]];
            var lots := [Lot(ticker, 1.0, 1, 10.0)];
            && Worth(lots, quotes, 1) == Worth(lots, quotes, 3) == 10.0
            && Worth(lots, quotes, 2) == 0.0 && WorthAsOf(lots, quotes, 2) == 10.0
  {
    var rows := [Dated(1, Some(10.0)), Dated(3, Some(10.0))];
    var lot := Lot(ticker, 1.0, 1, 10.0);
    assert rows[..1] == [Dated(1, Some(10.0))] && rows[..1][..0] == [];
    assert rows[0].date == 1 && rows[1].date == 3;
    assert PriceOn(rows, 1) == PriceOn(rows, 3) == AsOf(rows, 2) == Some(10.0) && PriceOn(rows, 2) == None;
    hide PriceOn, AsOf;
    assert [lot][..0] == [];
  }

  // ------------------------------------------------------ capital neutrality

  /** Profit before rounding between two dates. */
  function RawPnl(lots: seq<Lot>, quotes: Quotes, prev: int, d: int): real {
    (Worth(lots, quotes, d) - Worth(lots, quotes, prev)) - (Cost(lots, quotes, d) - Cost(lots, quotes, prev))
  }

  /** A lot bought after the previous date moves that day's profit by its own gain since purchase and by nothing
      else, so the profit is unchanged exactly when it was bought at the day's price, is empty, or is unpriced. */
  lemma PurchaseMovesPnlByItsGain(before: seq<Lot>, lot: Lot, after: seq<Lot>, quotes: Quotes, prev: int, d: int)
    requires prev < lot.date <= d
    ensures var mark := Mark(lot, quotes, d);
            var moved := RawPnl(before + [lot] + after, quotes, prev, d) - RawPnl(before + after, quotes, prev, d);
            && moved == (if mark.Some? then lot.qty * (mark.value - lot.price) else 0.0)
            && (moved == 0.0 <==> mark.None? || lot.qty == 0.0 || mark.value == lot.price)
  {
    hide Mark, LotWorth, LotCost;
    RawPnlSplits(before, lot, after, quotes, prev, d);
    LotGain(lot, quotes, prev, d);
  }

  lemma LotGain(lot: Lot, quotes: Quotes, prev: int, d: int)
    requires prev < lot.date
    ensures LotWorth(lot, quotes, prev) == 0.0 && LotCost(lot, quotes, prev) == 0.0
    ensures var mark, gain := Mark(lot, quotes, d), LotWorth(lot, quotes, d) - LotCost(lot, quotes, d);
            && gain == (if mark.Some? then lot.qty * (mark.value - lot.price) else 0.0)
            && (gain == 0.0 <==> mark.None? || lot.qty == 0.0 || mark.value == lot.price)
  {
    hide PriceOn;
    var mark := Mark(lot, quotes, d);
    if mark.Some? {
      Spread(lot.qty, mark.value, lot.price);
    }
  }

  lemma Spread(q: real, p: real, c: real)
    ensures q * p - q * c == q * (p - c)
    ensures q * (p - c) == 0.0 <==> q == 0.0 || p == c
  {
  }

  lemma RawPnlSplits(before: seq<Lot>, lot: Lot, after: seq<Lot>, quotes: Quotes, prev: int, d: int)
    ensures RawPnl(before + [lot] + after, quotes, prev, d)
            == RawPnl(before + after, quotes, prev, d)
               + (LotWorth(lot, quotes, d) - LotWorth(lot, quotes, prev))
               - (LotCost(lot, quotes, d) - LotCost(lot, quotes, prev))
  {
    LotAnywhere(before, lot, after, quotes, d);
    LotAnywhere(before, lot, after, quotes, prev);
    hide Worth, Cost, LotWorth, LotCost;
  }

  /** A purchase recorded without a price on a day its ticker closed leaves that day's profit unchanged. */
  lemma UnpricedPurchaseIsNeutral(before: seq<Lot>, buy: Lot, after: seq<Lot>, quotes: Quotes, prev: int)
    requires prev < buy.date && buy.price <= 0.0 && buy.ticker in quotes
    requires RowOn(quotes[buy.ticker], buy.date) && AsOf(quotes[buy.ticker], buy.date).Some?
    ensures var lot := buy.(price := PricePaid(buy, quotes[buy.ticker]));
            RawPnl(before + [lot] + after, quotes, prev, buy.date) == RawPnl(before + after, quotes, prev, buy.date)
  {
    var lot := buy.(price := PricePaid(buy, quotes[buy.ticker]));
    assert Mark(lot, quotes, buy.date) == Some(lot.price);
    PurchaseMovesPnlByItsGain(before, lot, after, quotes, prev, buy.date);
  }

  /** Without a close on the trade date such a purchase is carried at no cost, and its whole worth shows as profit. */
  lemma UnpricedPurchaseOffCloseIsProfit(before: seq<Lot>, buy: Lot, after: seq<Lot>, quotes: Quotes, prev: int, d: int)
    requires prev < buy.date <= d && buy.price <= 0.0 && buy.ticker in quotes
    requires !RowOn(quotes[buy.ticker], buy.date) && Mark(buy, quotes, d).Some?
    ensures var lot := buy.(price := PricePaid(buy, quotes[buy.ticker]));
            RawPnl(before + [lot] + after, quotes, prev, d) - RawPnl(before + after, quotes, prev, d)
            == buy.qty * Mark(buy, quotes, d).value
  {
    var lot := buy.(price := PricePaid(buy, quotes[buy.ticker]));
    assert Mark(lot, quotes, d) == Mark(buy, quotes, d);
    PurchaseMovesPnlByItsGain(before, lot, after, quotes, prev, d);
  }

  /** Rounding value and cost to cents moves a day's profit by two cents at most. */
  lemma RoundedPnlIsNear(lots: seq<Lot>, quotes: Quotes, prev: int, d: int)
    ensures var rounded := (Cents(Worth(lots, quotes, d)) - Cents(Worth(lots, quotes, prev)))
                           - (Cents(Cost(lots, quotes, d)) - Cents(Cost(lots, quotes, prev)));
            -2.0 <= rounded as real - RawPnl(lots, quotes, prev, d) * 100.0 <= 2.0
  {
    hide Worth, Cost, HalfEven;
    HalfEvenIsNear(Worth(lots, quotes, d) * 100.0);
    HalfEvenIsNear(Worth(lots, quotes, prev) * 100.0);
    HalfEvenIsNear(Cost(lots, quotes, d) * 100.0);
    HalfEvenIsNear(Cost(lots, quotes, prev) * 100.0);
  }

  // -------------------------------------------------------------- drawdown

  /** Gain as a percentage of cost. */
  function GainPct(day: Day): real {
    if day.invested == 0 then 0.0 else (day.value - day.invested) as real / day.invested as real * 100.0
  }

  /** It is the gain for every hundred of what was invested, and nothing where nothing was. */
  lemma GainPctIs(day: Day)
    ensures GainPct(day) * day.invested as real
         == if day.invested == 0 then 0.0 else 100.0 * (day.value - day.invested) as real
    ensures day.invested == 0 ==> GainPct(day) == 0.0
  {
    if day.invested != 0 {
      Quotient((day.value - day.invested) as real, day.invested as real, 100.0);
    }
  }

  /** The deepest fall from any day to a later or equal one; zero for no days. */
  ghost predicate IsDeepestFall(days: seq<Day>, fall: real) {
    && (forall i, j :: 0 <= i <= j < |days| ==> fall <= GainPct(days[j]) - GainPct(days[i]))
    && (days == [] ==> fall == 0.0)
    && (days != [] ==> exists i, j :: 0 <= i <= j < |days| && fall == GainPct(days[j]) - GainPct(days[i]))
  }

  /** One pass with a running peak. */
  method MaxDrawdown(days: seq<Day>) returns (fall: real)
    ensures IsDeepestFall(days, fall)
  {
    hide GainPct;
    fall := 0.0;
    var peak: Option<real> := None;
    ghost var top, from, to := 0, 0, 0;
    for k := 0 to |days|
      invariant peak.None? <==> k == 0
      invariant k == 0 ==> fall == 0.0 && from == to == 0
      invariant k > 0 ==> 0 <= top < k && peak.value == GainPct(days[top])
      invariant forall i :: 0 <= i < k ==> GainPct(days[i]) <= peak.value
      invariant k > 0 ==> 0 <= from <= to < k && fall == GainPct(days[to]) - GainPct(days[from])
      invariant forall i, j :: 0 <= i <= j < k ==> fall <= GainPct(days[j]) - GainPct(days[i])
    {
      var g := GainPct(days[k]);
      if peak.None? || g > peak.value { peak, top := Some(g), k; }
      var dd := g - peak.value;
      if dd < fall { fall, from, to := dd, top, k; }
    }
  }

  /** The deepest fall is never positive, and is zero exactly when the gain never falls from one day to the next. */
  lemma ZeroDrawdownIffNeverFalls(days: seq<Day>, fall: real)
    requires IsDeepestFall(days, fall)
    ensures fall <= 0.0
    ensures fall == 0.0
            <==> forall i, j :: 0 <= i < |days| && j == i + 1 && j < |days| ==> GainPct(days[i]) <= GainPct(days[j])
  {
    hide GainPct;
    if days != [] { assert fall <= GainPct(days[0]) - GainPct(days[0]); }
    if forall i, j :: 0 <= i < |days| && j == i + 1 && j < |days| ==> GainPct(days[i]) <= GainPct(days[j]) {
      if days != [] {
        var i, j :| 0 <= i <= j < |days| && fall == GainPct(days[j]) - GainPct(days[i]);
        NeverFallsBetween(days, i, j);
      }
    }
  }

  lemma {:induction false} NeverFallsBetween(days: seq<Day>, i: nat, j: nat)
    requires i <= j < |days|
    requires forall i, j :: 0 <= i < |days| && j == i + 1 && j < |days| ==> GainPct(days[i]) <= GainPct(days[j])
    ensures GainPct(days[i]) <= GainPct(days[j])
  {
    hide GainPct;
    if i < j { NeverFallsBetween(days, i, j - 1); }
  }

  // ---------------------------------------------------------- whole report

  lemma {:induction false} DaysInDateOrder(lots: seq<Lot>, quotes: Quotes, dates: seq<int>)
    requires Increasing(dates)
    ensures InDateOrder(Days(lots, quotes, dates))
    ensures forall i :: 0 <= i < |Days(lots, quotes, dates)| ==> Days(lots, quotes, dates)[i].date in dates
  {
    if dates != [] {
      var earlier, d := dates[..|dates| - 1], dates[|dates| - 1];
      DaysInDateOrder(lots, quotes, earlier);
      var days := Days(lots, quotes, earlier);
      forall i | 0 <= i < |days| ensures days[i].date < d {
        assert days[i].date in earlier;
      }
      hide Worth, Cost, Cents;
    }
  }

  /** What the report says of the days it shows; their profits add up to the last gain minus the first. */
  ghost predicate Reports(report: Report, days: seq<Day>) {
    if |days| < 2 then report == NO_REPORT
    else
      && report.days == days && InDateOrder(days)
      && IsPnl(days, report.pnl) && Sum(report.pnl) == Gain(days[|days| - 1]) - Gain(days[0])
      && IsReturns(days, report.rates)
      && IsFirstHighest(report.rates, report.best) && IsFirstLowest(report.rates, report.worst)
      && report.totalReturn == GainPct(days[|days| - 1]) && IsDeepestFall(days, report.drawdown)
  }

  method Measure(days: seq<Day>, period: Option<nat>) returns (report: Report)
    requires InDateOrder(days)
    ensures Reports(report, Kept(days, period))
  {
    hide IsPnl, IsReturns, IsDeepestFall, InDateOrder, IsFirstHighest, IsFirstLowest, Sum, From, GainPct;
    var kept := days;
    if period.Some? && days != [] {
      kept := KeepFrom(days, days[|days| - 1].date - period.value);
    }
    KeptInDateOrder(days, period);
    if |kept| < 2 { return NO_REPORT; }
    var pnl, rates := DailyPoints(kept);
    PnlAddsUp(kept, pnl);
    assert |rates| == |kept| by { LengthOfReturns(kept, rates); }
    var best, worst := BestAndWorst(rates);
    var fall := MaxDrawdown(kept);
    report := Report(kept, pnl, rates, GainPct(kept[|kept| - 1]), fall, best, worst);
  }

  lemma LengthOfReturns(days: seq<Day>, rates: seq<int>)
    requires IsReturns(days, rates)
    ensures |rates| == |days|
  {
  }

  /** The report on the period's days, each priced as PriceOn says; fewer than two days give nothing. */
  method BuildPerformance(buys: seq<Lot>, quotes: Quotes, period: Option<nat>) returns (dates: seq<int>, report: Report)
    requires Ordered(quotes)
    ensures IsSeries(dates, quotes)
    ensures Reports(report, Kept(Days(Lots(buys, quotes), quotes, dates), period))
    ensures ShowsWorth(report, Lots(buys, quotes), quotes, dates)
  {
    hide Reports, Ordered, Kept, ShowsWorth, AreDays;
    var maps := BuildMaps(quotes);
    var lots := BuildLots(buys, maps, quotes);
    LotsAreQuoted(buys, quotes);
    dates := SeriesDates(maps, quotes);
    var full := CarryAll(maps, dates, quotes);
    var days := DailyValues(lots, full, dates, quotes);
    DaysInDateOrder(lots, quotes, dates);
    report := Measure(days, period);
    ReportShowsWorth(report, lots, quotes, dates, days, period);
  }

  /** Every day shown is a series date with its own worth and cost, and every profit is that of the dates it lies
      between, to two cents. */
  ghost predicate ShowsWorth(report: Report, lots: seq<Lot>, quotes: Quotes, dates: seq<int>) {
    && |report.pnl| == |report.days|
    && (forall i :: 0 <= i < |report.days| ==> Shows(report.days[i], lots, quotes) && report.days[i].date in dates)
    && (forall i :: 1 <= i < |report.days| ==>
          PnlNear(report.pnl[i], lots, quotes, report.days[i - 1].date, report.days[i].date))
  }

  ghost predicate PnlNear(pnl: int, lots: seq<Lot>, quotes: Quotes, prev: int, d: int) {
    -2.0 <= pnl as real - RawPnl(lots, quotes, prev, d) * 100.0 <= 2.0
  }

  lemma NothingKept(period: Option<nat>)
    ensures Kept([], period) == []
  {
  }

  lemma ReportShowsWorth(report: Report, lots: seq<Lot>, quotes: Quotes, dates: seq<int>, days: seq<Day>,
                         period: Option<nat>)
    requires AreDays(days, lots, quotes, dates) && InDateOrder(days) && Reports(report, Kept(days, period))
    ensures ShowsWorth(report, lots, quotes, dates)
  {
    hide Worth, Cost, Cents, RawPnl, IsReturns, IsDeepestFall, IsFirstHighest, IsFirstLowest, InDateOrder, Kept, Sum;
    NothingKept(period);
    if report.days != [] {
      var k := KeptIsSuffix(days, period);
      forall i | 0 <= i < |report.days| ensures Shows(report.days[i], lots, quotes) && report.days[i].date in dates {
        assert report.days[i] == days[k + i];
        assert ShowsDate(days, days[k + i].date);
      }
      forall i | 1 <= i < |report.days|
        ensures PnlNear(report.pnl[i], lots, quotes, report.days[i - 1].date, report.days[i].date)
      {
        RoundedPnlIsNear(lots, quotes, report.days[i - 1].date, report.days[i].date);
        assert Shows(report.days[i - 1], lots, quotes) && Shows(report.days[i], lots, quotes);
      }
    }
  }

  lemma KeptInDateOrder(days: seq<Day>, period: Option<nat>)
    requires InDateOrder(days)
    ensures InDateOrder(Kept(days, period)) && InDateOrder([])
  {
    if days != [] {
      var _ := KeptIsSuffix(days, period);
      hide Kept;
    }
  }

  method KeepFrom(days: seq<Day>, cutoff: int) returns (kept: seq<Day>)
    ensures kept == From(days, cutoff)
  {
    kept := [];
    for i := 0 to |days|
      invariant kept == From(days[..i], cutoff)
    {
      assert days[..i + 1][..i] == days[..i];
      if days[i].date >= cutoff { kept := kept + [days[i]]; }
    }
    assert days[..|days|] == days;
  }

  lemma {:induction false} LotsAreQuoted(buys: seq<Lot>, quotes: Quotes)
    ensures forall i :: 0 <= i < |Lots(buys, quotes)| ==>
              Lots(buys, quotes)[i].ticker in quotes && quotes[Lots(buys, quotes)[i].ticker] != []
  {
    if buys != [] {
      LotsAreQuoted(buys[..|buys| - 1], quotes);
    }
  }
}
