/** Dated observations in date order, looked up as of a date, and rounding to cents. */
module Series {
  import opened Wrappers

  /** A row of a table; a missing value is a NaN in the stored column. */
  datatype Dated<T> = Dated(date: int, value: Option<T>)

  ghost predicate Ascending<T>(rows: seq<Dated<T>>) {
    forall i, j :: 0 <= i < j < |rows| ==> rows[i].date <= rows[j].date
  }

  predicate RowOn<T>(rows: seq<Dated<T>>, d: int) {
    exists i :: 0 <= i < |rows| && rows[i].date == d
  }

  /** The last value present on or before a date. */
  function AsOf<T>(rows: seq<Dated<T>>, d: int): Option<T> {
    if rows == [] then None
    else
      var last := rows[|rows| - 1];
      if last.date <= d && last.value.Some? then last.value else AsOf(rows[..|rows| - 1], d)
  }

  /** Row i has the value, and no row after it on or before the date has any. */
  ghost predicate IsLatest<T>(rows: seq<Dated<T>>, d: int, i: nat) {
    && i < |rows| && rows[i].date <= d && rows[i].value.Some?
    && forall j :: i < j < |rows| && rows[j].date <= d ==> rows[j].value.None?
  }

  /** The as-of value is that of the last row on or before the date that has one, if there is any. */
  lemma {:induction false} AsOfIsLatest<T>(rows: seq<Dated<T>>, d: int)
    ensures forall i: nat :: IsLatest(rows, d, i) ==> AsOf(rows, d) == rows[i].value
    ensures AsOf(rows, d).None? <==> forall i :: 0 <= i < |rows| && rows[i].date <= d ==> rows[i].value.None?
  {
    if rows != [] {
      var before, last := rows[..|rows| - 1], rows[|rows| - 1];
      AsOfIsLatest(before, d);
      forall i: nat | IsLatest(rows, d, i) ensures AsOf(rows, d) == rows[i].value {
        if i < |before| {
          assert IsLatest(before, d, i);
        }
      }
      assert forall i :: 0 <= i < |before| ==> before[i] == rows[i];
    }
  }

  /** The map holds the as-of value of every row date that has one, and nothing else. */
  ghost predicate Indexes<T(!new)>(m: map<int, T>, rows: seq<Dated<T>>) {
    forall d: int {:trigger RowOn(rows, d)} ::
      && (d in m <==> RowOn(rows, d) && AsOf(rows, d).Some?)
      && (d in m ==> AsOf(rows, d) == Some(m[d]))
  }

  /** Adding a row at the end: earlier dates are untouched, later dates see the new value if there is one. */
  lemma IndexesExtend<T(!new)>(m: map<int, T>, rows: seq<Dated<T>>, row: Dated<T>, value: Option<T>)
    requires Indexes(m, rows) && Ascending(rows + [row])
    requires value == if row.value.Some? then row.value else AsOf(rows, row.date)
    ensures Indexes(if value.Some? then m[row.date := value.value] else m, rows + [row])
    ensures AsOf(rows + [row], row.date) == value
  {
    var longer := rows + [row];
    assert longer[..|rows|] == rows && longer[|rows|] == row;
    forall d: int ensures RowOn(longer, d) <==> RowOn(rows, d) || d == row.date {
      if RowOn(rows, d) {
        var i :| 0 <= i < |rows| && rows[i].date == d;
        assert longer[i].date == d;
      }
    }
    forall d: int | RowOn(rows, d) ensures d <= row.date {
      var i :| 0 <= i < |rows| && rows[i].date == d;
      assert longer[i].date <= longer[|rows|].date;
    }
    hide Ascending, RowOn;
    var after := if value.Some? then m[row.date := value.value] else m;
    forall d: int
      ensures d in after <==> RowOn(longer, d) && AsOf(longer, d).Some?
      ensures d in after ==> AsOf(longer, d) == Some(after[d])
    {
      assert AsOf(longer, d) == if row.date <= d && row.value.Some? then row.value else AsOf(rows, d);
      assert RowOn(longer, d) <==> RowOn(rows, d) || d == row.date;
      assert RowOn(rows, d) ==> d <= row.date;
    }
  }

  lemma {:induction false} AsOfBeyond<T>(rows: seq<Dated<T>>, d: int, e: int)
    requires Ascending(rows) && d <= e && (rows != [] ==> rows[|rows| - 1].date <= d)
    ensures AsOf(rows, d) == AsOf(rows, e)
  {
    if rows != [] {
      AsOfBeyond(rows[..|rows| - 1], d, e);
    }
  }

  /** Forward fill: each row takes the last value seen, rows before the first value are skipped. */
  method FillForward<T(!new)>(rows: seq<Dated<T>>) returns (m: map<int, T>)
    requires Ascending(rows)
    ensures Indexes(m, rows)
  {
    m := map[];
    var last: Option<T> := None;
    for i := 0 to |rows|
      invariant Indexes(m, rows[..i])
      invariant last == if i == 0 then None else AsOf(rows[..i], rows[i - 1].date)
    {
      var row := rows[i];
      assert rows[..i + 1] == rows[..i] + [row];
      if i > 0 { AsOfBeyond(rows[..i], rows[i - 1].date, row.date); }
      if row.value.Some? { last := row.value; }
      IndexesExtend(m, rows[..i], row, last);
      if last.Some? { m := m[row.date := last.value]; }
    }
    assert rows[..|rows|] == rows;
  }

  // ------------------------------------------------------------ date order

  ghost predicate Increasing(ds: seq<int>) {
    forall i, j :: 0 <= i < j < |ds| ==> ds[i] < ds[j]
  }

  lemma EmptyOrMember(s: set<int>)
    ensures s == {} || exists x :: x in s
  {
    if forall x :: x !in s {
      assert s == {};
    }
  }

  lemma {:induction false} EarliestExists(s: set<int>, x: int)
    requires x in s
    ensures exists y :: y in s && forall e :: e in s ==> y <= e
  {
    var rest := s - {x};
    assert forall e :: e in s ==> e == x || e in rest;
    if w :| w in rest {
      EarliestExists(rest, w);
      var y :| y in rest && forall e :: e in rest ==> y <= e;
      assert y in s;
    }
  }

  method SortedDates(s: set<int>) returns (ds: seq<int>)
    ensures Increasing(ds)
    ensures forall d :: d in ds <==> d in s
  {
    ds := [];
    var rest := s;
    while rest != {}
      invariant rest <= s && Increasing(ds)
      invariant forall d :: d in s <==> d in ds || d in rest
      invariant forall d, e :: d in ds && e in rest ==> d < e
      decreases |rest|
    {
      EmptyOrMember(rest);
      var any :| any in rest;
      EarliestExists(rest, any);
      var next :| next in rest && forall e :: e in rest ==> next <= e;
      assert forall i :: 0 <= i < |ds| ==> ds[i] in ds;
      ds := ds + [next];
      rest := rest - {next};
    }
  }

  // -------------------------------------------------------------- rounding

  /** Rounding to the nearest integer, ties to the even one. */
  function HalfEven(x: real): int {
    var low, rest := x.Floor, x - x.Floor as real;
    if rest < 0.5 || (rest == 0.5 && low % 2 == 0) then low else low + 1
  }

  /** round(x, 2), in cents. */
  function Cents(x: real): int {
    HalfEven(x * 100.0)
  }

  lemma HalfEvenIsMonotone(x: real, y: real)
    requires x <= y
    ensures HalfEven(x) <= HalfEven(y)
  {
    if x.Floor < y.Floor {
      assert HalfEven(x) <= x.Floor + 1;
    } else {
      assert x.Floor <= y.Floor;
    }
  }

  lemma HalfEvenIsNear(x: real)
    ensures -0.5 <= HalfEven(x) as real - x <= 0.5
  {
  }

  /** Exactly between two integers it is the even one. */
  lemma TiesGoToEven(n: int)
    ensures HalfEven(n as real + 0.5) % 2 == 0
  {
    assert (n as real + 0.5).Floor == n;
  }
}
