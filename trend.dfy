/** The mood-tracker series: each row's level scored low = 1, medium = 2,
    high = 3, rows grouped by date, the mean score of each group, dates in
    ascending order. Dates are the `%Y-%m-%d` strings the log holds, whose
    lexicographic order is their chronological order; the means are exact. */
module Trend {
  import opened Stress
  import opened InteractionLog

  function Score(l: Level): (s: nat)
    ensures 1 <= s <= 3
  {
    match l
    case Low => 1
    case Medium => 2
    case High => 3
  }

  /** Lexicographic order on strings: `a` sorts strictly before `b`. */
  predicate Before(a: string, b: string) {
    if a == [] then b != []
    else b != [] && (a[0] < b[0] || (a[0] == b[0] && Before(a[1..], b[1..])))
  }

  lemma {:induction false} BeforeIrreflexive(a: string)
    ensures !Before(a, a)
  {
    if a != [] { BeforeIrreflexive(a[1..]); }
  }

  lemma {:induction false} BeforeTransitive(a: string, b: string, c: string)
    requires Before(a, b) && Before(b, c)
    ensures Before(a, c)
  {
    if a != [] && a[0] == b[0] && b[0] == c[0] {
      BeforeTransitive(a[1..], b[1..], c[1..]);
    }
  }

  lemma {:induction false} BeforeTotal(a: string, b: string)
    requires a != b
    ensures Before(a, b) || Before(b, a)
  {
    if a != [] && b != [] && a[0] == b[0] {
      assert a == [a[0]] + a[1..] && b == [b[0]] + b[1..];
      BeforeTotal(a[1..], b[1..]);
    }
  }

  predicate Ascending(ds: seq<string>) {
    forall i, j :: 0 <= i < j < |ds| ==> Before(ds[i], ds[j])
  }

  /** Insertion of a date into an ascending list of distinct dates. */
  function Insert(ds: seq<string>, d: string): (r: seq<string>)
    requires Ascending(ds)
    ensures Ascending(r)
    ensures forall x :: x in r <==> x in ds || x == d
  {
    if ds == [] then [d]
    else if d == ds[0] then ds
    else if Before(d, ds[0]) then
      assert forall j :: 0 <= j < |ds| ==> Before(d, ds[j]) by {
        forall j | 0 <= j < |ds| ensures Before(d, ds[j]) {
          if j > 0 { BeforeTransitive(d, ds[0], ds[j]); }
        }
      }
      [d] + ds
    else
      BeforeTotal(d, ds[0]);
      var rest := Insert(ds[1..], d);
      assert forall x :: x in rest ==> Before(ds[0], x);
      [ds[0]] + rest
  }

  /** The distinct dates of the rows. */
  function DatesOf(rows: seq<Row>): set<string> {
    if rows == [] then {} else {rows[0].date} + DatesOf(rows[1..])
  }

  /** The group keys in the order `groupby` puts them: ascending, each once. */
  function Dates(rows: seq<Row>): (ds: seq<string>)
    ensures Ascending(ds)
    ensures forall d :: d in ds <==> d in DatesOf(rows)
  {
    if rows == [] then [] else Insert(Dates(rows[1..]), rows[0].date)
  }

  /** Number of rows of date `d`. */
  function Count(rows: seq<Row>, d: string): (n: nat)
    ensures n > 0 <==> d in DatesOf(rows)
  {
    if rows == [] then 0 else (if rows[0].date == d then 1 else 0) + Count(rows[1..], d)
  }

  /** Sum of the scores of the rows of date `d`. */
  function Total(rows: seq<Row>, d: string): (t: nat)
    ensures Count(rows, d) <= t <= 3 * Count(rows, d)
  {
    if rows == [] then 0 else (if rows[0].date == d then Score(rows[0].level) else 0) + Total(rows[1..], d)
  }

  /** The mean score of date `d`, exactly. */
  function Mean(rows: seq<Row>, d: string): (m: real)
    requires d in DatesOf(rows)
    ensures 1.0 <= m <= 3.0
  {
    var n, t := Count(rows, d) as real, Total(rows, d) as real;
    QuotientBounds(t, n);
    t / n
  }

  lemma NonNegativeFactor(d: real, n: real)
    requires 0.0 < n && 0.0 <= d * n
    ensures 0.0 <= d
  {
  }

  lemma QuotientBounds(t: real, n: real)
    requires 0.0 < n && n <= t <= 3.0 * n
    ensures 1.0 <= t / n <= 3.0
  {
    var m := t / n;
    assert m * n == t;
    assert (m - 1.0) * n == t - n;
    NonNegativeFactor(m - 1.0, n);
    assert (3.0 - m) * n == 3.0 * n - t;
    NonNegativeFactor(3.0 - m, n);
  }

  datatype Point = Point(date: string, mean: real)

  /** `df.groupby("date")["stress_score"].mean()`: one point per distinct
      date, in strictly ascending date order, each the mean score of its
      date's rows. */
  function Trend(rows: seq<Row>): (t: seq<Point>)
    ensures forall i, j :: 0 <= i < j < |t| ==> Before(t[i].date, t[j].date)
    ensures forall i :: 0 <= i < |t| ==> t[i].date in DatesOf(rows) && t[i].mean == Mean(rows, t[i].date)
    ensures forall i :: 0 <= i < |t| ==> 1.0 <= t[i].mean <= 3.0
    ensures forall d :: d in DatesOf(rows) ==> exists i :: 0 <= i < |t| && t[i].date == d
  {
    var ds := Dates(rows);
    var t := seq(|ds|, i requires 0 <= i < |ds| => Point(ds[i], Mean(rows, ds[i])));
    assert forall d :: d in DatesOf(rows) ==> exists i :: 0 <= i < |t| && t[i].date == d by {
      forall d | d in DatesOf(rows) ensures exists i :: 0 <= i < |t| && t[i].date == d {
        var i :| 0 <= i < |ds| && ds[i] == d;
        assert t[i].date == d;
      }
    }
    t
  }

  /** Two entries on one day, `low` and `high`, chart as 2 on that day. */
  lemma SameDayLowAndHigh(d: string, m: Mood, text: string, journal: string)
    ensures Trend([Row(d, m, Low, text, journal), Row(d, m, High, text, journal)]) == [Point(d, 2.0)]
  {
    var rows := [Row(d, m, Low, text, journal), Row(d, m, High, text, journal)];
    assert rows[1..] == [Row(d, m, High, text, journal)];
    assert rows[1..][1..] == [];
    assert Dates(rows[1..]) == [d];
    assert Dates(rows) == [d];
    assert Count(rows, d) == 2 && Total(rows, d) == 4;
  }

  /** A single `medium` entry charts as 2. */
  lemma SingleMedium(d: string, m: Mood, text: string, journal: string)
    ensures Trend([Row(d, m, Medium, text, journal)]) == [Point(d, 2.0)]
  {
    var rows := [Row(d, m, Medium, text, journal)];
    assert rows[1..] == [];
    assert Dates(rows) == [d];
  }

  /** The mood-tracker tab: no chart without a log file. */
  datatype Chart = NoChart | Series(points: seq<Point>)

  function MoodTracker(v: LogView): (c: Chart)
    ensures c.NoChart? <==> v.NoData?
    ensures c.Series? ==> c.points == Trend(v.rows)
  {
    match v
    case NoData => NoChart
    case Data(rows) => Series(Trend(rows))
  }
}
