/** `aggregateTrendData` and `calculateGrowth` of
    `app/router/dashboard/analyti/components/AccountTrends.tsx`: daily
    per-currency transaction volume for the three tracked currencies,
    ascending by day, and the first-to-last growth of one currency. */
module AccountTrends {
  import opened Wrappers
  import opened Sums
  import opened Grouping
  import opened Sorting
  import opened AuthService

  /** `CURRENCIES`: the only codes the trend tracks. */
  datatype Currency = USD | EUR | CUP

  function Code(c: Currency): string {
    match c
    case USD => "USD"
    case EUR => "EUR"
    case CUP => "CUP"
  }

  /** `currency && CURRENCIES.includes(currency)`: the match is exact, so
      "usd" or "Euro" are not tracked. */
  function Tracked(code: Option<string>): (r: Option<Currency>)
    ensures r.Some? <==> code.Some? && code.value in {"USD", "EUR", "CUP"}
    ensures r.Some? ==> Code(r.value) == code.value
  {
    if code == Some("USD") then Some(USD)
    else if code == Some("EUR") then Some(EUR)
    else if code == Some("CUP") then Some(CUP)
    else None
  }

  /** The fields of a transaction the trend reads. `day` is `None` when
      the timestamp is missing or empty, and otherwise its calendar-day
      key; `amount` is `parseFloat(tx.amount)`. */
  datatype TrendTx = TrendTx(day: Option<int>, currency: Option<string>, amount: Option<real>)

  /** The transaction is counted: it has a day, a tracked currency and an
      amount that parsed. */
  predicate Accepted(t: TrendTx) {
    t.day.Some? && Tracked(t.currency).Some? && t.amount.Some?
  }

  function DayOf(t: TrendTx): int {
    t.day.GetOr(0)
  }

  function Amount(t: TrendTx): real {
    t.amount.GetOr(0.0)
  }

  /** `dailyData[dayKey][currency]`: one slot per day and currency. */
  datatype Slot = Slot(day: int, currency: Currency)

  function SlotOf(t: TrendTx): Slot {
    Slot(DayOf(t), Tracked(t.currency).GetOr(USD))
  }

  /** Accepted, on day `d`, in currency `c`. */
  function AcceptedAt(d: int, c: Currency): TrendTx -> bool {
    Both(Accepted, KeyIs(SlotOf, Slot(d, c)))
  }

  /** The volume of currency `c` on day `d`: the sum of the accepted
      amounts of that day and currency. */
  function DaySum(ts: seq<TrendTx>, d: int, c: Currency): real {
    SumOf(ts, Keep(AcceptedAt(d, c), Amount))
  }

  /** One chart point; every currency is present, 0 when it had nothing
      that day. */
  datatype Point = Point(day: int, usd: real, eur: real, cup: real)

  function ValueOf(p: Point, c: Currency): real {
    match c
    case USD => p.usd
    case EUR => p.eur
    case CUP => p.cup
  }

  /** The point day `d` should show. */
  function PointAt(ts: seq<TrendTx>, d: int): Point {
    Point(d, DaySum(ts, d, USD), DaySum(ts, d, EUR), DaySum(ts, d, CUP))
  }

  /** `PointAt`, curried. */
  function PointOfDay(ts: seq<TrendTx>): int -> Point {
    d => PointAt(ts, d)
  }

  /** `CURRENCIES.some((c) => Number(d[c] || 0) > 0)` */
  predicate HasValue(p: Point) {
    p.usd > 0.0 || p.eur > 0.0 || p.cup > 0.0
  }

  predicate Ascending(r: seq<Point>) {
    forall i, j :: 0 <= i < j < |r| ==> r[i].day < r[j].day
  }

  function DayRank(d: int): int {
    d
  }

  /** The `map` step: one point per day key, each currency read from its
      slot with `|| 0`. */
  function PointsFor(days: seq<int>, b: seq<Bucket<Slot>>): (r: seq<Point>)
    ensures |r| == |days|
    ensures forall i :: 0 <= i < |days| ==> r[i] == Point(days[i],
      TotalFor(b, Slot(days[i], USD)), TotalFor(b, Slot(days[i], EUR)), TotalFor(b, Slot(days[i], CUP)))
  {
    seq(|days|, i requires 0 <= i < |days| => Point(days[i],
      TotalFor(b, Slot(days[i], USD)), TotalFor(b, Slot(days[i], EUR)), TotalFor(b, Slot(days[i], CUP))))
  }

  /** The slot of day `d` and currency `c` holds that day's volume in `c`. */
  lemma SlotIsDaySum(ts: seq<TrendTx>, d: int, c: Currency)
    ensures TotalFor(Group(Filter(ts, Accepted), SlotOf, Amount), Slot(d, c)) == DaySum(ts, d, c)
  {
    GroupTotalFor(Filter(ts, Accepted), SlotOf, Amount, Slot(d, c));
    SumOfFilterWhere(ts, Accepted, KeyIs(SlotOf, Slot(d, c)), Amount);
  }

  /** Sorted and without repetitions is strictly ascending. */
  lemma SortedDistinct(days: seq<int>)
    requires SortedBy(days, DayRank) && NoDup(days)
    ensures forall i, j :: 0 <= i < j < |days| ==> days[i] < days[j]
  {
    forall i, j | 0 <= i < j < |days| ensures days[i] < days[j] {
      assert DayRank(days[i]) <= DayRank(days[j]);
    }
  }

  /** The sorted day keys: the days of the accepted transactions, each once,
      strictly ascending. */
  function SortedDays(ts: seq<TrendTx>): (days: seq<int>)
    ensures forall i, j :: 0 <= i < j < |days| ==> days[i] < days[j]
    ensures forall d :: d in days <==> exists j :: 0 <= j < |ts| && Accepted(ts[j]) && DayOf(ts[j]) == d
  {
    var keys := Keys(Filter(ts, Accepted), DayOf);
    var days := SortBy(keys, DayRank);
    KeysUnique(Filter(ts, Accepted), DayOf);
    NoDupPermutation(keys, days);
    SortedDistinct(days);
    SameElements(keys, days);
    forall d ensures d in days <==> exists j :: 0 <= j < |ts| && Accepted(ts[j]) && DayOf(ts[j]) == d {
      AcceptedDay(ts, d);
    }
    days
  }

  /** Two permutations of each other hold the same elements. */
  lemma SameElements(a: seq<int>, b: seq<int>)
    requires multiset(a) == multiset(b)
    ensures forall d :: d in a <==> d in b
  {
    forall d ensures d in a <==> d in b {
      assert d in a <==> d in multiset(a);
      assert d in b <==> d in multiset(b);
    }
  }

  /** A day key is listed exactly when some accepted transaction falls on it. */
  lemma AcceptedDay(ts: seq<TrendTx>, d: int)
    ensures d in Keys(Filter(ts, Accepted), DayOf) <==> exists j :: 0 <= j < |ts| && Accepted(ts[j]) && DayOf(ts[j]) == d
  {
    var accepted := Filter(ts, Accepted);
    KeysComplete(accepted, DayOf, d);
    if exists j :: 0 <= j < |ts| && Accepted(ts[j]) && DayOf(ts[j]) == d {
      var j :| 0 <= j < |ts| && Accepted(ts[j]) && DayOf(ts[j]) == d;
      AcceptedIsKept(ts, j);
    }
    if exists i :: 0 <= i < |accepted| && DayOf(accepted[i]) == d {
      var i :| 0 <= i < |accepted| && DayOf(accepted[i]) == d;
      KeptIsAccepted(ts, i);
    }
  }

  /** An accepted transaction is among the kept ones. */
  lemma AcceptedIsKept(ts: seq<TrendTx>, j: int)
    requires 0 <= j < |ts| && Accepted(ts[j])
    ensures exists i :: 0 <= i < |Filter(ts, Accepted)| && Filter(ts, Accepted)[i] == ts[j]
  {
    assert ts[j] in Filter(ts, Accepted);
  }

  /** A kept transaction is an accepted one. */
  lemma KeptIsAccepted(ts: seq<TrendTx>, i: int)
    requires 0 <= i < |Filter(ts, Accepted)|
    ensures exists j :: 0 <= j < |ts| && ts[j] == Filter(ts, Accepted)[i] && Accepted(ts[j])
  {
    assert Filter(ts, Accepted)[i] in Filter(ts, Accepted);
  }

  /** Dropping points keeps the survivors in ascending order. */
  lemma {:induction false} FilterKeepsAscending(s: seq<Point>, p: Point -> bool)
    requires Ascending(s)
    ensures Ascending(Filter(s, p))
    decreases |s|
  {
    if |s| > 0 {
      var n := |s| - 1;
      assert Ascending(s[..n]);
      FilterKeepsAscending(s[..n], p);
      var f := Filter(s[..n], p);
      if p(s[n]) {
        assert Filter(s, p) == f + [s[n]];
        forall i | 0 <= i < |f| ensures f[i].day < s[n].day {
          assert f[i] in s[..n];
          var k :| 0 <= k < n && s[..n][k] == f[i];
          assert s[k].day < s[n].day;
        }
        AppendAscending(f, s[n]);
      } else {
        assert Filter(s, p) == f + [];
      }
    }
  }

  lemma AppendAscending(f: seq<Point>, x: Point)
    requires Ascending(f)
    requires forall i :: 0 <= i < |f| ==> f[i].day < x.day
    ensures Ascending(f + [x])
  {
    var r := f + [x];
    forall i, j | 0 <= i < j < |r| ensures r[i].day < r[j].day {
      assert r[i] == f[i];
      if j < |f| {
        assert r[j] == f[j];
      }
    }
  }

  /** `days` is what the sort step yields for `ts`: strictly ascending,
      and exactly the days of the accepted transactions. */
  ghost predicate ChartDays(ts: seq<TrendTx>, days: seq<int>) {
    && (forall i, j :: 0 <= i < j < |days| ==> days[i] < days[j])
    && (forall d :: d in days <==> exists j :: 0 <= j < |ts| && Accepted(ts[j]) && DayOf(ts[j]) == d)
  }

  /** Every slot of `b` holds the volume of its day and currency in `ts`. */
  ghost predicate DaySlots(ts: seq<TrendTx>, b: seq<Bucket<Slot>>) {
    forall d: int, c: Currency :: TotalFor(b, Slot(d, c)) == DaySum(ts, d, c)
  }

  /** The grouping of the accepted transactions by slot holds the day sums. */
  lemma SlotsAreDaySums(ts: seq<TrendTx>)
    ensures DaySlots(ts, Group(Filter(ts, Accepted), SlotOf, Amount))
  {
    forall d: int, c: Currency {
      SlotIsDaySum(ts, d, c);
    }
  }

  /** `aggregateTrendData`: one point per day that has an accepted
      transaction and a positive volume in some currency, ascending by
      day, each carrying that day's volume in every currency. */
  function AggregateTrend(ts: seq<TrendTx>): (r: seq<Point>)
    ensures Ascending(r)
    ensures forall i :: 0 <= i < |r| ==> r[i] == PointAt(ts, r[i].day) && HasValue(r[i])
    ensures forall d :: ((exists i :: 0 <= i < |r| && r[i].day == d)
      <==> (exists j :: 0 <= j < |ts| && Accepted(ts[j]) && DayOf(ts[j]) == d) && HasValue(PointAt(ts, d)))
  {
    SlotsAreDaySums(ts);
    ChartFrom(ts, SortedDays(ts), Group(Filter(ts, Accepted), SlotOf, Amount))
  }

  /** The `map` and `filter` steps over the sorted days `days` and the slot
      totals `b`. */
  function ChartFrom(ts: seq<TrendTx>, days: seq<int>, b: seq<Bucket<Slot>>): (r: seq<Point>)
    requires ChartDays(ts, days) && DaySlots(ts, b)
    ensures Ascending(r)
    ensures forall i :: 0 <= i < |r| ==> r[i] == PointAt(ts, r[i].day) && HasValue(r[i])
    ensures forall d :: ((exists i :: 0 <= i < |r| && r[i].day == d)
      <==> (exists j :: 0 <= j < |ts| && Accepted(ts[j]) && DayOf(ts[j]) == d) && HasValue(PointAt(ts, d)))
  {
    var points := PointsFor(days, b);
    assert forall i :: 0 <= i < |days| ==> points[i] == PointOfDay(ts)(days[i]);
    FilterKeepsAscending(points, HasValue);
    ShownPoints(days, points, PointOfDay(ts));
    var r := Filter(points, HasValue);
    forall d ensures (exists i :: 0 <= i < |r| && r[i].day == d)
      <==> (exists j :: 0 <= j < |ts| && Accepted(ts[j]) && DayOf(ts[j]) == d) && HasValue(PointAt(ts, d))
    {
      ShownDay(days, points, PointOfDay(ts), d);
    }
    r
  }

  /** A day survives the `filter` step exactly when it is listed and its
      point has a positive volume. */
  lemma ShownDay(days: seq<int>, points: seq<Point>, want: int -> Point, d: int)
    requires |points| == |days| && forall i :: 0 <= i < |days| ==> points[i] == want(days[i])
    requires forall d' :: want(d').day == d'
    ensures (exists i :: 0 <= i < |Filter(points, HasValue)| && Filter(points, HasValue)[i].day == d)
      ==> d in days && HasValue(want(d))
    ensures d in days && HasValue(want(d)) ==>
      (exists i :: 0 <= i < |Filter(points, HasValue)| && Filter(points, HasValue)[i].day == d)
  {
    var r := Filter(points, HasValue);
    if d in days && HasValue(want(d)) {
      var k :| 0 <= k < |days| && days[k] == d;
      assert points[k] in r;
      var i :| 0 <= i < |r| && r[i] == points[k];
      assert r[i].day == d;
    }
    if exists i :: 0 <= i < |r| && r[i].day == d {
      var i :| 0 <= i < |r| && r[i].day == d;
      assert r[i] in points;
      var k :| 0 <= k < |points| && points[k] == r[i];
      assert r[i] == want(days[k]) && HasValue(r[i]);
      assert want(days[k]).day == days[k];
      assert days[k] == d && want(d) == r[i];
      assert d in days;
      assert HasValue(want(d));
    }
  }

  /** Every surviving point is the point its day should show, and has a
      positive volume. */
  lemma ShownPoints(days: seq<int>, points: seq<Point>, want: int -> Point)
    requires |points| == |days| && forall i :: 0 <= i < |days| ==> points[i] == want(days[i])
    requires forall d' :: want(d').day == d'
    ensures forall i :: 0 <= i < |Filter(points, HasValue)| ==>
      Filter(points, HasValue)[i] == want(Filter(points, HasValue)[i].day) && HasValue(Filter(points, HasValue)[i])
  {
    var r := Filter(points, HasValue);
    forall i | 0 <= i < |r| ensures r[i] == want(r[i].day) {
      assert r[i] in points;
      var k :| 0 <= k < |points| && points[k] == r[i];
      assert r[i] == want(days[k]);
      assert want(days[k]).day == days[k];
    }
  }

  /** A transaction that is not accepted changes nothing. */
  lemma RejectedIgnored(ts: seq<TrendTx>, t: TrendTx, d: int, c: Currency)
    requires !Accepted(t)
    ensures DaySum(ts + [t], d, c) == DaySum(ts, d, c)
  {
    assert (ts + [t])[..|ts|] == ts;
  }

  /** The volumes do not depend on the order of the transactions. */
  lemma DaySumOrderIndependent(a: seq<TrendTx>, b: seq<TrendTx>, d: int, c: Currency)
    requires multiset(a) == multiset(b)
    ensures DaySum(a, d, c) == DaySum(b, d, c)
  {
    SumOfPermutation(a, b, Keep(AcceptedAt(d, c), Amount));
  }

  /** The result of `calculateGrowth`: "N/A", "Nuevo" or a percentage. */
  datatype Growth = NotAvailable | Fresh | Percent(value: real)

  /** `calculateGrowth`: the change from the first to the last point of
      currency `c`, in percent of the first. */
  function CalculateGrowth(data: seq<Point>, c: Currency): (g: Growth)
    ensures |data| < 2 ==> g == NotAvailable
    ensures |data| >= 2 && ValueOf(data[0], c) == 0.0 ==>
      g == (if ValueOf(data[|data| - 1], c) > 0.0 then Fresh else NotAvailable)
    ensures g.Percent? <==> |data| >= 2 && ValueOf(data[0], c) != 0.0
    ensures g.Percent? ==>
      ValueOf(data[|data| - 1], c) == ValueOf(data[0], c) * (1.0 + g.value / 100.0)
  {
    if |data| < 2 then NotAvailable
    else
      var last := ValueOf(data[|data| - 1], c);
      var first := ValueOf(data[0], c);
      if first == 0.0 then (if last > 0.0 then Fresh else NotAvailable)
      else
        var growth := (last - first) / first * 100.0;
        assert first * (1.0 + growth / 100.0) == first + (last - first);
        Percent(growth)
  }

  /** Growth is positive exactly when the last value is further from zero
      than the first in the first value's direction. */
  lemma GrowthSign(data: seq<Point>, c: Currency)
    requires |data| >= 2 && ValueOf(data[0], c) > 0.0
    ensures CalculateGrowth(data, c).Percent?
    ensures CalculateGrowth(data, c).value > 0.0 <==> ValueOf(data[|data| - 1], c) > ValueOf(data[0], c)
  {
    var g := CalculateGrowth(data, c).value;
    var first := ValueOf(data[0], c);
    assert ValueOf(data[|data| - 1], c) - first == first * g / 100.0;
  }

  /** A fetched record as the trend receives it: the processed transaction
      and the value of its `createAt` field, if the payload has one. The
      `Transaction` type declares `createdAt` instead, and the trend reaches
      `createAt` only through an `unknown` cast. */
  datatype Fetched = Fetched(tx: Transaction, createAt: Option<string>)

  /** What the trend reads from a record, as written: the day comes from
      `createAt`, and a record without one, or with an empty one, has no
      day. */
  function TrendViewAsWritten(f: Fetched, dayOf: string -> int): (v: TrendTx)
    ensures v.day.Some? <==> f.createAt.Some? && f.createAt.value != ""
    ensures v.day.Some? ==> v.day.value == dayOf(f.createAt.value)
    ensures v.currency == f.tx.card.account.accountType && v.amount == f.tx.amount
  {
    TrendTx(if f.createAt.Some? && f.createAt.value != "" then Some(dayOf(f.createAt.value)) else None,
            f.tx.card.account.accountType, f.tx.amount)
  }

  /** The transactions of the fetched records. */
  function Txs(fs: seq<Fetched>): (ts: seq<Transaction>)
    ensures |ts| == |fs| && forall i :: 0 <= i < |fs| ==> ts[i] == fs[i].tx
  {
    seq(|fs|, i requires 0 <= i < |fs| => fs[i].tx)
  }

  /** The views of the fetched records, as written. */
  function ViewsAsWritten(fs: seq<Fetched>, dayOf: string -> int): (vs: seq<TrendTx>)
    ensures |vs| == |fs| && forall i :: 0 <= i < |fs| ==> vs[i] == TrendViewAsWritten(fs[i], dayOf)
  {
    seq(|fs|, i requires 0 <= i < |fs| => TrendViewAsWritten(fs[i], dayOf))
  }

  /** The chart as written. When no record carries `createAt` it is empty,
      whatever the transactions are; when every record carries it with the
      value of `createdAt`, it is the chart read from `createdAt`. */
  function TrendAsWritten(fs: seq<Fetched>, dayOf: string -> int): (r: seq<Point>)
    ensures (forall j :: 0 <= j < |fs| ==> fs[j].createAt.None?) ==> r == []
    ensures (forall j :: 0 <= j < |fs| ==> fs[j].createAt == Some(fs[j].tx.createdAt)) ==> r == Trend(Txs(fs), dayOf)
  {
    AsWrittenCases(fs, dayOf);
    AggregateTrend(ViewsAsWritten(fs, dayOf))
  }

  lemma AsWrittenCases(fs: seq<Fetched>, dayOf: string -> int)
    ensures (forall j :: 0 <= j < |fs| ==> fs[j].createAt.None?) ==> AggregateTrend(ViewsAsWritten(fs, dayOf)) == []
    ensures (forall j :: 0 <= j < |fs| ==> fs[j].createAt == Some(fs[j].tx.createdAt))
      ==> AggregateTrend(ViewsAsWritten(fs, dayOf)) == Trend(Txs(fs), dayOf)
  {
    var views := ViewsAsWritten(fs, dayOf);
    if forall j :: 0 <= j < |fs| ==> fs[j].createAt.None? {
      UndatedMakesNoChart(views);
    }
    if forall j :: 0 <= j < |fs| ==> fs[j].createAt == Some(fs[j].tx.createdAt) {
      var ts := Txs(fs);
      assert views == seq(|ts|, i requires 0 <= i < |ts| => TrendView(ts[i], dayOf));
    }
  }

  /** Transactions without a day make an empty chart. */
  lemma UndatedMakesNoChart(ts: seq<TrendTx>)
    requires forall j :: 0 <= j < |ts| ==> ts[j].day.None?
    ensures AggregateTrend(ts) == []
  {
    FilterNone(ts, Accepted);
    assert SortedDays(ts) == [];
    assert PointsFor([], Group([], SlotOf, Amount)) == [];
  }

  /** Reading the timestamp the record does carry; `dayOf` is the
      calendar-day key of a timestamp, and an empty timestamp has none. */
  function TrendView(t: Transaction, dayOf: string -> int): (v: TrendTx)
    ensures v.day.Some? <==> t.createdAt != ""
    ensures v.day.Some? ==> v.day.value == dayOf(t.createdAt)
    ensures v.currency == t.card.account.accountType && v.amount == t.amount
  {
    TrendTx(if t.createdAt == "" then None else Some(dayOf(t.createdAt)), t.card.account.accountType, t.amount)
  }

  /** The chart with the timestamp read from `createdAt`. */
  function Trend(ts: seq<Transaction>, dayOf: string -> int): seq<Point> {
    AggregateTrend(seq(|ts|, i requires 0 <= i < |ts| => TrendView(ts[i], dayOf)))
  }

  /** A dated USD transaction of a positive amount makes, on its own, a
      point holding that amount in dollars and nothing else. */
  lemma DatedUsdPoint(v: TrendTx)
    requires v.day.Some? && v.currency == Some("USD") && v.amount.Some? && v.amount.value > 0.0
    ensures PointAt([v], v.day.value) == Point(v.day.value, v.amount.value, 0.0, 0.0)
  {
    var d := v.day.value;
    assert Tracked(v.currency) == Some(USD);
    assert SlotOf(v) == Slot(d, USD);
    assert AcceptedAt(d, USD)(v) && !AcceptedAt(d, EUR)(v) && !AcceptedAt(d, CUP)(v);
    SumOfSingleton(v, Keep(AcceptedAt(d, USD), Amount));
    SumOfSingleton(v, Keep(AcceptedAt(d, EUR), Amount));
    SumOfSingleton(v, Keep(AcceptedAt(d, CUP), Amount));
  }

  /** One accepted transaction whose point has a value makes a one-point
      chart. */
  lemma OneAcceptedOnePoint(v: TrendTx)
    requires Accepted(v) && HasValue(PointAt([v], DayOf(v)))
    ensures AggregateTrend([v]) == [PointAt([v], DayOf(v))]
  {
    var d := DayOf(v);
    assert [v][..0] == [];
    assert Filter([v], Accepted) == [v];
    assert Keys([v], DayOf) == [d];
    assert [d][..0] == [];
    assert SortBy([d], DayRank) == [d];
    SlotsAreDaySums([v]);
    var points := PointsFor([d], Group([v], SlotOf, Amount));
    assert points == [PointAt([v], d)];
    assert points[..0] == [];
    assert Filter(points, HasValue) == points;
  }

  /** Read from `createdAt`, a single dated USD transaction of a positive
      amount makes a one-point chart on its day. */
  lemma TrendShowsDatedTransaction(t: Transaction, dayOf: string -> int)
    requires t.createdAt != "" && t.card.account.accountType == Some("USD")
    requires t.amount.Some? && t.amount.value > 0.0
    ensures Trend([t], dayOf) == [Point(dayOf(t.createdAt), t.amount.value, 0.0, 0.0)]
  {
    var v := TrendView(t, dayOf);
    var views := seq(1, i requires 0 <= i < 1 => TrendView([t][i], dayOf));
    assert views == [v];
    DatedUsdPoint(v);
    OneAcceptedOnePoint(v);
  }

  /** A dated USD record that carries only `createdAt` is charted when the
      day is read from `createdAt`, and dropped as written. */
  lemma AsWrittenDropsDatedTransaction(t: Transaction, dayOf: string -> int)
    requires t.createdAt != "" && t.card.account.accountType == Some("USD")
    requires t.amount.Some? && t.amount.value > 0.0
    ensures TrendAsWritten([Fetched(t, None)], dayOf) == []
    ensures Trend([t], dayOf) != []
  {
    TrendShowsDatedTransaction(t, dayOf);
  }
}
