/**
 * The dashboard's report tables, computed from the joined order lines and
 * the order list. The database's GROUP BY ... SUM queries are `GroupSums`
 * over one entry per line; the hand-written bucket loops of the weekday,
 * day, hour, group-share and month-share reports are `Accumulate` over one
 * entry per query row, followed by a sort.
 */
module Reports {
  import opened Domain
  import opened Grouping
  import opened Sorting
  import opened Labels

  /** A line's quantity and its revenue, quantity times unit price. */
  function LineAmount(l: Line): Amount {
    Amount(l.quantity, l.quantity * l.unitPrice)
  }

  /** The summed quantity and revenue of all lines. */
  function SumLines(lines: seq<Line>): Amount {
    if lines == [] then Zero else SumLines(lines[..|lines| - 1]).Plus(LineAmount(lines[|lines| - 1]))
  }

  /** One entry per line, keyed by `key`, as a GROUP BY over the lines sees them. */
  function LineEntries<K>(lines: seq<Line>, key: Line -> K): seq<Entry<K, ()>> {
    seq(|lines|, i requires 0 <= i < |lines| => Entry(key(lines[i]), (), LineAmount(lines[i])))
  }

  /** However the lines are keyed, their entries sum to all lines. */
  lemma {:induction false} LineEntriesTotal<K>(lines: seq<Line>, key: Line -> K)
    ensures Total(LineEntries(lines, key)) == SumLines(lines)
  {
    if lines != [] {
      var p := lines[..|lines| - 1];
      assert LineEntries(lines, key)[..|lines| - 1] == LineEntries(p, key);
      LineEntriesTotal(p, key);
    }
  }

  /** Relabelling grouped rows as entries, amount for amount, keeps the grand total. */
  lemma {:induction false} RelabelTotal<K1, K2, D>(items: seq<(K1, Amount)>, es: seq<Entry<K2, D>>)
    requires |es| == |items| && forall i :: 0 <= i < |es| ==> es[i].amount == items[i].1
    ensures Total(es) == SumPairs(items)
  {
    if es != [] {
      RelabelTotal(items[..|items| - 1], es[..|es| - 1]);
    }
  }

  // Q1: one row per order line.

  datatype ProductLine = ProductLine(
    groupCode: string, groupName: string, productCode: string, productName: string,
    revenue: int, qty: int)

  function Q1(lines: seq<Line>): (r: seq<ProductLine>)
    ensures |r| == |lines|
  {
    seq(|lines|, i requires 0 <= i < |lines| =>
      var l := lines[i];
      ProductLine(l.groupCode, l.groupName, l.productCode, l.productName, l.quantity * l.unitPrice, l.quantity))
  }

  function SumProductLines(r: seq<ProductLine>): Amount {
    if r == [] then Zero else SumProductLines(r[..|r| - 1]).Plus(Amount(r[|r| - 1].qty, r[|r| - 1].revenue))
  }

  /**
   * Each row of the line report shows its line's product and group, the
   * quantity of the order line, and that quantity times the product's price.
   */
  lemma Q1FromTables(t: Tables, lines: seq<Line>, i: int)
    requires Consistent(t) && LinesOf(t, lines) && 0 <= i < |lines|
    ensures var k := (lines[i].orderCode, lines[i].productCode);
      var r := Q1(lines)[i];
      var product := t.products[k.1];
      && r.productCode == k.1 && r.productName == product.name
      && r.groupCode == product.groupCode && r.groupName == t.groups[product.groupCode].name
      && r.qty == t.details[k] && r.revenue == t.details[k] * product.unitPrice
  {
    var k := (lines[i].orderCode, lines[i].productCode);
    assert JoinedLine(t, k, lines[i]);
  }

  lemma {:induction false} Q1Total(lines: seq<Line>)
    ensures SumProductLines(Q1(lines)) == SumLines(lines)
  {
    if lines != [] {
      var p := lines[..|lines| - 1];
      assert Q1(lines)[..|lines| - 1] == Q1(p);
      Q1Total(p);
    }
  }

  // Q2: quantity and revenue per product group.

  function GroupOf(l: Line): (string, string) {
    (l.groupCode, l.groupName)
  }

  function Q2(lines: seq<Line>): seq<((string, string), Amount)> {
    GroupSums(LineEntries(lines, GroupOf))
  }

  /**
   * One row per (group code, group name), each with the summed quantity and
   * revenue of that group's lines, and all rows together sum to the line report.
   */
  lemma Q2Totals(lines: seq<Line>)
    ensures var es := LineEntries(lines, GroupOf);
      && Distinct(KeyOrder(es)) && |Q2(lines)| == |KeyOrder(es)|
      && (forall i :: 0 <= i < |Q2(lines)| ==>
            Q2(lines)[i].0 in KeysOf(es) && Q2(lines)[i].1 == TotalOf(es, Q2(lines)[i].0))
      && (forall k :: k in KeysOf(es) ==> exists i :: 0 <= i < |Q2(lines)| && Q2(lines)[i].0 == k)
      && SumPairs(Q2(lines)) == SumProductLines(Q1(lines))
  {
    var es := LineEntries(lines, GroupOf);
    forall i | 0 <= i < |Q2(lines)| ensures Q2(lines)[i].0 in KeysOf(es) && Q2(lines)[i].1 == TotalOf(es, Q2(lines)[i].0) {
      GroupSumsRows(es, i);
    }
    forall k | k in KeysOf(es) ensures exists i :: 0 <= i < |Q2(lines)| && Q2(lines)[i].0 == k {
      GroupSumsKeys(es, k);
      var i :| 0 <= i < |GroupSums(es)| && GroupSums(es)[i].0 == k;
      assert Q2(lines)[i].0 == k;
    }
    KeyOrderCorrect(es);
    GroupSumsTotal(es);
    LineEntriesTotal(lines, GroupOf);
    Q1Total(lines);
  }

  // Q3: quantity and revenue per month, labelled `MM`.

  function MonthOf(l: Line): Month {
    l.time.month
  }

  function Q3(lines: seq<Line>): seq<(string, Amount)> {
    var items := GroupSums(LineEntries(lines, MonthOf));
    seq(|items|, i requires 0 <= i < |items| => (MonthLabel(items[i].0), items[i].1))
  }

  /** Each month row's label reads back as a month of the lines, with that month's summed amount. */
  lemma Q3Rows(lines: seq<Line>, i: int)
    requires 0 <= i < |Q3(lines)|
    ensures var es: seq<Entry<Month, ()>> := LineEntries(lines, MonthOf);
      var title := Q3(lines)[i].0;
      && |title| == 2 && 1 <= DigitsValue(title) <= 12
      && DigitsValue(title) in KeysOf(es)
      && Q3(lines)[i].1 == TotalOf(es, DigitsValue(title))
  {
    var es := LineEntries(lines, MonthOf);
    var items := GroupSums(es);
    GroupSumsRows(es, i);
    var m := items[i].0;
    assert Q3(lines)[i] == (TwoDigits(m), items[i].1);
    TwoDigitsRoundTrip(m);
    assert DigitsValue(Q3(lines)[i].0) == m;
  }

  /** Relabelling grouped rows, amount for amount, keeps their sum. */
  lemma {:induction false} RelabelPairs<K1, K2>(a: seq<(K1, Amount)>, b: seq<(K2, Amount)>)
    requires |a| == |b| && forall i :: 0 <= i < |a| ==> a[i].1 == b[i].1
    ensures SumPairs(a) == SumPairs(b)
  {
    if a != [] {
      RelabelPairs(a[..|a| - 1], b[..|b| - 1]);
    }
  }

  /**
   * Every month of the lines has a row, no label appears twice, and the rows
   * together sum to all lines.
   */
  lemma Q3Totals(lines: seq<Line>)
    ensures var es: seq<Entry<Month, ()>> := LineEntries(lines, MonthOf);
      && (forall i, j :: 0 <= i < j < |Q3(lines)| ==> Q3(lines)[i].0 != Q3(lines)[j].0)
      && (forall m :: m in KeysOf(es) ==> exists i :: 0 <= i < |Q3(lines)| && Q3(lines)[i].0 == MonthLabel(m))
      && SumPairs(Q3(lines)) == SumLines(lines)
  {
    var es: seq<Entry<Month, ()>> := LineEntries(lines, MonthOf);
    var items := GroupSums(es);
    KeyOrderCorrect(es);
    forall i, j | 0 <= i < j < |Q3(lines)| ensures Q3(lines)[i].0 != Q3(lines)[j].0 {
      assert items[i].0 == KeyOrder(es)[i] && items[j].0 == KeyOrder(es)[j];
      TwoDigitsInjective(items[i].0, items[j].0);
    }
    forall m | m in KeysOf(es) ensures exists i :: 0 <= i < |Q3(lines)| && Q3(lines)[i].0 == MonthLabel(m) {
      GroupSumsKeys(es, m);
      var i :| 0 <= i < |items| && items[i].0 == m;
      assert Q3(lines)[i].0 == MonthLabel(m);
    }
    RelabelPairs(Q3(lines), items);
    GroupSumsTotal(es);
    LineEntriesTotal(lines, MonthOf);
  }

  // Q11: every order with its customer.

  function Q11(orders: seq<OrderRow>): (r: seq<(string, string)>)
    ensures |r| == |orders|
  {
    seq(|orders|, i requires 0 <= i < |orders| => (orders[i].code, orders[i].customerCode))
  }

  /** Each row pairs an order code with the code of the order's customer, which exists. */
  lemma Q11FromTables(t: Tables, orders: seq<OrderRow>, i: int)
    requires Consistent(t) && OrdersOf(t, orders) && 0 <= i < |orders|
    ensures Q11(orders)[i].0 in t.orders
    ensures Q11(orders)[i].1 == t.orders[Q11(orders)[i].0].customerCode
    ensures Q11(orders)[i].1 in t.customers
  {
  }

  // Q12: revenue per customer.

  function CustomerOf(l: Line): string {
    l.customerCode
  }

  /** The revenue column of grouped rows. */
  function Revenues(items: seq<(string, Amount)>): (r: seq<(string, int)>)
    ensures |r| == |items|
  {
    if items == [] then [] else Revenues(items[..|items| - 1]) + [(items[|items| - 1].0, items[|items| - 1].1.revenue)]
  }

  function SumRevenues(r: seq<(string, int)>): int {
    if r == [] then 0 else SumRevenues(r[..|r| - 1]) + r[|r| - 1].1
  }

  lemma {:induction false} RevenuesCorrect(items: seq<(string, Amount)>)
    ensures forall i :: 0 <= i < |items| ==> Revenues(items)[i] == (items[i].0, items[i].1.revenue)
    ensures SumRevenues(Revenues(items)) == SumPairs(items).revenue
  {
    if items != [] {
      var p := items[..|items| - 1];
      RevenuesCorrect(p);
      assert Revenues(items)[..|p|] == Revenues(p);
    }
  }

  function Q12(lines: seq<Line>): seq<(string, int)> {
    Revenues(GroupSums(LineEntries(lines, CustomerOf)))
  }

  /**
   * One row per customer with lines, each with the summed revenue of that
   * customer's lines; the rows together sum to the revenue of all lines.
   */
  lemma Q12Totals(lines: seq<Line>)
    ensures var es := LineEntries(lines, CustomerOf);
      && Distinct(KeyOrder(es)) && |Q12(lines)| == |KeyOrder(es)|
      && (forall i :: 0 <= i < |Q12(lines)| ==>
            Q12(lines)[i].0 in KeysOf(es) && Q12(lines)[i].1 == TotalOf(es, Q12(lines)[i].0).revenue)
      && (forall c :: c in KeysOf(es) ==> exists i :: 0 <= i < |Q12(lines)| && Q12(lines)[i].0 == c)
      && SumRevenues(Q12(lines)) == SumLines(lines).revenue
  {
    var es := LineEntries(lines, CustomerOf);
    var items := GroupSums(es);
    RevenuesCorrect(items);
    forall i | 0 <= i < |Q12(lines)| ensures Q12(lines)[i].0 in KeysOf(es) && Q12(lines)[i].1 == TotalOf(es, Q12(lines)[i].0).revenue {
      GroupSumsRows(es, i);
    }
    forall c | c in KeysOf(es) ensures exists i :: 0 <= i < |Q12(lines)| && Q12(lines)[i].0 == c {
      GroupSumsKeys(es, c);
      var i :| 0 <= i < |items| && items[i].0 == c;
      assert Q12(lines)[i].0 == c;
    }
    KeyOrderCorrect(es);
    GroupSumsTotal(es);
    LineEntriesTotal(lines, CustomerOf);
  }

  // Q4, Q5, Q6: per-period buckets of per-date query rows.

  /**
   * A period row: the bucket's label, its summed quantity and revenue, and
   * both averaged over the number of distinct order dates in the bucket.
   */
  datatype PeriodRow = PeriodRow(period: string, amount: Amount, avgRevenue: real, avgQty: real)

  /** An average the weekday report guards against an empty date set. */
  function GuardedAverage(x: int, n: nat): real {
    if n > 0 then x as real / n as real else 0.0
  }

  /** A bucket's row; an unguarded average needs at least one date. */
  function PeriodRowOf(text: string, b: Bucket<int>, guarded: bool): PeriodRow
    requires guarded || |b.tags| > 0
  {
    var n := |b.tags|;
    if guarded then
      PeriodRow(text, b.amount, GuardedAverage(b.amount.revenue, n), GuardedAverage(b.amount.qty, n))
    else
      PeriodRow(text, b.amount, b.amount.revenue as real / n as real, b.amount.qty as real / n as real)
  }

  /** The bucket rows, one per key in order of first appearance. */
  function PeriodTable(ks: seq<string>, b: map<string, Bucket<int>>, guarded: bool): seq<PeriodRow>
    requires forall k :: k in ks ==> k in b && |b[k].tags| >= 1
  {
    seq(|ks|, i requires 0 <= i < |ks| => PeriodRowOf(ks[i], b[ks[i]], guarded))
  }

  /** `r` is the row of bucket `r.period`, whose date count is at least one. */
  ghost predicate DescribesPeriod(es: seq<Entry<string, int>>, r: PeriodRow) {
    var n := |TagsOf(es, r.period)|;
    && r.period in KeysOf(es)
    && r.amount == TotalOf(es, r.period)
    && n >= 1
    && r.avgRevenue == r.amount.revenue as real / n as real
    && r.avgQty == r.amount.qty as real / n as real
  }

  /** `rows` holds exactly one row for each bucket of `es`, each describing its bucket. */
  ghost predicate PeriodReport(es: seq<Entry<string, int>>, rows: seq<PeriodRow>) {
    && |rows| == |KeyOrder(es)|
    && (forall i :: 0 <= i < |rows| ==> DescribesPeriod(es, rows[i]))
    && (forall k :: k in KeysOf(es) ==> exists i :: 0 <= i < |rows| && rows[i].period == k)
  }

  /** Each bucket row, in whatever order the rows are sorted, describes its bucket. */
  lemma PeriodTableRows(es: seq<Entry<string, int>>, guarded: bool, le: (PeriodRow, PeriodRow) -> bool, i: int)
    requires TotalRelation(le)
    requires forall k :: k in KeyOrder(es) ==> k in Buckets(es) && |Buckets(es)[k].tags| >= 1
    requires 0 <= i < |KeyOrder(es)|
    ensures DescribesPeriod(es, Sort(PeriodTable(KeyOrder(es), Buckets(es), guarded), le)[i])
  {
    var ks := KeyOrder(es);
    var table := PeriodTable(ks, Buckets(es), guarded);
    var r := Sort(table, le)[i];
    assert r in multiset(table);
    var j :| 0 <= j < |table| && table[j] == r;
    assert ks[j] in ks;
    KeyOrderCorrect(es);
    BucketsCorrect(es, ks[j]);
  }

  /** Each bucket has a row, in whatever order the rows are sorted. */
  lemma PeriodTableCovers(es: seq<Entry<string, int>>, guarded: bool, le: (PeriodRow, PeriodRow) -> bool, k: string)
    requires TotalRelation(le)
    requires forall k :: k in KeyOrder(es) ==> k in Buckets(es) && |Buckets(es)[k].tags| >= 1
    requires k in KeyOrder(es)
    ensures exists i :: 0 <= i < |KeyOrder(es)| && Sort(PeriodTable(KeyOrder(es), Buckets(es), guarded), le)[i].period == k
  {
    var ks := KeyOrder(es);
    var table := PeriodTable(ks, Buckets(es), guarded);
    var rows := Sort(table, le);
    var j :| 0 <= j < |ks| && ks[j] == k;
    assert table[j].period == k;
    assert table[j] in multiset(rows);
    var i :| 0 <= i < |rows| && rows[i] == table[j];
  }

  /** Whatever order the bucket rows are sorted in, they describe the buckets, one row each. */
  lemma PeriodTableReport(es: seq<Entry<string, int>>, guarded: bool, le: (PeriodRow, PeriodRow) -> bool)
    requires TotalRelation(le)
    ensures forall k :: k in KeyOrder(es) ==> k in Buckets(es) && |Buckets(es)[k].tags| >= 1
    ensures PeriodReport(es, Sort(PeriodTable(KeyOrder(es), Buckets(es), guarded), le))
  {
    BucketsTagged(es);
    KeyOrderCorrect(es);
    var rows := Sort(PeriodTable(KeyOrder(es), Buckets(es), guarded), le);
    forall i | 0 <= i < |rows| ensures DescribesPeriod(es, rows[i]) {
      PeriodTableRows(es, guarded, le, i);
    }
    forall k | k in KeysOf(es) ensures exists i :: 0 <= i < |rows| && rows[i].period == k {
      PeriodTableCovers(es, guarded, le, k);
    }
  }

  function WeekdayDate(l: Line): (Weekday, int) {
    (l.time.weekday, l.time.date)
  }

  /** The weekday loop's input: per (week day, date) sums, keyed by weekday name, tagged by date. */
  function Q4Entries(lines: seq<Line>): seq<Entry<string, int>> {
    var items := GroupSums(LineEntries(lines, WeekdayDate));
    seq(|items|, i requires 0 <= i < |items| => Entry(WeekdayName(items[i].0.0), items[i].0.1, items[i].1))
  }

  /** Rows in Monday-to-Sunday order. */
  function ByWeekday(a: PeriodRow, b: PeriodRow): bool {
    WeekdayRank(a.period) <= WeekdayRank(b.period)
  }

  /**
   * The weekday report: one row per weekday name with lines, with the
   * weekday's summed quantity and revenue and their averages over its
   * distinct dates, ordered Monday to Sunday.
   */
  method Q4(lines: seq<Line>) returns (rows: seq<PeriodRow>)
    ensures PeriodReport(Q4Entries(lines), rows)
    ensures forall i :: 0 < i < |rows| ==> WeekdayRank(rows[i - 1].period) <= WeekdayRank(rows[i].period)
  {
    var es := Q4Entries(lines);
    var order, buckets := Accumulate(es);
    PeriodTableReport(es, true, ByWeekday);
    rows := Sort(PeriodTable(order, buckets, true), ByWeekday);
  }

  /** Every weekday bucket is named after a week day of the lines, so it has a rank. */
  lemma Q4Labels(lines: seq<Line>, k: string)
    requires k in KeysOf(Q4Entries(lines))
    ensures exists w: Weekday :: k == WeekdayName(w) && WeekdayRank(k) == (w + 5) % 7
  {
    var es := Q4Entries(lines);
    var items := GroupSums(LineEntries(lines, WeekdayDate));
    KeyWitness(es, k);
    var i :| 0 <= i < |es| && es[i].key == k;
    WeekdayNameRank(items[i].0.0, items[i].0.0);
  }

  function DayDate(l: Line): (Day, int) {
    (l.time.day, l.time.date)
  }

  /** The day loop's input: per (day of month, date) sums, keyed by day label, tagged by date. */
  function Q5Entries(lines: seq<Line>): seq<Entry<string, int>> {
    var items := GroupSums(LineEntries(lines, DayDate));
    seq(|items|, i requires 0 <= i < |items| => Entry(DayLabel(items[i].0.0), items[i].0.1, items[i].1))
  }

  /** The number in a day label: the digits after its space. */
  function DayOfLabel(text: string): int {
    if |text| < 5 then 0 else DigitsValue(text[5..])
  }

  function ByDay(a: PeriodRow, b: PeriodRow): bool {
    DayOfLabel(a.period) <= DayOfLabel(b.period)
  }

  /**
   * The day-of-month report: one row per day label with lines, with
   * averages over its distinct dates, in ascending order of day.
   */
  method Q5(lines: seq<Line>) returns (rows: seq<PeriodRow>)
    ensures PeriodReport(Q5Entries(lines), rows)
    ensures forall i :: 0 < i < |rows| ==> DayOfLabel(rows[i - 1].period) <= DayOfLabel(rows[i].period)
  {
    var es := Q5Entries(lines);
    var order, buckets := Accumulate(es);
    PeriodTableReport(es, false, ByDay);
    rows := Sort(PeriodTable(order, buckets, false), ByDay);
  }

  /** Every day bucket is the label of a day of the lines, and its number is that day. */
  lemma Q5Labels(lines: seq<Line>, k: string)
    requires k in KeysOf(Q5Entries(lines))
    ensures exists d: Day :: k == DayLabel(d) && DayOfLabel(k) == d
  {
    var es := Q5Entries(lines);
    var items := GroupSums(LineEntries(lines, DayDate));
    KeyWitness(es, k);
    var i :| 0 <= i < |es| && es[i].key == k;
    DayLabelKey(items[i].0.0);
  }

  function HourDate(l: Line): (Hour, int) {
    (l.time.hour, l.time.date)
  }

  /** The hour loop's input: per (hour, date) sums, keyed by hour label, tagged by date. */
  function Q6Entries(lines: seq<Line>): seq<Entry<string, int>> {
    var items := GroupSums(LineEntries(lines, HourDate));
    seq(|items|, i requires 0 <= i < |items| => Entry(HourLabel(items[i].0.0), items[i].0.1, items[i].1))
  }

  /** The number in an hour label: the digits before its colon. */
  function HourOfLabel(text: string): int {
    if |text| < 2 then 0 else DigitsValue(text[..2])
  }

  function ByHour(a: PeriodRow, b: PeriodRow): bool {
    HourOfLabel(a.period) <= HourOfLabel(b.period)
  }

  /**
   * The hour report: one row per hour label with lines, with averages over
   * its distinct dates, in ascending order of hour.
   */
  method Q6(lines: seq<Line>) returns (rows: seq<PeriodRow>)
    ensures PeriodReport(Q6Entries(lines), rows)
    ensures forall i :: 0 < i < |rows| ==> HourOfLabel(rows[i - 1].period) <= HourOfLabel(rows[i].period)
  {
    var es := Q6Entries(lines);
    var order, buckets := Accumulate(es);
    PeriodTableReport(es, false, ByHour);
    rows := Sort(PeriodTable(order, buckets, false), ByHour);
  }

  /** Every hour bucket is the label of an hour of the lines, and its number is that hour. */
  lemma Q6Labels(lines: seq<Line>, k: string)
    requires k in KeysOf(Q6Entries(lines))
    ensures exists h: Hour :: k == HourLabel(h) && HourOfLabel(k) == h
  {
    var es := Q6Entries(lines);
    var items := GroupSums(LineEntries(lines, HourDate));
    KeyWitness(es, k);
    var i :| 0 <= i < |es| && es[i].key == k;
    HourLabelKey(items[i].0.0);
  }

  /** The date of a per-(week day, date) query row is the date of one of the lines. */
  lemma Q4TagIsLineDate(lines: seq<Line>, i: int)
    requires 0 <= i < |Q4Entries(lines)|
    ensures exists j :: 0 <= j < |lines| && Q4Entries(lines)[i].tag == lines[j].time.date
  {
    var le := LineEntries(lines, WeekdayDate);
    var items := GroupSums(le);
    GroupSumsRows(le, i);
    KeyWitness(le, items[i].0);
    var j :| 0 <= j < |le| && le[j].key == items[i].0;
    assert le[j].key == WeekdayDate(lines[j]);
    assert Q4Entries(lines)[i].tag == lines[j].time.date;
  }

  /** The date of a per-(day, date) query row is the date of one of the lines. */
  lemma Q5TagIsLineDate(lines: seq<Line>, i: int)
    requires 0 <= i < |Q5Entries(lines)|
    ensures exists j :: 0 <= j < |lines| && Q5Entries(lines)[i].tag == lines[j].time.date
  {
    var le := LineEntries(lines, DayDate);
    var items := GroupSums(le);
    GroupSumsRows(le, i);
    KeyWitness(le, items[i].0);
    var j :| 0 <= j < |le| && le[j].key == items[i].0;
    assert le[j].key == DayDate(lines[j]);
    assert Q5Entries(lines)[i].tag == lines[j].time.date;
  }

  /** The date of a per-(hour, date) query row is the date of one of the lines. */
  lemma Q6TagIsLineDate(lines: seq<Line>, i: int)
    requires 0 <= i < |Q6Entries(lines)|
    ensures exists j :: 0 <= j < |lines| && Q6Entries(lines)[i].tag == lines[j].time.date
  {
    var le := LineEntries(lines, HourDate);
    var items := GroupSums(le);
    GroupSumsRows(le, i);
    KeyWitness(le, items[i].0);
    var j :| 0 <= j < |le| && le[j].key == items[i].0;
    assert le[j].key == HourDate(lines[j]);
    assert Q6Entries(lines)[i].tag == lines[j].time.date;
  }

  /** When every query row carries the same date, each period row's averages are its totals. */
  lemma OneDateAverages(es: seq<Entry<string, int>>, rows: seq<PeriodRow>, d: int)
    requires PeriodReport(es, rows)
    requires forall i :: 0 <= i < |es| ==> es[i].tag == d
    ensures forall r :: 0 <= r < |rows| ==>
      rows[r].avgRevenue == rows[r].amount.revenue as real && rows[r].avgQty == rows[r].amount.qty as real
  {
    forall r | 0 <= r < |rows|
      ensures rows[r].avgRevenue == rows[r].amount.revenue as real && rows[r].avgQty == rows[r].amount.qty as real
    {
      assert DescribesPeriod(es, rows[r]);
      var tags := TagsOf(es, rows[r].period);
      TagsWithin(es, rows[r].period, {d});
      SubsetCard(tags, {d});
      assert |tags| == 1;
    }
  }

  /** When all orders fall on one date, the weekday report's averages are its totals. */
  lemma Q4OneDate(lines: seq<Line>, rows: seq<PeriodRow>, d: int)
    requires forall i :: 0 <= i < |lines| ==> lines[i].time.date == d
    requires PeriodReport(Q4Entries(lines), rows)
    ensures forall r :: 0 <= r < |rows| ==>
      rows[r].avgRevenue == rows[r].amount.revenue as real && rows[r].avgQty == rows[r].amount.qty as real
  {
    var es := Q4Entries(lines);
    forall i | 0 <= i < |es| ensures es[i].tag == d {
      Q4TagIsLineDate(lines, i);
    }
    OneDateAverages(es, rows, d);
  }

  /** When all orders fall on one date, the day report's averages are its totals. */
  lemma Q5OneDate(lines: seq<Line>, rows: seq<PeriodRow>, d: int)
    requires forall i :: 0 <= i < |lines| ==> lines[i].time.date == d
    requires PeriodReport(Q5Entries(lines), rows)
    ensures forall r :: 0 <= r < |rows| ==>
      rows[r].avgRevenue == rows[r].amount.revenue as real && rows[r].avgQty == rows[r].amount.qty as real
  {
    var es := Q5Entries(lines);
    forall i | 0 <= i < |es| ensures es[i].tag == d {
      Q5TagIsLineDate(lines, i);
    }
    OneDateAverages(es, rows, d);
  }

  /** When all orders fall on one date, the hour report's averages are its totals. */
  lemma Q6OneDate(lines: seq<Line>, rows: seq<PeriodRow>, d: int)
    requires forall i :: 0 <= i < |lines| ==> lines[i].time.date == d
    requires PeriodReport(Q6Entries(lines), rows)
    ensures forall r :: 0 <= r < |rows| ==>
      rows[r].avgRevenue == rows[r].amount.revenue as real && rows[r].avgQty == rows[r].amount.qty as real
  {
    var es := Q6Entries(lines);
    forall i | 0 <= i < |es| ensures es[i].tag == d {
      Q6TagIsLineDate(lines, i);
    }
    OneDateAverages(es, rows, d);
  }

  /** The per-period query rows keep the grand total of the lines. */
  lemma PeriodEntriesTotal(lines: seq<Line>)
    ensures Total(Q4Entries(lines)) == SumLines(lines)
    ensures Total(Q5Entries(lines)) == SumLines(lines)
    ensures Total(Q6Entries(lines)) == SumLines(lines)
  {
    RelabelTotal(GroupSums(LineEntries(lines, WeekdayDate)), Q4Entries(lines));
    GroupSumsTotal(LineEntries(lines, WeekdayDate));
    LineEntriesTotal(lines, WeekdayDate);
    RelabelTotal(GroupSums(LineEntries(lines, DayDate)), Q5Entries(lines));
    GroupSumsTotal(LineEntries(lines, DayDate));
    LineEntriesTotal(lines, DayDate);
    RelabelTotal(GroupSums(LineEntries(lines, HourDate)), Q6Entries(lines));
    GroupSumsTotal(LineEntries(lines, HourDate));
    LineEntriesTotal(lines, HourDate);
  }

  // Q7, Q8: buckets of per-order query rows, with the share of orders that bought from each.

  /** The order codes of an order list. */
  function OrderCodes(orders: seq<OrderRow>): set<string> {
    if orders == [] then {} else OrderCodes(orders[..|orders| - 1]) + {orders[|orders| - 1].code}
  }

  lemma {:induction false} OrderCodesCard(orders: seq<OrderRow>)
    ensures |OrderCodes(orders)| <= |orders|
  {
    if orders != [] {
      OrderCodesCard(orders[..|orders| - 1]);
    }
  }

  lemma {:induction false} OrderCodesHas(orders: seq<OrderRow>, j: int)
    requires 0 <= j < |orders|
    ensures orders[j].code in OrderCodes(orders)
  {
    if j < |orders| - 1 {
      OrderCodesHas(orders[..|orders| - 1], j);
    }
  }

  /** Every order line belongs to a listed order. */
  lemma LinesHaveOrders(t: Tables, lines: seq<Line>, orders: seq<OrderRow>)
    requires Consistent(t) && LinesOf(t, lines) && OrdersOf(t, orders)
    ensures forall i :: 0 <= i < |lines| ==> lines[i].orderCode in OrderCodes(orders)
  {
    forall i | 0 <= i < |lines| ensures lines[i].orderCode in OrderCodes(orders) {
      assert (lines[i].orderCode, lines[i].productCode) in t.details;
      var j :| 0 <= j < |orders| && orders[j].code == lines[i].orderCode;
      OrderCodesHas(orders, j);
    }
  }

  /** A share in percent: `count` over `total` times 100, and 0 when `total` is 0. */
  function SellProbability(count: nat, total: nat): real {
    if total > 0 then count as real / total as real * 100.0 else 0.0
  }

  lemma SellProbabilityBounds(count: nat, total: nat)
    requires count <= total
    ensures 0.0 <= SellProbability(count, total) <= 100.0
  {
    if total > 0 {
      var q := count as real / total as real;
      assert q * total as real == count as real;
      assert q <= 1.0;
    }
  }

  /** A share row: the bucket key, its summed amount, its distinct orders and their share. */
  datatype ShareRow<K> = ShareRow(key: K, amount: Amount, orderCount: nat, probability: real)

  /** The share rows, one per bucket in order of first appearance; `divisor` gives each key's order total. */
  function ShareTable<K(==)>(ks: seq<K>, b: map<K, Bucket<string>>, divisor: K -> nat): seq<ShareRow<K>>
    requires forall k :: k in ks ==> k in b
  {
    seq(|ks|, i requires 0 <= i < |ks| =>
      var n := |b[ks[i]].tags|;
      ShareRow(ks[i], b[ks[i]].amount, n, SellProbability(n, divisor(ks[i]))))
  }

  /** `r` is the row of bucket `r.key`: its amount, its distinct order count and their share. */
  ghost predicate DescribesShare<K>(es: seq<Entry<K, string>>, divisor: K -> nat, r: ShareRow<K>) {
    && r.key in KeysOf(es)
    && r.amount == TotalOf(es, r.key)
    && r.orderCount == |TagsOf(es, r.key)|
    && r.probability == SellProbability(r.orderCount, divisor(r.key))
  }

  /** `rows` holds exactly one row for each bucket of `es`, each describing its bucket. */
  ghost predicate ShareReport<K>(es: seq<Entry<K, string>>, divisor: K -> nat, rows: seq<ShareRow<K>>) {
    && |rows| == |KeyOrder(es)|
    && (forall i :: 0 <= i < |rows| ==> DescribesShare(es, divisor, rows[i]))
    && (forall k :: k in KeysOf(es) ==> exists i :: 0 <= i < |rows| && rows[i].key == k)
  }

  lemma ShareTableRows<K(!new)>(es: seq<Entry<K, string>>, divisor: K -> nat, le: (ShareRow<K>, ShareRow<K>) -> bool, i: int)
    requires TotalRelation(le)
    requires forall k :: k in KeyOrder(es) ==> k in Buckets(es)
    requires 0 <= i < |KeyOrder(es)|
    ensures DescribesShare(es, divisor, Sort(ShareTable(KeyOrder(es), Buckets(es), divisor), le)[i])
  {
    var ks := KeyOrder(es);
    var table := ShareTable(ks, Buckets(es), divisor);
    var r := Sort(table, le)[i];
    assert r in multiset(table);
    var j :| 0 <= j < |table| && table[j] == r;
    assert ks[j] in ks;
    KeyOrderCorrect(es);
    BucketsCorrect(es, ks[j]);
  }

  lemma ShareTableCovers<K(!new)>(es: seq<Entry<K, string>>, divisor: K -> nat, le: (ShareRow<K>, ShareRow<K>) -> bool, k: K)
    requires TotalRelation(le)
    requires forall k :: k in KeyOrder(es) ==> k in Buckets(es)
    requires k in KeyOrder(es)
    ensures exists i :: 0 <= i < |KeyOrder(es)| && Sort(ShareTable(KeyOrder(es), Buckets(es), divisor), le)[i].key == k
  {
    var ks := KeyOrder(es);
    var table := ShareTable(ks, Buckets(es), divisor);
    var rows := Sort(table, le);
    var j :| 0 <= j < |ks| && ks[j] == k;
    assert table[j].key == k;
    assert table[j] in multiset(rows);
    var i :| 0 <= i < |rows| && rows[i] == table[j];
  }

  /** Whatever order the share rows are sorted in, they describe the buckets, one row each. */
  lemma ShareTableReport<K(!new)>(es: seq<Entry<K, string>>, divisor: K -> nat, le: (ShareRow<K>, ShareRow<K>) -> bool)
    requires TotalRelation(le)
    ensures forall k :: k in KeyOrder(es) ==> k in Buckets(es)
    ensures ShareReport(es, divisor, Sort(ShareTable(KeyOrder(es), Buckets(es), divisor), le))
  {
    KeyOrderMatchesBuckets(es);
    KeyOrderCorrect(es);
    var rows := Sort(ShareTable(KeyOrder(es), Buckets(es), divisor), le);
    forall i | 0 <= i < |rows| ensures DescribesShare(es, divisor, rows[i]) {
      ShareTableRows(es, divisor, le, i);
    }
    forall k | k in KeysOf(es) ensures exists i :: 0 <= i < |rows| && rows[i].key == k {
      ShareTableCovers(es, divisor, le, k);
    }
  }

  function OrderGroup(l: Line): (string, string, string) {
    (l.orderCode, l.groupCode, l.groupName)
  }

  /** The group-share loop's input: per (order, group) sums, keyed by `[code] name`, tagged by order code. */
  function Q7Entries(lines: seq<Line>): seq<Entry<string, string>> {
    var items := GroupSums(LineEntries(lines, OrderGroup));
    seq(|items|, i requires 0 <= i < |items| =>
      Entry(GroupLabel(items[i].0.1, items[i].0.2), items[i].0.0, items[i].1))
  }

  /** Every group is divided by the number of all orders. */
  function AllOrders(orders: seq<OrderRow>): string -> nat {
    _ => |orders|
  }

  function ByProbability(a: ShareRow<string>, b: ShareRow<string>): bool {
    a.probability >= b.probability
  }

  lemma {:induction false} SubsetCard<T>(a: set<T>, b: set<T>)
    requires a <= b
    ensures |a| <= |b|
  {
    if a != {} {
      var x :| x in a;
      SubsetCard(a - {x}, b - {x});
    }
  }

  /** The order code of a per-(order, group) query row is the code of a line's order. */
  lemma Q7TagListed(lines: seq<Line>, orders: seq<OrderRow>, i: int)
    requires forall i :: 0 <= i < |lines| ==> lines[i].orderCode in OrderCodes(orders)
    requires 0 <= i < |Q7Entries(lines)|
    ensures Q7Entries(lines)[i].tag in OrderCodes(orders)
  {
    var le := LineEntries(lines, OrderGroup);
    var items := GroupSums(le);
    GroupSumsRows(le, i);
    KeyWitness(le, items[i].0);
    var j :| 0 <= j < |le| && le[j].key == items[i].0;
    assert le[j].key == OrderGroup(lines[j]);
    var code := lines[j].orderCode;
    assert items[i].0.0 == code;
    assert Q7Entries(lines)[i].tag == items[i].0.0;
    assert code in OrderCodes(orders);
  }

  /** Each group bucket counts only codes of listed orders, so it has no more orders than the list. */
  lemma Q7OrdersBounded(lines: seq<Line>, orders: seq<OrderRow>, k: string)
    requires forall i :: 0 <= i < |lines| ==> lines[i].orderCode in OrderCodes(orders)
    ensures |TagsOf(Q7Entries(lines), k)| <= |orders|
  {
    var es := Q7Entries(lines);
    forall i | 0 <= i < |es| ensures es[i].tag in OrderCodes(orders) {
      Q7TagListed(lines, orders, i);
    }
    TagsWithin(es, k, OrderCodes(orders));
    SubsetCard(TagsOf(es, k), OrderCodes(orders));
    OrderCodesCard(orders);
  }

  /**
   * The group-share report: one row per group label with lines, with its
   * distinct orders as a percentage of all orders (0 when there are none),
   * in descending order of that percentage; when every line's order is
   * listed, each percentage lies between 0 and 100.
   */
  method Q7(lines: seq<Line>, orders: seq<OrderRow>) returns (rows: seq<ShareRow<string>>)
    ensures ShareReport(Q7Entries(lines), AllOrders(orders), rows)
    ensures forall i :: 0 < i < |rows| ==> rows[i - 1].probability >= rows[i].probability
    ensures (forall i :: 0 <= i < |lines| ==> lines[i].orderCode in OrderCodes(orders)) ==>
      forall i :: 0 <= i < |rows| ==> 0.0 <= rows[i].probability <= 100.0
  {
    var es := Q7Entries(lines);
    var order, buckets := Accumulate(es);
    assert TotalRelation(ByProbability);
    ShareTableReport(es, AllOrders(orders), ByProbability);
    rows := Sort(ShareTable(order, buckets, AllOrders(orders)), ByProbability);
    if forall i :: 0 <= i < |lines| ==> lines[i].orderCode in OrderCodes(orders) {
      forall i | 0 <= i < |rows| ensures 0.0 <= rows[i].probability <= 100.0 {
        assert DescribesShare(es, AllOrders(orders), rows[i]);
        Q7OrdersBounded(lines, orders, rows[i].key);
        SellProbabilityBounds(rows[i].orderCount, |orders|);
      }
    }
  }

  function OrderTimeGroup(l: Line): (string, Timestamp, string, string) {
    (l.orderCode, l.time, l.groupCode, l.groupName)
  }

  /**
   * The month-share loop's input: per (order, time, group) sums, keyed by
   * (`Tháng MM`, `[code] name`), tagged by order code.
   */
  function Q8Entries(lines: seq<Line>): seq<Entry<(string, string), string>> {
    var items := GroupSums(LineEntries(lines, OrderTimeGroup));
    seq(|items|, i requires 0 <= i < |items| =>
      Entry((MonthTitle(items[i].0.1.month), GroupLabel(items[i].0.2, items[i].0.3)), items[i].0.0, items[i].1))
  }

  /** The number of orders whose month label is `title`. */
  function OrdersInMonth(orders: seq<OrderRow>, title: string): nat {
    if orders == [] then 0
    else OrdersInMonth(orders[..|orders| - 1], title) + (if MonthTitle(orders[|orders| - 1].time.month) == title then 1 else 0)
  }

  /** The month's order count, or 1 for a month without orders. */
  function MonthDivisor(orders: seq<OrderRow>, title: string): (n: nat)
    ensures n >= 1
    ensures OrdersInMonth(orders, title) > 0 ==> n == OrdersInMonth(orders, title)
    ensures OrdersInMonth(orders, title) == 0 ==> n == 1
  {
    var count := OrdersInMonth(orders, title);
    if count == 0 then 1 else count
  }

  /** Every (month, group) bucket is divided by its month's order count. */
  function MonthOrders(orders: seq<OrderRow>): ((string, string)) -> nat {
    (k: (string, string)) => MonthDivisor(orders, k.0)
  }

  /** Rows by month label, then by group label, both compared as strings. */
  function ByMonthThenGroup(a: ShareRow<(string, string)>, b: ShareRow<(string, string)>): bool {
    || LexLess(a.key.0, b.key.0)
    || (a.key.0 == b.key.0 && (a.key.1 == b.key.1 || LexLess(a.key.1, b.key.1)))
  }

  lemma ByMonthThenGroupTotal()
    ensures TotalRelation(ByMonthThenGroup)
  {
    forall a: ShareRow<(string, string)>, b: ShareRow<(string, string)>
      ensures ByMonthThenGroup(a, b) || ByMonthThenGroup(b, a)
    {
      LexTotal(a.key.0, b.key.0);
      LexTotal(a.key.1, b.key.1);
    }
  }

  /**
   * The month-share report: one row per (month, group) with lines, with its
   * distinct orders as a percentage of that month's orders (of 1 when the
   * month has none), ordered by month label and then group label.
   */
  method Q8(lines: seq<Line>, orders: seq<OrderRow>) returns (rows: seq<ShareRow<(string, string)>>)
    ensures ShareReport(Q8Entries(lines), MonthOrders(orders), rows)
    ensures forall i :: 0 < i < |rows| ==> ByMonthThenGroup(rows[i - 1], rows[i])
  {
    var es := Q8Entries(lines);
    var order, buckets := Accumulate(es);
    ByMonthThenGroupTotal();
    ShareTableReport(es, MonthOrders(orders), ByMonthThenGroup);
    rows := Sort(ShareTable(order, buckets, MonthOrders(orders)), ByMonthThenGroup);
  }

  /**
   * Keying the month-share buckets by the pair (month label, group label)
   * is keying them by the joined text `month|group`: month labels have a
   * fixed length, so the join is injective.
   */
  lemma Q8JoinedKey(m: Month, g: string, n: Month, h: string)
    ensures MonthTitle(m) + "|" + g == MonthTitle(n) + "|" + h <==> m == n && g == h
  {
    var x, y := MonthTitle(m) + "|" + g, MonthTitle(n) + "|" + h;
    assert |MonthTitle(m)| == 8 && |MonthTitle(n)| == 8;
    if x == y {
      assert x[..8] == MonthTitle(m) && y[..8] == MonthTitle(n);
      assert x[9..] == g && y[9..] == h;
      assert TwoDigits(m) == MonthTitle(m)[6..] && TwoDigits(n) == MonthTitle(n)[6..];
      TwoDigitsInjective(m, n);
    }
  }

  /** The per-order query rows keep the grand total of the lines. */
  lemma ShareEntriesTotal(lines: seq<Line>)
    ensures Total(Q7Entries(lines)) == SumLines(lines)
    ensures Total(Q8Entries(lines)) == SumLines(lines)
  {
    RelabelTotal(GroupSums(LineEntries(lines, OrderGroup)), Q7Entries(lines));
    GroupSumsTotal(LineEntries(lines, OrderGroup));
    LineEntriesTotal(lines, OrderGroup);
    RelabelTotal(GroupSums(LineEntries(lines, OrderTimeGroup)), Q8Entries(lines));
    GroupSumsTotal(LineEntries(lines, OrderTimeGroup));
    LineEntriesTotal(lines, OrderTimeGroup);
  }
}
