/** getAnalytics: the business's transactions grouped by (month, payment mode) with IN and OUT
    sums, as one SQL query; then merged, in a loop over the grouped rows, into one record per month
    with the per-mode breakdown, the month's totals and `balance = totalIn - totalOut`. */
module Analytics {
  import opened Schema
  import opened Text

  datatype Totals = Totals(totalIn: int, totalOut: int)

  /** A row of the GROUP BY query. */
  datatype GroupRow = GroupRow(month: string, paymentMode: PaymentMode, totalIn: int, totalOut: int)

  /** The object the merge loop keeps per month: `{month, cash, online, totalIn, totalOut}`. */
  datatype Acc = Acc(month: string, cash: Totals, online: Totals, totalIn: int, totalOut: int)

  /** A month of the result: the loop's object plus `balance`. */
  datatype MonthRecord = MonthRecord(month: string, cash: Totals, online: Totals, totalIn: int, totalOut: int, balance: int)

  predicate IsDigit(c: char) { '0' <= c <= '9' }

  function DigitValue(c: char): int { c as int - '0' as int }

  /** The proleptic Gregorian leap-year rule SQLite's date functions use. */
  predicate LeapYear(y: int) {
    y % 4 == 0 && (y % 100 != 0 || y % 400 == 0)
  }

  function DaysInMonth(y: int, m: int): int {
    if m == 2 then (if LeapYear(y) then 29 else 28)
    else if m == 4 || m == 6 || m == 9 || m == 11 then 30
    else 31
  }

  /** A `YYYY-MM-DD` date that names a day of the calendar: month 01 to 12 and day 01 to the length
      of that month. On these `strftime('%Y-%m', date)` is the first seven characters; a month or
      day out of range makes strftime NULL, and a day past the month's end rolls into the next month. */
  predicate WellFormedDate(d: string) {
    && |d| == 10 && d[4] == '-' && d[7] == '-'
    && IsDigit(d[0]) && IsDigit(d[1]) && IsDigit(d[2]) && IsDigit(d[3])
    && IsDigit(d[5]) && IsDigit(d[6]) && IsDigit(d[8]) && IsDigit(d[9])
    && var year := 1000 * DigitValue(d[0]) + 100 * DigitValue(d[1]) + 10 * DigitValue(d[2]) + DigitValue(d[3]);
       var month := 10 * DigitValue(d[5]) + DigitValue(d[6]);
       var day := 10 * DigitValue(d[8]) + DigitValue(d[9]);
       1 <= month <= 12 && 1 <= day <= DaysInMonth(year, month)
  }

  /** Which strings count as dates: leap days only in leap years, no month 00 or 13, no 30 February. */
  lemma CalendarDates()
    ensures WellFormedDate("2024-02-29") && WellFormedDate("2000-02-29") && WellFormedDate("2024-12-31")
    ensures !WellFormedDate("2023-02-29") && !WellFormedDate("1900-02-29") && !WellFormedDate("2024-02-30")
    ensures !WellFormedDate("2024-13-01") && !WellFormedDate("2024-00-10") && !WellFormedDate("2024-04-31")
    ensures !WellFormedDate("2024-3-01")
  {
  }

  /** The month key `YYYY-MM` of a date. */
  function MonthKey(d: string): string {
    if |d| >= 7 then d[..7] else d
  }

  /** On calendar dates the month key is the year and month, and an earlier date never has a later
      month. This is why `ORDER BY month` lists the months in the order of their dates: the report's
      ascending months (`ReportShape`) are ascending in time. */
  lemma MonthKeyOrder(d1: string, d2: string)
    requires WellFormedDate(d1) && WellFormedDate(d2) && LexLe(d1, d2)
    ensures MonthKey(d1) == d1[..7] && |MonthKey(d1)| == 7 && MonthKey(d1)[4] == '-'
    ensures LexLe(MonthKey(d1), MonthKey(d2))
  {
    LexLePrefix(d1, d2, 7);
  }

  /** `WHERE businessId = ?`. */
  function OfBusiness(txs: seq<Tx>, biz: string): (r: seq<Tx>)
    ensures forall t :: t in r <==> t in txs && t.businessId == biz
  {
    if txs == [] then []
    else
      var rest := OfBusiness(txs[1..], biz);
      assert forall t :: t in txs <==> t == txs[0] || t in txs[1..];
      (if txs[0].businessId == biz then [txs[0]] else []) + rest
  }

  function Amount(t: Tx, ty: TxType): int {
    if t.txType == ty then t.amount else 0
  }

  /** Σ amount of the `ty` transactions of month `m` paid by `mode`. */
  function ModeSum(txs: seq<Tx>, m: string, mode: PaymentMode, ty: TxType): int {
    if txs == [] then 0
    else (if MonthKey(txs[0].date) == m && txs[0].paymentMode == mode then Amount(txs[0], ty) else 0)
         + ModeSum(txs[1..], m, mode, ty)
  }

  /** Σ amount of the `ty` transactions of month `m`. */
  function MonthSum(txs: seq<Tx>, m: string, ty: TxType): int {
    if txs == [] then 0
    else (if MonthKey(txs[0].date) == m then Amount(txs[0], ty) else 0) + MonthSum(txs[1..], m, ty)
  }

  /** Σ amount of all `ty` transactions. */
  function TypeSum(txs: seq<Tx>, ty: TxType): int {
    if txs == [] then 0 else Amount(txs[0], ty) + TypeSum(txs[1..], ty)
  }

  predicate InGroup(t: Tx, m: string, mode: PaymentMode) {
    MonthKey(t.date) == m && t.paymentMode == mode
  }

  predicate HasGroup(txs: seq<Tx>, m: string, mode: PaymentMode) {
    exists i :: 0 <= i < |txs| && InGroup(txs[i], m, mode)
  }

  /** Some transaction of the log falls in month `m`. */
  predicate HasMonth(txs: seq<Tx>, m: string) {
    exists i :: 0 <= i < |txs| && MonthKey(txs[i].date) == m
  }

  ghost predicate StrictlyAscending(ks: seq<string>) {
    forall i, j :: 0 <= i < j < |ks| ==> LexLt(ks[i], ks[j])
  }

  ghost predicate Distinct(ks: seq<string>) {
    forall i, j :: 0 <= i < j < |ks| ==> ks[i] != ks[j]
  }

  /** Insert a key into a strictly ascending list of keys, unless it is there already. */
  function InsertKey(k: string, ks: seq<string>): (r: seq<string>)
    requires StrictlyAscending(ks)
    ensures StrictlyAscending(r)
    ensures forall x :: x in r <==> x == k || x in ks
  {
    if ks == [] then [k]
    else if k == ks[0] then ks
    else if LexLt(k, ks[0]) then
      assert forall j :: 0 < j < |ks| ==> LexLt(k, ks[j]) by {
        forall j | 0 < j < |ks| ensures LexLt(k, ks[j]) { LexLtTrans(k, ks[0], ks[j]); }
      }
      [k] + ks
    else
      LexLtTotal(k, ks[0]);
      var rest := InsertKey(k, ks[1..]);
      assert forall x :: x in ks <==> x == ks[0] || x in ks[1..];
      assert forall j :: 0 <= j < |rest| ==> LexLt(ks[0], rest[j]) by {
        forall j | 0 <= j < |rest| ensures LexLt(ks[0], rest[j]) {
          if rest[j] != k {
            assert rest[j] in rest;
            var q :| 0 <= q < |ks[1..]| && ks[1..][q] == rest[j];
            assert ks[q + 1] == rest[j];
          }
        }
      }
      [ks[0]] + rest
  }

  /** The distinct month keys of the log, ascending: the months `ORDER BY month` lists. */
  function Months(txs: seq<Tx>): (r: seq<string>)
    ensures StrictlyAscending(r)
    ensures forall m :: m in r <==> HasMonth(txs, m)
  {
    if txs == [] then []
    else
      var rest := Months(txs[1..]);
      assert forall m :: HasMonth(txs, m) <==> MonthKey(txs[0].date) == m || HasMonth(txs[1..], m) by {
        forall m ensures HasMonth(txs, m) ==> MonthKey(txs[0].date) == m || HasMonth(txs[1..], m) {
          if i :| 0 <= i < |txs| && MonthKey(txs[i].date) == m {
            if i > 0 { assert txs[1..][i - 1] == txs[i]; }
          }
        }
        forall m ensures HasMonth(txs[1..], m) ==> HasMonth(txs, m) {
          if i :| 0 <= i < |txs[1..]| && MonthKey(txs[1..][i].date) == m {
            assert txs[i + 1] == txs[1..][i];
          }
        }
      }
      InsertKey(MonthKey(txs[0].date), rest)
  }

  /** The (month, mode) group as a query row, when the group is not empty. */
  function Group(txs: seq<Tx>, m: string, mode: PaymentMode): seq<GroupRow> {
    if HasGroup(txs, m, mode) then [GroupRow(m, mode, ModeSum(txs, m, mode, IN), ModeSum(txs, m, mode, OUT))]
    else []
  }

  function Blocks(ms: seq<string>, txs: seq<Tx>): seq<GroupRow> {
    if ms == [] then []
    else Group(txs, ms[0], CASH) + Group(txs, ms[0], ONLINE) + Blocks(ms[1..], txs)
  }

  /** `SELECT strftime('%Y-%m', date) as month, paymentMode, SUM(IN amounts), SUM(OUT amounts)
      ... GROUP BY month, paymentMode ORDER BY month`; within a month the CASH group comes first. */
  function GroupByMonthAndMode(txs: seq<Tx>): seq<GroupRow> {
    Blocks(Months(txs), txs)
  }

  // ----- the merge loop's view of the rows -----

  function RowPart(r: GroupRow, m: string, mode: PaymentMode, ty: TxType): int {
    if r.month == m && r.paymentMode == mode then (if ty == IN then r.totalIn else r.totalOut) else 0
  }

  /** Σ of the `ty` column over the rows of month `m` and mode `mode`. */
  function RowTotal(rows: seq<GroupRow>, m: string, mode: PaymentMode, ty: TxType): int
    decreases |rows|
  {
    if rows == [] then 0
    else RowTotal(rows[..|rows| - 1], m, mode, ty) + RowPart(rows[|rows| - 1], m, mode, ty)
  }

  /** Some query row is of month `k`: `HasMonth` over the GROUP BY's rows rather than the log's,
      which carry the month as a column instead of a date. */
  predicate MonthUsed(rows: seq<GroupRow>, k: string) {
    exists i :: 0 <= i < |rows| && rows[i].month == k
  }

  /** The months of the rows in the order they first occur: the keys of the loop's object, in insertion order. */
  function FirstSeen(rows: seq<GroupRow>): (r: seq<string>)
    ensures forall k :: k in r <==> MonthUsed(rows, k)
    ensures Distinct(r)
    decreases |rows|
  {
    if rows == [] then []
    else
      var front := rows[..|rows| - 1];
      var p := FirstSeen(front);
      assert forall k :: MonthUsed(rows, k) <==> MonthUsed(front, k) || rows[|rows| - 1].month == k by {
        forall k ensures MonthUsed(rows, k) ==> MonthUsed(front, k) || rows[|rows| - 1].month == k {
          if i :| 0 <= i < |rows| && rows[i].month == k {
            if i < |rows| - 1 { assert front[i] == rows[i]; }
          }
        }
      }
      if rows[|rows| - 1].month in p then p else p + [rows[|rows| - 1].month]
  }

  /** What the loop's object for month `m` holds after the rows `rows`. */
  function AccOf(rows: seq<GroupRow>, m: string): Acc {
    Acc(m,
        Totals(RowTotal(rows, m, CASH, IN), RowTotal(rows, m, CASH, OUT)),
        Totals(RowTotal(rows, m, ONLINE, IN), RowTotal(rows, m, ONLINE, OUT)),
        RowTotal(rows, m, CASH, IN) + RowTotal(rows, m, ONLINE, IN),
        RowTotal(rows, m, CASH, OUT) + RowTotal(rows, m, ONLINE, OUT))
  }

  /** `{...month, balance: month.totalIn - month.totalOut}`. */
  function Finish(a: Acc): MonthRecord {
    MonthRecord(a.month, a.cash, a.online, a.totalIn, a.totalOut, a.totalIn - a.totalOut)
  }

  function MergedOf(ks: seq<string>, rows: seq<GroupRow>): (r: seq<MonthRecord>)
    ensures |r| == |ks|
    ensures forall q :: 0 <= q < |ks| ==> r[q] == Finish(AccOf(rows, ks[q]))
  {
    if ks == [] then []
    else
      var rest := MergedOf(ks[1..], rows);
      [Finish(AccOf(rows, ks[0]))] + rest
  }

  lemma {:induction false} RowTotalAbsent(rows: seq<GroupRow>, m: string, mode: PaymentMode, ty: TxType)
    requires m !in FirstSeen(rows)
    ensures RowTotal(rows, m, mode, ty) == 0
    decreases |rows|
  {
    if rows != [] {
      var front := rows[..|rows| - 1];
      RowTotalAbsent(front, m, mode, ty);
    }
  }

  /** The loop body's update of a month's object by one of its rows: the row's sums go into its
      mode's totals and into the month's totals. */
  function Accumulate(a: Acc, t: GroupRow): Acc {
    var a' := if t.paymentMode == CASH
      then a.(cash := Totals(a.cash.totalIn + t.totalIn, a.cash.totalOut + t.totalOut))
      else a.(online := Totals(a.online.totalIn + t.totalIn, a.online.totalOut + t.totalOut));
    a'.(totalIn := a'.totalIn + t.totalIn, totalOut := a'.totalOut + t.totalOut)
  }

  /** One more row changes only its own month's object, by `Accumulate`. */
  lemma AccOfSnoc(rows: seq<GroupRow>, i: int, k: string)
    requires 0 <= i < |rows|
    ensures AccOf(rows[..i + 1], k) == if rows[i].month == k then Accumulate(AccOf(rows[..i], k), rows[i]) else AccOf(rows[..i], k)
  {
    assert rows[..i + 1][..i] == rows[..i];
  }

  lemma AccOfFresh(rows: seq<GroupRow>, k: string)
    requires k !in FirstSeen(rows)
    ensures AccOf(rows, k) == Acc(k, Totals(0, 0), Totals(0, 0), 0, 0)
  {
    RowTotalAbsent(rows, k, CASH, IN);
    RowTotalAbsent(rows, k, CASH, OUT);
    RowTotalAbsent(rows, k, ONLINE, IN);
    RowTotalAbsent(rows, k, ONLINE, OUT);
  }

  /** The merge loop: `analytics[t.month]` is created on a month's first row and then accumulates
      the row; the records come out in the order their months were first seen, each with its balance. */
  method MergeByMonth(rows: seq<GroupRow>) returns (r: seq<MonthRecord>)
    ensures r == MergedOf(FirstSeen(rows), rows)
  {
    var analytics: map<string, Acc> := map[];
    var keys: seq<string> := [];
    var i := 0;
    while i < |rows|
      invariant 0 <= i <= |rows|
      invariant keys == FirstSeen(rows[..i])
      invariant forall k :: k in analytics <==> k in keys
      invariant forall k :: k in analytics ==> analytics[k] == AccOf(rows[..i], k)
    {
      var t := rows[i];
      assert rows[..i + 1][..i] == rows[..i];
      if t.month !in analytics {
        AccOfFresh(rows[..i], t.month);
        analytics := analytics[t.month := Acc(t.month, Totals(0, 0), Totals(0, 0), 0, 0)];
        keys := keys + [t.month];
      }
      analytics := analytics[t.month := Accumulate(analytics[t.month], t)];
      forall k | k in analytics ensures analytics[k] == AccOf(rows[..i + 1], k) {
        AccOfSnoc(rows, i, k);
      }
      i := i + 1;
    }
    assert rows[..i] == rows;
    r := seq(|keys|, q requires 0 <= q < |keys| && keys[q] in analytics => Finish(analytics[keys[q]]));
  }

  // ----- the specification of the result -----

  /** What getAnalytics reports for month `m`: the IN and OUT sums for each mode and over the month. */
  function RecordOf(txs: seq<Tx>, m: string): MonthRecord {
    MonthRecord(m,
                Totals(ModeSum(txs, m, CASH, IN), ModeSum(txs, m, CASH, OUT)),
                Totals(ModeSum(txs, m, ONLINE, IN), ModeSum(txs, m, ONLINE, OUT)),
                MonthSum(txs, m, IN), MonthSum(txs, m, OUT),
                MonthSum(txs, m, IN) - MonthSum(txs, m, OUT))
  }

  function RecordsOf(ms: seq<string>, txs: seq<Tx>): (r: seq<MonthRecord>)
    ensures |r| == |ms|
    ensures forall q :: 0 <= q < |ms| ==> r[q] == RecordOf(txs, ms[q])
  {
    if ms == [] then [] else [RecordOf(txs, ms[0])] + RecordsOf(ms[1..], txs)
  }

  /** One record per month of the log, in ascending month order. */
  function Report(txs: seq<Tx>): seq<MonthRecord> {
    RecordsOf(Months(txs), txs)
  }

  function SumTotalIn(rs: seq<MonthRecord>): int {
    if rs == [] then 0 else rs[0].totalIn + SumTotalIn(rs[1..])
  }

  function SumTotalOut(rs: seq<MonthRecord>): int {
    if rs == [] then 0 else rs[0].totalOut + SumTotalOut(rs[1..])
  }

  // ----- the grouped rows carry the log's sums -----

  lemma {:induction false} ModeSplit(txs: seq<Tx>, m: string, ty: TxType)
    ensures MonthSum(txs, m, ty) == ModeSum(txs, m, CASH, ty) + ModeSum(txs, m, ONLINE, ty)
  {
    if txs != [] { ModeSplit(txs[1..], m, ty); }
  }

  lemma {:induction false} EmptyGroupSum(txs: seq<Tx>, m: string, mode: PaymentMode, ty: TxType)
    requires !HasGroup(txs, m, mode)
    ensures ModeSum(txs, m, mode, ty) == 0
  {
    if txs != [] {
      assert !InGroup(txs[0], m, mode);
      EmptyGroupSum(txs[1..], m, mode, ty);
    }
  }

  lemma {:induction false} RowTotalAppend(a: seq<GroupRow>, b: seq<GroupRow>, m: string, mode: PaymentMode, ty: TxType)
    ensures RowTotal(a + b, m, mode, ty) == RowTotal(a, m, mode, ty) + RowTotal(b, m, mode, ty)
    decreases |b|
  {
    if b == [] {
      assert a + b == a;
    } else {
      var b' := b[..|b| - 1];
      assert (a + b)[..|a + b| - 1] == a + b';
      assert (a + b)[|a + b| - 1] == b[|b| - 1];
      RowTotalAppend(a, b', m, mode, ty);
    }
  }

  /** A group row holds the group's sums over the whole log. */
  lemma GroupTotal(txs: seq<Tx>, g: string, gmode: PaymentMode, m: string, mode: PaymentMode, ty: TxType)
    ensures RowTotal(Group(txs, g, gmode), m, mode, ty)
         == if g == m && gmode == mode then ModeSum(txs, m, mode, ty) else 0
  {
    var rows := Group(txs, g, gmode);
    if rows != [] {
      assert rows[..0] == [];
    } else if g == m && gmode == mode {
      EmptyGroupSum(txs, m, mode, ty);
    }
  }

  lemma {:induction false} BlocksTotal(ms: seq<string>, txs: seq<Tx>, m: string, mode: PaymentMode, ty: TxType)
    requires Distinct(ms)
    ensures RowTotal(Blocks(ms, txs), m, mode, ty) == if m in ms then ModeSum(txs, m, mode, ty) else 0
  {
    if ms != [] {
      var c := Group(txs, ms[0], CASH);
      var o := Group(txs, ms[0], ONLINE);
      var rest := Blocks(ms[1..], txs);
      assert Distinct(ms[1..]) by {
        forall i, j | 0 <= i < j < |ms[1..]| ensures ms[1..][i] != ms[1..][j] {
          assert ms[1..][i] == ms[i + 1] && ms[1..][j] == ms[j + 1];
        }
      }
      BlocksTotal(ms[1..], txs, m, mode, ty);
      RowTotalAppend(c + o, rest, m, mode, ty);
      RowTotalAppend(c, o, m, mode, ty);
      GroupTotal(txs, ms[0], CASH, m, mode, ty);
      GroupTotal(txs, ms[0], ONLINE, m, mode, ty);
      assert m in ms <==> m == ms[0] || m in ms[1..];
    }
  }

  lemma {:induction false} FirstSeenAppend(a: seq<GroupRow>, b: seq<GroupRow>)
    requires forall j :: 0 <= j < |b| ==> b[j].month !in FirstSeen(a)
    ensures FirstSeen(a + b) == FirstSeen(a) + FirstSeen(b)
    decreases |b|
  {
    if b == [] {
      assert a + b == a;
    } else {
      var b' := b[..|b| - 1];
      assert (a + b)[..|a + b| - 1] == a + b';
      assert (a + b)[|a + b| - 1] == b[|b| - 1];
      FirstSeenAppend(a, b');
    }
  }

  lemma BlockFirstSeen(txs: seq<Tx>, m: string)
    requires HasGroup(txs, m, CASH) || HasGroup(txs, m, ONLINE)
    ensures FirstSeen(Group(txs, m, CASH) + Group(txs, m, ONLINE)) == [m]
  {
    var c := Group(txs, m, CASH);
    var o := Group(txs, m, ONLINE);
    var rows := c + o;
    if c != [] && o != [] {
      assert rows[..1] == c && c[..0] == [];
      assert FirstSeen(c) == [m];
      assert rows[1] == o[0];
    } else {
      assert rows[..0] == [];
      assert |rows| == 1 && rows[0].month == m;
    }
  }

  lemma {:induction false} BlocksMonthsWithin(ms: seq<string>, txs: seq<Tx>)
    ensures forall j :: 0 <= j < |Blocks(ms, txs)| ==> Blocks(ms, txs)[j].month in ms
  {
    if ms != [] {
      BlocksMonthsWithin(ms[1..], txs);
      var rows := Blocks(ms, txs);
      var head := Group(txs, ms[0], CASH) + Group(txs, ms[0], ONLINE);
      forall j | 0 <= j < |rows| ensures rows[j].month in ms {
        if j >= |head| { assert rows[j] == Blocks(ms[1..], txs)[j - |head|]; }
      }
    }
  }

  lemma {:induction false} BlocksFirstSeen(ms: seq<string>, txs: seq<Tx>)
    requires Distinct(ms)
    requires forall j :: 0 <= j < |ms| ==> HasGroup(txs, ms[j], CASH) || HasGroup(txs, ms[j], ONLINE)
    ensures FirstSeen(Blocks(ms, txs)) == ms
  {
    if ms != [] {
      var head := Group(txs, ms[0], CASH) + Group(txs, ms[0], ONLINE);
      var rest := Blocks(ms[1..], txs);
      assert Distinct(ms[1..]) by {
        forall i, j | 0 <= i < j < |ms[1..]| ensures ms[1..][i] != ms[1..][j] {
          assert ms[1..][i] == ms[i + 1] && ms[1..][j] == ms[j + 1];
        }
      }
      assert forall j :: 0 <= j < |ms[1..]| ==> ms[1..][j] == ms[j + 1];
      BlocksFirstSeen(ms[1..], txs);
      BlockFirstSeen(txs, ms[0]);
      BlocksMonthsWithin(ms[1..], txs);
      forall j | 0 <= j < |rest| ensures rest[j].month !in FirstSeen(head) {
        assert rest[j].month in ms[1..];
      }
      FirstSeenAppend(head, rest);
      assert ms == [ms[0]] + ms[1..];
    }
  }

  /** Merging the grouped rows yields the report: the fold and the query together compute, for every
      month of the log and in ascending order, its per-mode and overall IN and OUT sums. */
  lemma MergedIsReport(txs: seq<Tx>)
    ensures MergedOf(FirstSeen(GroupByMonthAndMode(txs)), GroupByMonthAndMode(txs)) == Report(txs)
  {
    var ms := Months(txs);
    var rows := GroupByMonthAndMode(txs);
    assert Distinct(ms);
    forall j | 0 <= j < |ms| ensures HasGroup(txs, ms[j], CASH) || HasGroup(txs, ms[j], ONLINE) {
      assert ms[j] in ms;
      var i :| 0 <= i < |txs| && MonthKey(txs[i].date) == ms[j];
      assert InGroup(txs[i], ms[j], txs[i].paymentMode);
    }
    BlocksFirstSeen(ms, txs);
    forall q | 0 <= q < |ms| ensures Finish(AccOf(rows, ms[q])) == RecordOf(txs, ms[q]) {
      var m := ms[q];
      BlocksTotal(ms, txs, m, CASH, IN);
      BlocksTotal(ms, txs, m, CASH, OUT);
      BlocksTotal(ms, txs, m, ONLINE, IN);
      BlocksTotal(ms, txs, m, ONLINE, OUT);
      ModeSplit(txs, m, IN);
      ModeSplit(txs, m, OUT);
    }
  }

  // ----- properties of the report -----

  /** The report lists every month of the log exactly once, in ascending order, and each record's
      totals are the sum of its two modes, with `balance = totalIn - totalOut`. */
  lemma ReportShape(txs: seq<Tx>)
    ensures var r := Report(txs);
      && (forall i, j :: 0 <= i < j < |r| ==> LexLt(r[i].month, r[j].month))
      && (forall m :: (exists i :: 0 <= i < |r| && r[i].month == m) <==> HasMonth(txs, m))
      && (forall i :: 0 <= i < |r| ==>
            && r[i].totalIn == r[i].cash.totalIn + r[i].online.totalIn
            && r[i].totalOut == r[i].cash.totalOut + r[i].online.totalOut
            && r[i].balance == r[i].totalIn - r[i].totalOut)
  {
    var ms := Months(txs);
    var r := Report(txs);
    forall i | 0 <= i < |r|
      ensures r[i].totalIn == r[i].cash.totalIn + r[i].online.totalIn
      ensures r[i].totalOut == r[i].cash.totalOut + r[i].online.totalOut
    {
      ModeSplit(txs, ms[i], IN);
      ModeSplit(txs, ms[i], OUT);
    }
    forall m ensures (exists i :: 0 <= i < |r| && r[i].month == m) <==> m in ms {
      if m in ms {
        var i :| 0 <= i < |ms| && ms[i] == m;
        assert r[i].month == m;
      }
      if i :| 0 <= i < |r| && r[i].month == m {
        assert ms[i] == m;
      }
    }
  }

  function Hit(ms: seq<string>, k: string, a: int): int {
    if ms == [] then 0 else (if ms[0] == k then a else 0) + Hit(ms[1..], k, a)
  }

  lemma {:induction false} HitAbsent(ms: seq<string>, k: string, a: int)
    requires k !in ms
    ensures Hit(ms, k, a) == 0
  {
    if ms != [] { HitAbsent(ms[1..], k, a); }
  }

  lemma {:induction false} HitOnce(ms: seq<string>, k: string, a: int)
    requires Distinct(ms) && k in ms
    ensures Hit(ms, k, a) == a
  {
    if ms[0] == k {
      HitAbsent(ms[1..], k, a);
    } else {
      assert Distinct(ms[1..]) by {
        forall i, j | 0 <= i < j < |ms[1..]| ensures ms[1..][i] != ms[1..][j] {
          assert ms[1..][i] == ms[i + 1] && ms[1..][j] == ms[j + 1];
        }
      }
      HitOnce(ms[1..], k, a);
    }
  }

  function Across(ms: seq<string>, txs: seq<Tx>, ty: TxType): int {
    if ms == [] then 0 else MonthSum(txs, ms[0], ty) + Across(ms[1..], txs, ty)
  }

  lemma {:induction false} AcrossStep(ms: seq<string>, txs: seq<Tx>, ty: TxType)
    requires txs != []
    ensures Across(ms, txs, ty) == Hit(ms, MonthKey(txs[0].date), Amount(txs[0], ty)) + Across(ms, txs[1..], ty)
  {
    if ms != [] { AcrossStep(ms[1..], txs, ty); }
  }

  lemma {:induction false} AcrossIsTotal(ms: seq<string>, txs: seq<Tx>, ty: TxType)
    requires Distinct(ms)
    requires forall i :: 0 <= i < |txs| ==> MonthKey(txs[i].date) in ms
    ensures Across(ms, txs, ty) == TypeSum(txs, ty)
  {
    if txs == [] {
      AcrossEmpty(ms, ty);
    } else {
      AcrossStep(ms, txs, ty);
      HitOnce(ms, MonthKey(txs[0].date), Amount(txs[0], ty));
      assert forall i :: 0 <= i < |txs[1..]| ==> txs[1..][i] == txs[i + 1];
      AcrossIsTotal(ms, txs[1..], ty);
    }
  }

  lemma {:induction false} AcrossEmpty(ms: seq<string>, ty: TxType)
    ensures Across(ms, [], ty) == 0
  {
    if ms != [] { AcrossEmpty(ms[1..], ty); }
  }

  lemma {:induction false} RecordsSums(ms: seq<string>, txs: seq<Tx>)
    ensures SumTotalIn(RecordsOf(ms, txs)) == Across(ms, txs, IN)
    ensures SumTotalOut(RecordsOf(ms, txs)) == Across(ms, txs, OUT)
  {
    if ms != [] {
      var r := RecordsOf(ms, txs);
      assert r[1..] == RecordsOf(ms[1..], txs);
      RecordsSums(ms[1..], txs);
    }
  }

  /** Summed over the months, the report's IN total is the log's IN total, and likewise for OUT. */
  lemma ReportSums(txs: seq<Tx>)
    ensures SumTotalIn(Report(txs)) == TypeSum(txs, IN)
    ensures SumTotalOut(Report(txs)) == TypeSum(txs, OUT)
  {
    var ms := Months(txs);
    RecordsSums(ms, txs);
    AcrossIsTotal(ms, txs, IN);
    AcrossIsTotal(ms, txs, OUT);
  }

  /** CASH/IN 100 and ONLINE/OUT 40 in one month give 100, 40, 100, 40 and a balance of 60. */
  lemma TwoModesOneMonth()
    ensures var a := Tx("a", IN, 100, Some("c"), None, None, "2024-03-05", CUSTOMER, CASH, "b");
      var b := Tx("b", OUT, 40, Some("c"), None, None, "2024-03-20", CUSTOMER, ONLINE, "b");
      Report([a, b]) == [MonthRecord("2024-03", Totals(100, 0), Totals(0, 40), 100, 40, 60)]
  {
    var a := Tx("a", IN, 100, Some("c"), None, None, "2024-03-05", CUSTOMER, CASH, "b");
    var b := Tx("b", OUT, 40, Some("c"), None, None, "2024-03-20", CUSTOMER, ONLINE, "b");
    var txs := [a, b];
    assert MonthKey(a.date) == "2024-03" && MonthKey(b.date) == "2024-03";
    assert txs[1..] == [b] && txs[1..][1..] == [];
    assert Months([b]) == ["2024-03"];
    assert Months(txs) == ["2024-03"];
  }
}
