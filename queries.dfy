/** The read side of the transaction model: the filtered listing of getAll and the
    per-party listings ordered by date, newest first. */
module Queries {
  import opened Schema
  import opened Text
  import opened Ledger

  /** getAll's optional filters, as the request's query string gives them (`search` is accepted and unused). */
  datatype Filters = Filters(
    search: Option<string>,
    startDate: Option<string>,
    endDate: Option<string>,
    txType: Option<string>,
    category: Option<string>,
    paymentMode: Option<string>)

  function TypeName(t: TxType): string {
    match t
    case IN => "IN"
    case OUT => "OUT"
  }

  function CategoryName(c: Category): string {
    match c
    case CUSTOMER => "CUSTOMER"
    case SUPPLIER => "SUPPLIER"
  }

  function ModeName(m: PaymentMode): string {
    match m
    case CASH => "CASH"
    case ONLINE => "ONLINE"
  }

  /** One condition of getAll's WHERE clause, with its bound parameter. */
  datatype Clause =
    | BusinessIs(biz: string)
    | DateFrom(start: string)
    | DateUntil(end: string)
    | TypeIs(txType: string)
    | CategoryIs(category: string)
    | ModeIs(mode: string)

  predicate Holds(c: Clause, t: Tx) {
    match c
    case BusinessIs(b) => t.businessId == b
    case DateFrom(d) => LexLe(d, t.date)
    case DateUntil(d) => LexLe(t.date, d)
    case TypeIs(s) => TypeName(t.txType) == s
    case CategoryIs(s) => CategoryName(t.category) == s
    case ModeIs(s) => ModeName(t.paymentMode) == s
  }

  predicate AllHold(cs: seq<Clause>, t: Tx) {
    forall i :: 0 <= i < |cs| ==> Holds(cs[i], t)
  }

  /** `SELECT * FROM transactions WHERE <cs joined by AND>`, in store order. */
  function Select(txs: seq<Tx>, cs: seq<Clause>): seq<Tx> {
    if txs == [] then []
    else (if AllHold(cs, txs[0]) then [txs[0]] else []) + Select(txs[1..], cs)
  }

  /** The part of getAll's WHERE clause built after its first `k` filter tests (business scope,
      then start date, end date, type, category, payment mode); the method builds it step by step. */
  predicate MatchesFirst(f: Filters, biz: string, t: Tx, k: nat) {
    && t.businessId == biz
    && (k >= 1 && Given(f.startDate) ==> LexLe(f.startDate.value, t.date))
    && (k >= 2 && Given(f.endDate) ==> LexLe(t.date, f.endDate.value))
    && (k >= 3 && Given(f.txType) ==> TypeName(t.txType) == f.txType.value)
    && (k >= 4 && Given(f.category) ==> CategoryName(t.category) == f.category.value)
    && (k >= 5 && Given(f.paymentMode) ==> ModeName(t.paymentMode) == f.paymentMode.value)
  }

  /** What getAll promises of a row, its full WHERE clause: the row is the business's, and every
      filter that is given (present and not "") holds of it; dates compare as text. */
  predicate Matches(f: Filters, biz: string, t: Tx) {
    MatchesFirst(f, biz, t, 5)
  }

  /** The rows getAll returns: exactly the matching rows, in store order. */
  function Matching(txs: seq<Tx>, biz: string, f: Filters): (r: seq<Tx>)
    ensures forall t :: t in r <==> t in txs && Matches(f, biz, t)
    ensures |r| <= |txs|
  {
    if txs == [] then []
    else
      var rest := Matching(txs[1..], biz, f);
      assert forall t :: t in txs <==> t == txs[0] || t in txs[1..];
      (if Matches(f, biz, txs[0]) then [txs[0]] else []) + rest
  }

  /** Store order: the rows matched in an earlier part of the log come before those of a later part. */
  lemma {:induction false} MatchingAppend(a: seq<Tx>, b: seq<Tx>, biz: string, f: Filters)
    ensures Matching(a + b, biz, f) == Matching(a, biz, f) + Matching(b, biz, f)
  {
    if a == [] {
      assert a + b == b;
    } else {
      assert (a + b)[1..] == a[1..] + b;
      MatchingAppend(a[1..], b, biz, f);
    }
  }

  /** A clause list that expresses the filters selects exactly getAll's rows. */
  lemma {:induction false} SelectMatching(txs: seq<Tx>, cs: seq<Clause>, biz: string, f: Filters)
    requires forall t :: AllHold(cs, t) <==> Matches(f, biz, t)
    ensures Select(txs, cs) == Matching(txs, biz, f)
  {
    if txs != [] { SelectMatching(txs[1..], cs, biz, f); }
  }

  /** Filtering by one clause list and then by another is filtering by both at once. */
  lemma {:induction false} SelectConjunction(txs: seq<Tx>, a: seq<Clause>, b: seq<Clause>)
    ensures Select(Select(txs, a), b) == Select(txs, a + b)
  {
    if txs != [] {
      assert AllHold(a + b, txs[0]) <==> AllHold(a, txs[0]) && AllHold(b, txs[0]) by {
        assert forall i :: 0 <= i < |a| ==> (a + b)[i] == a[i];
        assert forall i :: 0 <= i < |b| ==> (a + b)[|a| + i] == b[i];
      }
      SelectConjunction(txs[1..], a, b);
      var s := Select(txs[1..], a);
      if AllHold(a, txs[0]) {
        assert Select(txs, a) == [txs[0]] + s;
        assert ([txs[0]] + s)[1..] == s;
      } else {
        assert Select(txs, a) == s;
      }
    }
  }

  /** The filters commute: which one is applied first does not change the result. */
  lemma FilterOrderIrrelevant(txs: seq<Tx>, a: seq<Clause>, b: seq<Clause>)
    ensures Select(Select(txs, a), b) == Select(Select(txs, b), a)
  {
    SelectConjunction(txs, a, b);
    SelectConjunction(txs, b, a);
    SelectSameClauses(txs, a + b, b + a);
  }

  lemma {:induction false} SelectSameClauses(txs: seq<Tx>, a: seq<Clause>, b: seq<Clause>)
    requires multiset(a) == multiset(b)
    ensures Select(txs, a) == Select(txs, b)
  {
    if txs != [] {
      var t := txs[0];
      assert AllHold(a, t) <==> AllHold(b, t) by {
        forall i | 0 <= i < |a| ensures a[i] in multiset(b) { assert a[i] in multiset(a); }
        forall i | 0 <= i < |b| ensures b[i] in multiset(a) { assert b[i] in multiset(b); }
      }
      SelectSameClauses(txs[1..], a, b);
    }
  }

  // ----- per-party listings -----

  /** The column getTransactionsByCustomerId / BySupplierId select on. */
  function Ref(t: Tx, cat: Category): Option<string> {
    if cat == CUSTOMER then t.customerId else t.supplierId
  }

  /** `WHERE t.<ref> = ? AND t.businessId = ?`, joined with that party's name and phone. */
  function PartyRows(txs: seq<Tx>, cat: Category, pid: string, biz: string, m: map<string, Party>): (r: seq<Joined>)
    ensures forall x :: x in r <==>
      x.tx in txs && Ref(x.tx, cat) == Some(pid) && x.tx.businessId == biz
      && x.partyName == NameOf(m, pid) && x.partyPhone == PhoneOf(m, pid)
  {
    if txs == [] then []
    else
      var rest := PartyRows(txs[1..], cat, pid, biz, m);
      assert forall t :: t in txs <==> t == txs[0] || t in txs[1..];
      (if Ref(txs[0], cat) == Some(pid) && txs[0].businessId == biz
       then [Joined(txs[0], NameOf(m, pid), PhoneOf(m, pid))] else []) + rest
  }

  ghost predicate DateDescending(s: seq<Joined>) {
    forall i, j :: 0 <= i < j < |s| ==> LexLe(s[j].tx.date, s[i].tx.date)
  }

  function InsertByDate(x: Joined, s: seq<Joined>): seq<Joined> {
    if s == [] then [x]
    else if LexLe(s[0].tx.date, x.tx.date) then [x] + s
    else [s[0]] + InsertByDate(x, s[1..])
  }

  lemma {:induction false} InsertByDateCount(x: Joined, s: seq<Joined>)
    ensures multiset(InsertByDate(x, s)) == multiset(s) + multiset{x}
  {
    if s != [] && !LexLe(s[0].tx.date, x.tx.date) {
      InsertByDateCount(x, s[1..]);
      assert s == [s[0]] + s[1..];
    }
  }

  /** Inserting keeps an upper bound on the dates. */
  lemma {:induction false} InsertByDateBound(x: Joined, s: seq<Joined>, d: string)
    requires LexLe(x.tx.date, d)
    requires forall k :: 0 <= k < |s| ==> LexLe(s[k].tx.date, d)
    ensures forall k :: 0 <= k < |InsertByDate(x, s)| ==> LexLe(InsertByDate(x, s)[k].tx.date, d)
  {
    if s != [] && !LexLe(s[0].tx.date, x.tx.date) {
      InsertByDateBound(x, s[1..], d);
    }
  }

  lemma {:induction false} InsertByDateSorted(x: Joined, s: seq<Joined>)
    requires DateDescending(s)
    ensures DateDescending(InsertByDate(x, s))
  {
    if s == [] {
    } else if LexLe(s[0].tx.date, x.tx.date) {
      var r := [x] + s;
      forall j | 0 < j < |r| ensures LexLe(r[j].tx.date, x.tx.date) {
        if j > 1 { LexLeTrans(s[j - 1].tx.date, s[0].tx.date, x.tx.date); }
      }
    } else {
      LexLeTotal(s[0].tx.date, x.tx.date);
      var rest := InsertByDate(x, s[1..]);
      InsertByDateSorted(x, s[1..]);
      InsertByDateBound(x, s[1..], s[0].tx.date);
      var r := [s[0]] + rest;
      assert r == InsertByDate(x, s);
      forall i, j | 0 <= i < j < |r| ensures LexLe(r[j].tx.date, r[i].tx.date) {
        assert r[j] == rest[j - 1];
        if i > 0 { assert r[i] == rest[i - 1]; }
      }
    }
  }

  /** `ORDER BY t.date DESC` on text dates. */
  function SortByDateDesc(s: seq<Joined>): (r: seq<Joined>)
    ensures DateDescending(r)
    ensures multiset(r) == multiset(s)
  {
    if s == [] then []
    else
      var rest := SortByDateDesc(s[1..]);
      InsertByDateSorted(s[0], rest);
      InsertByDateCount(s[0], rest);
      assert s == [s[0]] + s[1..];
      InsertByDate(s[0], rest)
  }

  /** getTransactionsByCustomerId (`cat == CUSTOMER`) and getTransactionsBySupplierId: exactly the
      business's rows that name the party, each joined with the party's name and phone, newest first. */
  function ByParty(db: Db, cat: Category, pid: string, biz: string): (r: seq<Joined>)
    ensures DateDescending(r)
    ensures multiset(r) == multiset(PartyRows(db.txs, cat, pid, biz, Parties(db, cat)))
    ensures forall x :: x in r <==>
      x.tx in db.txs && Ref(x.tx, cat) == Some(pid) && x.tx.businessId == biz
      && x.partyName == NameOf(Parties(db, cat), pid)
      && x.partyPhone == PhoneOf(Parties(db, cat), pid)
  {
    var rows := PartyRows(db.txs, cat, pid, biz, Parties(db, cat));
    var r := SortByDateDesc(rows);
    assert forall x :: x in r <==> x in multiset(rows);
    r
  }
}
