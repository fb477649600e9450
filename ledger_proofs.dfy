/** What the ledger engine keeps and what it breaks.
    A party's running balance is meant to be its starting balance plus the signed amounts of the
    transactions charged to it. `Posted` is that sum, and `Offset` the balance minus it; an operation
    keeps the ledger of a party when it leaves the party's `Offset` unchanged. */
module LedgerProofs {
  import opened Schema
  import opened Ledger

  /** The party whose balance create, update and delete adjust for `t`: the customer when
      `customerId` is given, otherwise the supplier when `supplierId` is given; in `t`'s business. */
  predicate ChargedTo(t: Tx, cat: Category, pid: string, biz: string) {
    && t.businessId == biz
    && match cat
       case CUSTOMER => Given(t.customerId) && t.customerId.value == pid
       case SUPPLIER => !Given(t.customerId) && Given(t.supplierId) && t.supplierId.value == pid
  }

  function Charge(t: Tx, cat: Category, pid: string, biz: string): int {
    if ChargedTo(t, cat, pid, biz) then Delta(t.txType, t.amount) else 0
  }

  /** The signed sum of the transactions charged to party `pid` of business `biz`. */
  function Posted(txs: seq<Tx>, cat: Category, pid: string, biz: string): int {
    if txs == [] then 0 else Charge(txs[0], cat, pid, biz) + Posted(txs[1..], cat, pid, biz)
  }

  /** The running balance less what the log explains: the party's base balance. */
  function Offset(db: Db, cat: Category, pid: string): int
    requires pid in Parties(db, cat)
  {
    var p := Parties(db, cat)[pid];
    p.balance - Posted(db.txs, cat, pid, p.businessId)
  }

  /** Every party of the category has base 0: its balance is exactly the sum of its transactions. */
  ghost predicate Balanced(db: Db, cat: Category) {
    forall pid :: pid in Parties(db, cat) ==> Offset(db, cat, pid) == 0
  }

  /** `after` holds the same parties as `before`, with only balances possibly changed. */
  ghost predicate SameParties(before: map<string, Party>, after: map<string, Party>) {
    && after.Keys == before.Keys
    && forall k :: k in before ==> after[k] == before[k].(balance := after[k].balance)
  }

  /** `after` keeps every party's base balance: the ledger invariant is preserved. */
  ghost predicate KeepsLedger(before: Db, after: Db, cat: Category) {
    && SameParties(Parties(before, cat), Parties(after, cat))
    && forall pid :: pid in Parties(before, cat) ==> Offset(after, cat, pid) == Offset(before, cat, pid)
  }

  // ----- sums over the log -----

  lemma {:induction false} PostedAppend(txs: seq<Tx>, t: Tx, cat: Category, pid: string, biz: string)
    ensures Posted(txs + [t], cat, pid, biz) == Posted(txs, cat, pid, biz) + Charge(t, cat, pid, biz)
  {
    if txs != [] {
      assert (txs + [t])[1..] == txs[1..] + [t];
      PostedAppend(txs[1..], t, cat, pid, biz);
    }
  }

  lemma {:induction false} ReplaceNoMatch(txs: seq<Tx>, id: string, biz: string, u: Changes)
    requires forall i :: 0 <= i < |txs| ==> !RowIs(txs[i], id, biz)
    ensures ReplaceRow(txs, id, biz, u) == txs
  {
    if txs != [] { ReplaceNoMatch(txs[1..], id, biz, u); }
  }

  lemma {:induction false} RemoveNoMatch(txs: seq<Tx>, id: string, biz: string)
    requires forall i :: 0 <= i < |txs| ==> !RowIs(txs[i], id, biz)
    ensures RemoveRow(txs, id, biz) == txs
  {
    if txs != [] { RemoveNoMatch(txs[1..], id, biz); }
  }

  /** With unique ids, the row at `k` is the only one that `id`/`biz` select. */
  lemma OnlyMatch(txs: seq<Tx>, k: int, id: string, biz: string)
    requires UniqueIds(txs) && 0 <= k < |txs| && RowIs(txs[k], id, biz)
    ensures forall i :: 0 <= i < |txs| && RowIs(txs[i], id, biz) ==> i == k
  {
  }

  lemma {:induction false} ReplaceOnly(txs: seq<Tx>, k: int, id: string, biz: string, u: Changes)
    requires 0 <= k < |txs| && forall i :: 0 <= i < |txs| && RowIs(txs[i], id, biz) ==> i == k
    ensures ReplaceRow(txs, id, biz, u) == txs[k := if RowIs(txs[k], id, biz) then Apply(txs[k], u) else txs[k]]
  {
    if k == 0 {
      ReplaceNoMatch(txs[1..], id, biz, u);
      assert txs[0 := if RowIs(txs[0], id, biz) then Apply(txs[0], u) else txs[0]]
          == [if RowIs(txs[0], id, biz) then Apply(txs[0], u) else txs[0]] + txs[1..];
    } else {
      ReplaceOnly(txs[1..], k - 1, id, biz, u);
      assert txs[k := if RowIs(txs[k], id, biz) then Apply(txs[k], u) else txs[k]]
          == [txs[0]] + txs[1..][k - 1 := if RowIs(txs[k], id, biz) then Apply(txs[k], u) else txs[k]];
    }
  }

  lemma {:induction false} RemoveOnly(txs: seq<Tx>, k: int, id: string, biz: string)
    requires 0 <= k < |txs| && RowIs(txs[k], id, biz)
    requires forall i :: 0 <= i < |txs| && RowIs(txs[i], id, biz) ==> i == k
    ensures RemoveRow(txs, id, biz) == txs[..k] + txs[k + 1..]
  {
    if k == 0 {
      RemoveNoMatch(txs[1..], id, biz);
    } else {
      RemoveOnly(txs[1..], k - 1, id, biz);
      assert txs[..k] + txs[k + 1..] == [txs[0]] + (txs[1..][..k - 1] + txs[1..][k..]);
    }
  }

  /** update rewrites the one row with that id and business where it stands; every other row keeps
      its value and its position in the table. */
  lemma ReplaceRowAt(txs: seq<Tx>, k: int, id: string, biz: string, u: Changes)
    requires UniqueIds(txs) && 0 <= k < |txs| && RowIs(txs[k], id, biz)
    ensures ReplaceRow(txs, id, biz, u) == txs[k := Apply(txs[k], u)]
  {
    OnlyMatch(txs, k, id, biz);
    ReplaceOnly(txs, k, id, biz, u);
  }

  /** delete removes the one row with that id and business; the rows before and after it keep
      their values and their order. */
  lemma RemoveRowAt(txs: seq<Tx>, k: int, id: string, biz: string)
    requires UniqueIds(txs) && 0 <= k < |txs| && RowIs(txs[k], id, biz)
    ensures RemoveRow(txs, id, biz) == txs[..k] + txs[k + 1..]
  {
    OnlyMatch(txs, k, id, biz);
    RemoveOnly(txs, k, id, biz);
  }

  lemma {:induction false} PostedReplace(txs: seq<Tx>, k: int, id: string, biz: string, u: Changes,
                                           cat: Category, pid: string, pbiz: string)
    requires UniqueIds(txs) && 0 <= k < |txs| && RowIs(txs[k], id, biz)
    ensures Posted(ReplaceRow(txs, id, biz, u), cat, pid, pbiz)
         == Posted(txs, cat, pid, pbiz) - Charge(txs[k], cat, pid, pbiz) + Charge(Apply(txs[k], u), cat, pid, pbiz)
  {
    OnlyMatch(txs, k, id, biz);
    if k == 0 {
      ReplaceNoMatch(txs[1..], id, biz, u);
    } else {
      PostedReplace(txs[1..], k - 1, id, biz, u, cat, pid, pbiz);
    }
  }

  lemma {:induction false} PostedRemove(txs: seq<Tx>, k: int, id: string, biz: string,
                                          cat: Category, pid: string, pbiz: string)
    requires UniqueIds(txs) && 0 <= k < |txs| && RowIs(txs[k], id, biz)
    ensures Posted(RemoveRow(txs, id, biz), cat, pid, pbiz) == Posted(txs, cat, pid, pbiz) - Charge(txs[k], cat, pid, pbiz)
  {
    OnlyMatch(txs, k, id, biz);
    if k == 0 {
      assert forall i :: 0 <= i < |txs[1..]| ==> txs[1..][i] == txs[i + 1];
      RemoveNoMatch(txs[1..], id, biz);
      assert RemoveRow(txs, id, biz) == txs[1..];
      assert Posted(txs, cat, pid, pbiz) == Charge(txs[0], cat, pid, pbiz) + Posted(txs[1..], cat, pid, pbiz);
    } else {
      PostedRemove(txs[1..], k - 1, id, biz, cat, pid, pbiz);
    }
  }

  /** The index of the row FindTx returned. */
  lemma FoundAt(txs: seq<Tx>, id: string, biz: string) returns (k: int)
    requires UniqueIds(txs) && FindTx(txs, id, biz).Some?
    ensures 0 <= k < |txs| && txs[k] == FindTx(txs, id, biz).value
  {
    var t := FindTx(txs, id, biz).value;
    k :| 0 <= k < |txs| && txs[k] == t;
  }

  // ----- what each operation does to the tables -----

  /** The primary key: which creates fail, and that a failure changes nothing. */
  lemma CreateOutcome(db: Db, t: Tx)
    ensures CreateTx(db, t).result.Err? <==> exists i :: 0 <= i < |db.txs| && db.txs[i].id == t.id
    ensures CreateTx(db, t).result.Err? ==> CreateTx(db, t) == Step(Err(DuplicateId), db)
    ensures CreateTx(db, t).result.Ok? ==> CreateTx(db, t).db.txs == db.txs + [t]
  {
  }

  /** create adds `Delta` to exactly the party `t` is charged to (customer preferred, matched on id
      and business) and to no other; a party that is absent or of another business is not touched. */
  lemma CreateBalances(db: Db, t: Tx, cat: Category)
    requires CreateTx(db, t).result.Ok?
    ensures var db' := CreateTx(db, t).db;
      && SameParties(Parties(db, cat), Parties(db', cat))
      && forall pid :: pid in Parties(db, cat) ==>
           Parties(db', cat)[pid].balance
             == Parties(db, cat)[pid].balance + Charge(t, cat, pid, Parties(db, cat)[pid].businessId)
  {
  }

  /** create keeps the ledger of every customer and every supplier. */
  lemma CreateKeepsLedger(db: Db, t: Tx, cat: Category)
    requires CreateTx(db, t).result.Ok?
    ensures KeepsLedger(db, CreateTx(db, t).db, cat)
  {
    var db' := CreateTx(db, t).db;
    CreateBalances(db, t, cat);
    forall pid | pid in Parties(db, cat)
      ensures Offset(db', cat, pid) == Offset(db, cat, pid)
    {
      PostedAppend(db.txs, t, cat, pid, Parties(db, cat)[pid].businessId);
    }
  }

  /** create's read-back (`getById` after COMMIT) finds the inserted row. */
  lemma {:induction false} CreateReadsBack(db: Db, t: Tx)
    requires CreateTx(db, t).result.Ok?
    ensures GetById(CreateTx(db, t).db, t.id, t.businessId) == Some(CreateTx(db, t).result.value)
  {
    var db' := CreateTx(db, t).db;
    FindAppended(db.txs, t);
  }

  lemma {:induction false} FindAppended(txs: seq<Tx>, t: Tx)
    requires !IdTaken(txs, t.id)
    ensures FindTx(txs + [t], t.id, t.businessId) == Some(t)
  {
    if txs != [] {
      assert (txs + [t])[1..] == txs[1..] + [t];
      assert !IdTaken(txs[1..], t.id) by {
        assert forall i :: 0 <= i < |txs[1..]| ==> txs[1..][i] == txs[i + 1];
      }
      FindAppended(txs[1..], t);
    }
  }

  lemma {:induction false} RemoveAppended(txs: seq<Tx>, t: Tx)
    requires !IdTaken(txs, t.id)
    ensures RemoveRow(txs + [t], t.id, t.businessId) == txs
  {
    if txs == [] {
      assert RemoveRow([t], t.id, t.businessId) == [] + RemoveRow([], t.id, t.businessId);
    } else {
      assert (txs + [t])[1..] == txs[1..] + [t];
      assert !IdTaken(txs[1..], t.id) by {
        assert forall i :: 0 <= i < |txs[1..]| ==> txs[1..][i] == txs[i + 1];
      }
      RemoveAppended(txs[1..], t);
      assert txs[0].id != t.id;
      assert txs == [txs[0]] + txs[1..];
    }
  }

  /** Round trip: deleting a transaction right after creating it restores every table exactly. */
  lemma CreateThenDelete(db: Db, t: Tx)
    requires CreateTx(db, t).result.Ok?
    ensures DeleteTx(CreateTx(db, t).db, t.id, t.businessId) == Step(Ok(()), db)
  {
    var db' := CreateTx(db, t).db;
    FindAppended(db.txs, t);
    RemoveAppended(db.txs, t);
    var d := Delta(t.txType, t.amount);
    if Given(t.customerId) {
      CreditTwice(db.customers, t.customerId.value, t.businessId, d, -d);
      CreditZero(db.customers, t.customerId.value, t.businessId);
    } else if Given(t.supplierId) {
      CreditTwice(db.suppliers, t.supplierId.value, t.businessId, d, -d);
      CreditZero(db.suppliers, t.supplierId.value, t.businessId);
    }
  }

  /** update and delete of a row that the business does not have fail before writing anything. */
  lemma MissingRowFails(db: Db, id: string, biz: string, u: Changes)
    requires forall i :: 0 <= i < |db.txs| ==> !RowIs(db.txs[i], id, biz)
    ensures UpdateTx(db, id, biz, u) == Step(Err(TransactionNotFound), db)
    ensures DeleteTx(db, id, biz) == Step(Err(TransactionNotFound), db)
  {
  }

  /** update: the row keeps its id and business, takes the eight new columns, and is read back. */
  lemma {:induction false} UpdateRow(db: Db, id: string, biz: string, u: Changes)
    requires UniqueIds(db.txs) && FindTx(db.txs, id, biz).Some?
    ensures var o := FindTx(db.txs, id, biz).value;
      var s := UpdateTx(db, id, biz, u);
      && s.db.txs == ReplaceRow(db.txs, id, biz, u)
      && (forall k :: 0 <= k < |db.txs| && RowIs(db.txs[k], id, biz) ==> s.db.txs == db.txs[k := Apply(o, u)])
      && Apply(o, u).id == id && Apply(o, u).businessId == biz && FieldsOf(Apply(o, u)) == u
      && s.result == Ok(Join(s.db, Apply(o, u)))
      && GetById(s.db, id, biz) == Some(Join(s.db, Apply(o, u)))
  {
    var o := FindTx(db.txs, id, biz).value;
    var k := FoundAt(db.txs, id, biz);
    var t1 := ReplaceRow(db.txs, id, biz, u);
    var r := ReverseOriginal(db, o, biz);
    StepsIgnoreLog(db, o, u, biz, db.txs);
    StepsIgnoreLog(r, o, u, biz, t1);
    var s := UpdateTx(db, id, biz, u);
    assert s.db == ApplyNew(r, u, biz).(txs := t1);
    FindReplaced(db.txs, k, id, biz, u);
    OnlyMatch(db.txs, k, id, biz);
    ReplaceRowAt(db.txs, k, id, biz, u);
  }

  lemma {:induction false} FindReplaced(txs: seq<Tx>, k: int, id: string, biz: string, u: Changes)
    requires UniqueIds(txs) && 0 <= k < |txs| && RowIs(txs[k], id, biz)
    ensures FindTx(ReplaceRow(txs, id, biz, u), id, biz) == Some(Apply(txs[k], u))
  {
    OnlyMatch(txs, k, id, biz);
    if k > 0 {
      FindReplaced(txs[1..], k - 1, id, biz, u);
    }
  }

  /** The table-level steps commute with rewriting the log. */
  lemma StepsIgnoreLog(d: Db, t: Tx, u: Changes, biz: string, s: seq<Tx>)
    ensures ReverseOriginal(d.(txs := s), t, biz) == ReverseOriginal(d, t, biz).(txs := s)
    ensures ApplyNew(d.(txs := s), u, biz) == ApplyNew(d, u, biz).(txs := s)
    ensures ReverseOriginal(d, t, biz).txs == d.txs && ApplyNew(d, u, biz).txs == d.txs
  {
  }

  /** The reversal step of update: a customer gains the original's `Delta`, a supplier loses it. */
  lemma ReverseOriginalEffect(d: Db, o: Tx, biz: string, cat: Category)
    requires o.businessId == biz
    ensures var before := Parties(d, cat);
      var after := Parties(ReverseOriginal(d, o, biz), cat);
      && SameParties(before, after)
      && forall pid :: pid in before ==>
           after[pid].balance == before[pid].balance
             + (if cat == SUPPLIER then -Charge(o, cat, pid, before[pid].businessId)
                else Charge(o, cat, pid, before[pid].businessId))
  {
  }

  /** The apply step of update: a customer loses the new row's `Delta`, a supplier gains it. */
  lemma ApplyNewEffect(d: Db, n: Tx, biz: string, cat: Category)
    requires n.businessId == biz
    ensures var before := Parties(d, cat);
      var after := Parties(ApplyNew(d, FieldsOf(n), biz), cat);
      && SameParties(before, after)
      && forall pid :: pid in before ==>
           after[pid].balance == before[pid].balance
             + (if cat == SUPPLIER then Charge(n, cat, pid, before[pid].businessId)
                else -Charge(n, cat, pid, before[pid].businessId))
  {
  }

  /** The balance effect of update, per party, exactly as the code is written:
      a supplier loses the original's `Delta` and gains the new one's, while a customer GAINS
      the original's `Delta` and LOSES the new one's. */
  lemma UpdateBalances(db: Db, id: string, biz: string, u: Changes, cat: Category)
    requires FindTx(db.txs, id, biz).Some?
    ensures var o := FindTx(db.txs, id, biz).value;
      var after := Parties(UpdateTx(db, id, biz, u).db, cat);
      var before := Parties(db, cat);
      && SameParties(before, after)
      && forall pid :: pid in before ==>
           var b := before[pid].businessId;
           after[pid].balance == before[pid].balance
             + (if cat == SUPPLIER then Charge(Apply(o, u), cat, pid, b) - Charge(o, cat, pid, b)
                else Charge(o, cat, pid, b) - Charge(Apply(o, u), cat, pid, b))
  {
    var o := FindTx(db.txs, id, biz).value;
    var n := Apply(o, u);
    assert FieldsOf(n) == u;
    var r := ReverseOriginal(db, o, biz);
    var w := r.(txs := ReplaceRow(r.txs, id, biz, u));
    ReverseOriginalEffect(db, o, biz, cat);
    ApplyNewEffect(w, n, biz, cat);
    assert Parties(w, cat) == Parties(r, cat);
    assert UpdateTx(db, id, biz, u).db == ApplyNew(w, FieldsOf(n), biz);
  }

  /** update keeps the ledger of every supplier. */
  lemma UpdateKeepsSupplierLedger(db: Db, id: string, biz: string, u: Changes)
    requires UniqueIds(db.txs) && FindTx(db.txs, id, biz).Some?
    ensures KeepsLedger(db, UpdateTx(db, id, biz, u).db, SUPPLIER)
  {
    var db' := UpdateTx(db, id, biz, u).db;
    var k := FoundAt(db.txs, id, biz);
    UpdateBalances(db, id, biz, u, SUPPLIER);
    forall pid | pid in db.suppliers
      ensures Offset(db', SUPPLIER, pid) == Offset(db, SUPPLIER, pid)
    {
      PostedReplace(db.txs, k, id, biz, u, SUPPLIER, pid, db.suppliers[pid].businessId);
    }
  }

  /** The customer branch of update as written: every customer's base balance moves by twice
      (original charge - new charge), so any customer with a non-zero difference leaves the ledger. */
  lemma CustomerUpdateNetEffect(db: Db, id: string, biz: string, u: Changes)
    requires UniqueIds(db.txs) && FindTx(db.txs, id, biz).Some?
    ensures var o := FindTx(db.txs, id, biz).value;
      var db' := UpdateTx(db, id, biz, u).db;
      && SameParties(db.customers, db'.customers)
      && forall c :: c in db.customers ==>
           var b := db.customers[c].businessId;
           Offset(db', CUSTOMER, c)
             == Offset(db, CUSTOMER, c) + 2 * (Charge(o, CUSTOMER, c, b) - Charge(Apply(o, u), CUSTOMER, c, b))
  {
    var db' := UpdateTx(db, id, biz, u).db;
    var k := FoundAt(db.txs, id, biz);
    UpdateBalances(db, id, biz, u, CUSTOMER);
    forall c | c in db.customers
      ensures var b := db.customers[c].businessId;
        Offset(db', CUSTOMER, c)
          == Offset(db, CUSTOMER, c) + 2 * (Charge(db.txs[k], CUSTOMER, c, b) - Charge(Apply(db.txs[k], u), CUSTOMER, c, b))
    {
      PostedReplace(db.txs, k, id, biz, u, CUSTOMER, c, db.customers[c].businessId);
    }
  }

  /** The balance step of delete: the party the row was charged to loses its `Delta`. */
  lemma ReverseDeletedEffect(d: Db, t: Tx, biz: string, cat: Category)
    requires t.businessId == biz
    ensures var before := Parties(d, cat);
      var after := Parties(ReverseDeleted(d, t, biz), cat);
      && SameParties(before, after)
      && ReverseDeleted(d, t, biz).txs == d.txs
      && forall pid :: pid in before ==>
           after[pid].balance == before[pid].balance - Charge(t, cat, pid, before[pid].businessId)
  {
  }

  /** delete subtracts `Delta` from exactly the party the row was charged to, and keeps the
      ledger of every customer and supplier. */
  lemma DeleteKeepsLedger(db: Db, id: string, biz: string, cat: Category)
    requires UniqueIds(db.txs) && FindTx(db.txs, id, biz).Some?
    ensures var t := FindTx(db.txs, id, biz).value;
      var db' := DeleteTx(db, id, biz).db;
      && db'.txs == RemoveRow(db.txs, id, biz)
      && (forall k :: 0 <= k < |db.txs| && RowIs(db.txs[k], id, biz) ==> db'.txs == db.txs[..k] + db.txs[k + 1..])
      && (forall pid :: pid in Parties(db, cat) ==>
            Parties(db', cat)[pid].balance
              == Parties(db, cat)[pid].balance - Charge(t, cat, pid, Parties(db, cat)[pid].businessId))
      && KeepsLedger(db, db', cat)
  {
    var t := FindTx(db.txs, id, biz).value;
    var r := ReverseDeleted(db, t, biz);
    var db' := DeleteTx(db, id, biz).db;
    assert db' == r.(txs := RemoveRow(r.txs, id, biz));
    ReverseDeletedEffect(db, t, biz, cat);
    var k := FoundAt(db.txs, id, biz);
    OnlyMatch(db.txs, k, id, biz);
    RemoveRowAt(db.txs, k, id, biz);
    forall pid | pid in Parties(db, cat)
      ensures Offset(db', cat, pid) == Offset(db, cat, pid)
    {
      PostedRemove(db.txs, k, id, biz, cat, pid, Parties(db, cat)[pid].businessId);
    }
  }

  /** Books whose supplier balances are exactly the sums of their transactions stay that way
      through create, update and delete. */
  lemma SupplierBooksBalance(db: Db, t: Tx, id: string, biz: string, u: Changes)
    requires UniqueIds(db.txs) && Balanced(db, SUPPLIER)
    ensures CreateTx(db, t).result.Ok? ==> Balanced(CreateTx(db, t).db, SUPPLIER)
    ensures FindTx(db.txs, id, biz).Some? ==>
      Balanced(UpdateTx(db, id, biz, u).db, SUPPLIER) && Balanced(DeleteTx(db, id, biz).db, SUPPLIER)
  {
    if CreateTx(db, t).result.Ok? {
      CreateKeepsLedger(db, t, SUPPLIER);
    }
    if FindTx(db.txs, id, biz).Some? {
      UpdateKeepsSupplierLedger(db, id, biz, u);
      DeleteKeepsLedger(db, id, biz, SUPPLIER);
    }
  }

  // ----- update applied twice -----

  /** The apply step followed by the reversal step of the same fields cancel (both categories). */
  lemma ApplyThenReverse(d: Db, t: Tx, biz: string)
    ensures ReverseOriginal(ApplyNew(d, FieldsOf(t), biz), t, biz) == d
  {
    var x := if t.txType == IN then t.amount else -t.amount;
    if Given(t.customerId) {
      CreditTwice(d.customers, t.customerId.value, biz, -x, x);
      CreditZero(d.customers, t.customerId.value, biz);
    } else if Given(t.supplierId) {
      CreditTwice(d.suppliers, t.supplierId.value, biz, x, -x);
      CreditZero(d.suppliers, t.supplierId.value, biz);
    }
  }

  /** The reversal step followed by the apply step of the same fields cancel (both categories). */
  lemma ReverseThenApply(d: Db, t: Tx, biz: string)
    ensures ApplyNew(ReverseOriginal(d, t, biz), FieldsOf(t), biz) == d
  {
    var x := if t.txType == IN then t.amount else -t.amount;
    if Given(t.customerId) {
      CreditTwice(d.customers, t.customerId.value, biz, x, -x);
      CreditZero(d.customers, t.customerId.value, biz);
    } else if Given(t.supplierId) {
      CreditTwice(d.suppliers, t.supplierId.value, biz, -x, x);
      CreditZero(d.suppliers, t.supplierId.value, biz);
    }
  }

  lemma {:induction false} ReplaceTwice(txs: seq<Tx>, o: Tx, id: string, biz: string, u: Changes)
    requires forall i :: 0 <= i < |txs| && RowIs(txs[i], id, biz) ==> txs[i] == o
    ensures ReplaceRow(ReplaceRow(txs, id, biz, u), id, biz, FieldsOf(o)) == txs
  {
    if txs != [] {
      ReplaceTwice(txs[1..], o, id, biz, u);
    }
  }

  /** Updating a row and then updating it back to its original columns restores every table,
      for customers as well as suppliers: the two sign errors of the customer branch cancel. */
  lemma UpdateThenRevert(db: Db, id: string, biz: string, u: Changes)
    requires UniqueIds(db.txs) && FindTx(db.txs, id, biz).Some?
    ensures var o := FindTx(db.txs, id, biz).value;
      UpdateTx(UpdateTx(db, id, biz, u).db, id, biz, FieldsOf(o)).db == db
  {
    var o := FindTx(db.txs, id, biz).value;
    var k := FoundAt(db.txs, id, biz);
    var n := Apply(o, u);
    assert FieldsOf(n) == u;
    var t1 := ReplaceRow(db.txs, id, biz, u);
    FindReplaced(db.txs, k, id, biz, u);
    ReplaceTwice(db.txs, o, id, biz, u);
    var r1 := ReverseOriginal(db, o, biz);
    StepsIgnoreLog(db, o, u, biz, t1);
    StepsIgnoreLog(r1, o, u, biz, t1);
    var db1 := ApplyNew(r1.(txs := t1), u, biz);
    assert db1 == UpdateTx(db, id, biz, u).db;
    assert db1 == ApplyNew(r1, FieldsOf(n), biz).(txs := t1);
    assert db1.txs == t1;
    assert FindTx(db1.txs, id, biz) == Some(n);
    ApplyThenReverse(r1, n, biz);
    StepsIgnoreLog(ApplyNew(r1, FieldsOf(n), biz), n, u, biz, t1);
    var r2 := ReverseOriginal(db1, n, biz);
    assert r2 == r1.(txs := t1);
    var w2 := r2.(txs := ReplaceRow(r2.txs, id, biz, FieldsOf(o)));
    assert w2 == r1.(txs := db.txs);
    ReverseThenApply(db, o, biz);
    StepsIgnoreLog(r1, o, FieldsOf(o), biz, db.txs);
    assert ApplyNew(w2, FieldsOf(o), biz) == db;
  }

  // ----- the primary key -----

  lemma {:induction false} ReplaceRowIds(txs: seq<Tx>, id: string, biz: string, u: Changes)
    ensures |ReplaceRow(txs, id, biz, u)| == |txs|
    ensures forall i :: 0 <= i < |txs| ==> ReplaceRow(txs, id, biz, u)[i].id == txs[i].id
  {
    if txs != [] { ReplaceRowIds(txs[1..], id, biz, u); }
  }

  lemma {:induction false} RemoveRowWithin(txs: seq<Tx>, id: string, biz: string)
    ensures forall t :: t in RemoveRow(txs, id, biz) ==> t in txs
  {
    if txs != [] { RemoveRowWithin(txs[1..], id, biz); }
  }

  lemma {:induction false} RemoveRowUnique(txs: seq<Tx>, id: string, biz: string)
    requires UniqueIds(txs)
    ensures UniqueIds(RemoveRow(txs, id, biz))
  {
    if txs != [] {
      assert UniqueIds(txs[1..]) by {
        forall i, j | 0 <= i < j < |txs[1..]| ensures txs[1..][i].id != txs[1..][j].id {
          assert txs[1..][i] == txs[i + 1] && txs[1..][j] == txs[j + 1];
        }
      }
      RemoveRowUnique(txs[1..], id, biz);
      RemoveRowWithin(txs[1..], id, biz);
      var rest := RemoveRow(txs[1..], id, biz);
      forall k | 0 <= k < |rest| ensures rest[k].id != txs[0].id {
        assert rest[k] in txs[1..];
        var q :| 0 <= q < |txs[1..]| && txs[1..][q] == rest[k];
        assert txs[q + 1] == rest[k];
      }
    }
  }

  /** create, update and delete keep transaction ids unique. */
  lemma CreateKeepsIds(db: Db, t: Tx)
    requires UniqueIds(db.txs)
    ensures UniqueIds(CreateTx(db, t).db.txs)
  {
    if !IdTaken(db.txs, t.id) {
      var txs := db.txs + [t];
      assert CreateTx(db, t).db.txs == txs;
      forall i, j | 0 <= i < j < |txs| ensures txs[i].id != txs[j].id {
        if j == |txs| - 1 { assert !(db.txs[i].id == t.id); }
      }
    }
  }

  lemma UpdateKeepsIds(db: Db, id: string, biz: string, u: Changes)
    requires UniqueIds(db.txs)
    ensures UniqueIds(UpdateTx(db, id, biz, u).db.txs)
  {
    if FindTx(db.txs, id, biz).Some? {
      var o := FindTx(db.txs, id, biz).value;
      ReplaceRowIds(db.txs, id, biz, u);
      var r := ReverseOriginal(db, o, biz);
      StepsIgnoreLog(r, o, u, biz, ReplaceRow(db.txs, id, biz, u));
      StepsIgnoreLog(db, o, u, biz, db.txs);
      assert UpdateTx(db, id, biz, u).db.txs == ReplaceRow(db.txs, id, biz, u);
    }
  }

  lemma DeleteKeepsIds(db: Db, id: string, biz: string)
    requires UniqueIds(db.txs)
    ensures UniqueIds(DeleteTx(db, id, biz).db.txs)
  {
    if FindTx(db.txs, id, biz).Some? {
      var t := FindTx(db.txs, id, biz).value;
      RemoveRowUnique(db.txs, id, biz);
      assert ReverseDeleted(db, t, biz).txs == db.txs;
    }
  }
}
