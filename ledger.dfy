/** The ledger engine of the transaction model: create, update and delete of transaction
    rows together with the balance updates they make, and the single-row read.
    Each operation is a function from the store's tables before the call to its result
    and the tables after the call; a failed operation returns the tables unchanged, which
    is what BEGIN ... ROLLBACK guarantees. */
module Ledger {
  import opened Schema

  /** The three tables the ledger touches. */
  datatype Db = Db(customers: map<string, Party>, suppliers: map<string, Party>, txs: seq<Tx>)

  /** The customers or the suppliers table. */
  function Parties(db: Db, cat: Category): map<string, Party> {
    if cat == CUSTOMER then db.customers else db.suppliers
  }

  /** The other party table. */
  function Other(cat: Category): Category {
    if cat == CUSTOMER then SUPPLIER else CUSTOMER
  }

  /** What an operation returns, and the tables it leaves behind. */
  datatype Step<T> = Step(result: Result<T>, db: Db)

  /** A transaction row joined with its party's name and phone (`partyName`, `partyPhone`). */
  datatype Joined = Joined(tx: Tx, partyName: Option<string>, partyPhone: Option<string>)

  /** `transactions.id` is the table's primary key. */
  ghost predicate UniqueIds(txs: seq<Tx>) {
    forall i, j :: 0 <= i < j < |txs| ==> txs[i].id != txs[j].id
  }

  predicate IdTaken(txs: seq<Tx>, id: string) {
    exists i :: 0 <= i < |txs| && txs[i].id == id
  }

  predicate RowIs(t: Tx, id: string, biz: string) {
    t.id == id && t.businessId == biz
  }

  /** `SELECT * FROM transactions WHERE id = ? AND businessId = ?`. */
  function FindTx(txs: seq<Tx>, id: string, biz: string): (r: Option<Tx>)
    ensures r.Some? ==> r.value in txs && RowIs(r.value, id, biz)
    ensures r.None? <==> forall i :: 0 <= i < |txs| ==> !RowIs(txs[i], id, biz)
  {
    if txs == [] then None
    else if RowIs(txs[0], id, biz) then Some(txs[0])
    else
      var r := FindTx(txs[1..], id, biz);
      assert forall i :: 1 <= i < |txs| ==> txs[i] == txs[1..][i - 1];
      r
  }

  /** The row after `UPDATE transactions SET <the eight columns>`: id and businessId are kept. */
  function Apply(t: Tx, c: Changes): Tx {
    Tx(t.id, c.txType, c.amount, c.customerId, c.supplierId, c.description, c.date, c.category, c.paymentMode, t.businessId)
  }

  /** The eight mutable columns of a row. */
  function FieldsOf(t: Tx): Changes {
    Changes(t.txType, t.amount, t.customerId, t.supplierId, t.description, t.date, t.category, t.paymentMode)
  }

  /** `UPDATE transactions SET ... WHERE id = ? AND businessId = ?`. */
  function ReplaceRow(txs: seq<Tx>, id: string, biz: string, c: Changes): seq<Tx> {
    if txs == [] then []
    else [if RowIs(txs[0], id, biz) then Apply(txs[0], c) else txs[0]] + ReplaceRow(txs[1..], id, biz, c)
  }

  /** `DELETE FROM transactions WHERE id = ? AND businessId = ?`. */
  function RemoveRow(txs: seq<Tx>, id: string, biz: string): seq<Tx> {
    if txs == [] then []
    else (if RowIs(txs[0], id, biz) then [] else [txs[0]]) + RemoveRow(txs[1..], id, biz)
  }

  /** `LEFT JOIN parties p ON t.<ref> = p.id`: the joined column, NULL when no row has that id. */
  function NameOf(m: map<string, Party>, id: string): Option<string> {
    if id in m then Some(m[id].name) else None
  }

  function PhoneOf(m: map<string, Party>, id: string): Option<string> {
    if id in m then Some(m[id].phoneNumber) else None
  }

  /** The `CASE WHEN t.customerId IS NOT NULL ... WHEN t.supplierId IS NOT NULL ...` columns of getById. */
  function Join(db: Db, t: Tx): Joined {
    if t.customerId.Some? then Joined(t, NameOf(db.customers, t.customerId.value), PhoneOf(db.customers, t.customerId.value))
    else if t.supplierId.Some? then Joined(t, NameOf(db.suppliers, t.supplierId.value), PhoneOf(db.suppliers, t.supplierId.value))
    else Joined(t, None, None)
  }

  /** getById: the business's row with that id, joined with its party. */
  function GetById(db: Db, id: string, biz: string): (r: Option<Joined>)
    ensures r.Some? <==> exists i :: 0 <= i < |db.txs| && RowIs(db.txs[i], id, biz)
    ensures r.Some? ==> r.value.tx in db.txs && RowIs(r.value.tx, id, biz) && r.value == Join(db, r.value.tx)
  {
    match FindTx(db.txs, id, biz)
    case None => None
    case Some(t) => Some(Join(db, t))
  }

  /** create: insert the row, then add the signed amount to the customer named by the row,
      or else to the supplier named by it; the UPDATE matches on id and businessId. */
  function CreateTx(db: Db, t: Tx): Step<Joined> {
    if IdTaken(db.txs, t.id) then Step(Err(DuplicateId), db)
    else
      var inserted := db.(txs := db.txs + [t]);
      var balanceChange := if t.txType == IN then t.amount else -t.amount;
      var posted :=
        if Given(t.customerId) then
          inserted.(customers := Credit(inserted.customers, t.customerId.value, t.businessId, balanceChange))
        else if Given(t.supplierId) then
          inserted.(suppliers := Credit(inserted.suppliers, t.supplierId.value, t.businessId, balanceChange))
        else inserted;
      Step(Ok(Join(posted, t)), posted)
  }

  /** The first balance step of update, with the source's signs
      (customers: `balance - (IN ? -amount : amount)`, suppliers: `balance - (IN ? amount : -amount)`). */
  function ReverseOriginal(db: Db, o: Tx, biz: string): Db {
    if Given(o.customerId) then
      db.(customers := Debit(db.customers, o.customerId.value, biz, if o.txType == IN then -o.amount else o.amount))
    else if Given(o.supplierId) then
      db.(suppliers := Debit(db.suppliers, o.supplierId.value, biz, if o.txType == IN then o.amount else -o.amount))
    else db
  }

  /** The last balance step of update, with the source's signs
      (customers: `balance - (IN ? amount : -amount)`, suppliers: `balance - (IN ? -amount : amount)`). */
  function ApplyNew(db: Db, u: Changes, biz: string): Db {
    if Given(u.customerId) then
      db.(customers := Debit(db.customers, u.customerId.value, biz, if u.txType == IN then u.amount else -u.amount))
    else if Given(u.supplierId) then
      db.(suppliers := Debit(db.suppliers, u.supplierId.value, biz, if u.txType == IN then -u.amount else u.amount))
    else db
  }

  /** update: fetch the original row (absent: "Transaction not found"), run the reversal step on the
      original party, overwrite the eight columns, run the apply step on the party named by the updates,
      and read the row back. */
  function UpdateTx(db: Db, id: string, biz: string, u: Changes): Step<Joined> {
    match FindTx(db.txs, id, biz)
    case None => Step(Err(TransactionNotFound), db)
    case Some(o) =>
      var reversed := ReverseOriginal(db, o, biz);
      var rewritten := reversed.(txs := ReplaceRow(reversed.txs, id, biz, u));
      var applied := ApplyNew(rewritten, u, biz);
      Step(Ok(Join(applied, Apply(o, u))), applied)
  }

  /** The balance step of delete: `balance - (IN ? amount : -amount)` for customers and suppliers alike. */
  function ReverseDeleted(db: Db, t: Tx, biz: string): Db {
    var reverseChange := if t.txType == IN then t.amount else -t.amount;
    if Given(t.customerId) then db.(customers := Debit(db.customers, t.customerId.value, biz, reverseChange))
    else if Given(t.supplierId) then db.(suppliers := Debit(db.suppliers, t.supplierId.value, biz, reverseChange))
    else db
  }

  /** delete: fetch the row (absent: "Transaction not found"), reverse its balance change, remove it. */
  function DeleteTx(db: Db, id: string, biz: string): Step<()> {
    match FindTx(db.txs, id, biz)
    case None => Step(Err(TransactionNotFound), db)
    case Some(t) =>
      var reversed := ReverseDeleted(db, t, biz);
      Step(Ok(()), reversed.(txs := RemoveRow(reversed.txs, id, biz)))
  }
}
