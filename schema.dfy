/** The rows of the cashbook's four tables, as values.
    Businesses appear only as the `businessId` strings that scope every row.
    Money (amounts and balances) is an integer number of minor units. */
module Schema {

  datatype Option<T> = None | Some(value: T)

  /** The CHECK-constrained enumerations of the transactions table. */
  datatype TxType = IN | OUT
  datatype Category = CUSTOMER | SUPPLIER
  datatype PaymentMode = CASH | ONLINE

  /** A row of `customers` or of `suppliers`; the row's id is its key in the store's map. */
  datatype Party = Party(name: string, phoneNumber: string, balance: int, businessId: string)

  /** A row of `transactions`. `None` stands for SQL NULL. */
  datatype Tx = Tx(
    id: string,
    txType: TxType,
    amount: int,
    customerId: Option<string>,
    supplierId: Option<string>,
    description: Option<string>,
    date: string,
    category: Category,
    paymentMode: PaymentMode,
    businessId: string)

  /** The eight columns that a transaction update overwrites. */
  datatype Changes = Changes(
    txType: TxType,
    amount: int,
    customerId: Option<string>,
    supplierId: Option<string>,
    description: Option<string>,
    date: string,
    category: Category,
    paymentMode: PaymentMode)

  /** A party record as the registries return it: `{id, name, phoneNumber, balance, businessId}`. */
  datatype Record = Record(id: string, party: Party)

  datatype Error = TransactionNotFound | DuplicateId

  datatype Result<T> = Ok(value: T) | Err(error: Error)

  /** JavaScript truthiness of an optional string: neither null/undefined nor "". */
  predicate Given(o: Option<string>) {
    o.Some? && o.value != ""
  }

  /** The signed effect of a transaction on its party's balance under the sign convention of `create`. */
  function Delta(ty: TxType, amount: int): (d: int)
    ensures amount >= 0 ==> (d >= 0 <==> ty == IN || amount == 0)
    ensures d == amount || d == -amount
  {
    if ty == IN then amount else -amount
  }

  /** `UPDATE parties SET balance = balance + d WHERE id = ? AND businessId = ?`. */
  function Credit(m: map<string, Party>, id: string, biz: string, d: int): (r: map<string, Party>)
    ensures r.Keys == m.Keys
    ensures forall k :: k in m && (k != id || m[k].businessId != biz) ==> r[k] == m[k]
    ensures id in m && m[id].businessId == biz ==> r[id] == m[id].(balance := m[id].balance + d)
  {
    if id in m && m[id].businessId == biz then m[id := m[id].(balance := m[id].balance + d)] else m
  }

  /** `UPDATE parties SET balance = balance - x WHERE id = ? AND businessId = ?`. */
  function Debit(m: map<string, Party>, id: string, biz: string, x: int): (r: map<string, Party>)
    ensures r == Credit(m, id, biz, -x)
  {
    if id in m && m[id].businessId == biz then m[id := m[id].(balance := m[id].balance - x)] else m
  }

  /** Two balance updates of the same row add up. */
  lemma CreditTwice(m: map<string, Party>, id: string, biz: string, x: int, y: int)
    ensures Credit(Credit(m, id, biz, x), id, biz, y) == Credit(m, id, biz, x + y)
  {
    if id in m && m[id].businessId == biz {
      assert Credit(Credit(m, id, biz, x), id, biz, y) == m[id := m[id].(balance := m[id].balance + x + y)];
    }
  }

  /** A zero balance update leaves the table as it was. */
  lemma CreditZero(m: map<string, Party>, id: string, biz: string)
    ensures Credit(m, id, biz, 0) == m
  {
    if id in m && m[id].balance == m[id].balance + 0 {
      assert m[id].(balance := m[id].balance + 0) == m[id];
    }
  }
}
