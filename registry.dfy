/** The customer and supplier models. The two are the same code over two tables, so each operation
    takes the table (`cat`) it works on: listing with an optional search, the single read, create,
    update, and the delete that first removes the party's transactions. */
module Registry {
  import opened Schema
  import opened Text
  import opened Ledger
  import opened Queries
  import opened LedgerProofs

  function WithParties(db: Db, cat: Category, m: map<string, Party>): Db {
    if cat == CUSTOMER then db.(customers := m) else db.(suppliers := m)
  }

  /** `name LIKE '%s%' OR phoneNumber LIKE '%s%'`, as plain substring tests. */
  predicate Mentions(p: Party, s: string) {
    Contains(p.name, s) || Contains(p.phoneNumber, s)
  }

  /** getAll: the business's parties, and when a search is given (present and not ""), only those
      whose name or phone number contains it. */
  function List(db: Db, cat: Category, biz: string, search: Option<string>): (r: map<string, Party>)
    ensures forall id :: id in r <==>
      && id in Parties(db, cat) && Parties(db, cat)[id].businessId == biz
      && (Given(search) ==>
            (exists i :: OccursAt(Parties(db, cat)[id].name, search.value, i))
            || (exists i :: OccursAt(Parties(db, cat)[id].phoneNumber, search.value, i)))
    ensures forall id :: id in r ==> r[id] == Parties(db, cat)[id]
  {
    var m := Parties(db, cat);
    if Given(search) then map id | id in m && m[id].businessId == biz && Mentions(m[id], search.value) :: m[id]
    else map id | id in m && m[id].businessId == biz :: m[id]
  }

  /** getById: `SELECT * ... WHERE id = ? AND businessId = ?`, absent when no row matches. */
  function GetParty(db: Db, cat: Category, id: string, biz: string): (r: Option<Record>)
    ensures r.Some? <==> id in Parties(db, cat) && Parties(db, cat)[id].businessId == biz
    ensures r.Some? ==> r.value == Record(id, Parties(db, cat)[id])
  {
    var m := Parties(db, cat);
    if id in m && m[id].businessId == biz then Some(Record(id, m[id])) else None
  }

  /** create: insert the row with `balance || 0`; an id already in the table violates the primary key. */
  function CreateParty(db: Db, cat: Category, id: string, name: string, phoneNumber: string,
                       balance: Option<int>, biz: string): Step<Record>
  {
    var m := Parties(db, cat);
    if id in m then Step(Err(DuplicateId), db)
    else
      var p := Party(name, phoneNumber, if balance.Some? then balance.value else 0, biz);
      Step(Ok(Record(id, p)), WithParties(db, cat, m[id := p]))
  }

  /** update: overwrite name, phone number and balance of the row with that id in that business, if
      there is one; the values given are returned either way. */
  function UpdateParty(db: Db, cat: Category, id: string, biz: string, name: string, phoneNumber: string,
                       balance: int): Step<Record>
  {
    var m := Parties(db, cat);
    var m' := if id in m && m[id].businessId == biz then m[id := Party(name, phoneNumber, balance, biz)] else m;
    Step(Ok(Record(id, Party(name, phoneNumber, balance, biz))), WithParties(db, cat, m'))
  }

  /** The rows the cascade deletes: `WHERE <customerId | supplierId> = ? AND businessId = ?`. */
  predicate Refers(t: Tx, cat: Category, id: string, biz: string) {
    Ref(t, cat) == Some(id) && t.businessId == biz
  }

  function Unreferenced(txs: seq<Tx>, cat: Category, id: string, biz: string): (r: seq<Tx>)
    ensures forall t :: t in r <==> t in txs && !Refers(t, cat, id, biz)
    ensures |r| <= |txs|
  {
    if txs == [] then []
    else
      var rest := Unreferenced(txs[1..], cat, id, biz);
      assert forall t :: t in txs <==> t == txs[0] || t in txs[1..];
      (if Refers(txs[0], cat, id, biz) then [] else [txs[0]]) + rest
  }

  function Referring(txs: seq<Tx>, cat: Category, id: string, biz: string): (r: seq<Tx>)
    ensures forall t :: t in r <==> t in txs && Refers(t, cat, id, biz)
  {
    if txs == [] then []
    else
      var rest := Referring(txs[1..], cat, id, biz);
      assert forall t :: t in txs <==> t == txs[0] || t in txs[1..];
      (if Refers(txs[0], cat, id, biz) then [txs[0]] else []) + rest
  }

  /** delete: remove the party's transactions in the business, then the party's row. */
  function DeleteParty(db: Db, cat: Category, id: string, biz: string): Db {
    var m := Parties(db, cat);
    var m' := if id in m && m[id].businessId == biz then m - {id} else m;
    WithParties(db.(txs := Unreferenced(db.txs, cat, id, biz)), cat, m')
  }

  // ----- listing -----

  /** Searching for a party's own name finds it. */
  lemma ListFindsName(db: Db, cat: Category, id: string)
    requires id in Parties(db, cat)
    ensures var p := Parties(db, cat)[id];
      id in List(db, cat, p.businessId, Some(p.name))
  {
    var s := Parties(db, cat)[id].name;
    assert s[0..|s|] == s;
    assert OccursAt(s, s, 0);
  }

  lemma OccursPrefix(s: string, a: string, b: string, i: int)
    requires OccursAt(s, a + b, i)
    ensures OccursAt(s, a, i)
  {
    assert s[i..i + |a|] == (a + b)[..|a|];
    assert (a + b)[..|a|] == a;
  }

  /** A longer search narrows the listing: whatever matches `a + b` also matches `a`. */
  lemma ListNarrows(db: Db, cat: Category, biz: string, a: string, b: string)
    ensures forall id :: id in List(db, cat, biz, Some(a + b)) ==> id in List(db, cat, biz, Some(a))
  {
    var m := Parties(db, cat);
    forall id | id in List(db, cat, biz, Some(a + b)) ensures id in List(db, cat, biz, Some(a)) {
      if Given(Some(a + b)) && Given(Some(a)) {
        if i :| OccursAt(m[id].name, a + b, i) {
          OccursPrefix(m[id].name, a, b, i);
        } else {
          var i :| OccursAt(m[id].phoneNumber, a + b, i);
          OccursPrefix(m[id].phoneNumber, a, b, i);
        }
      }
    }
  }

  // ----- create and update -----

  /** create fails exactly on a taken id, leaving the tables as they were; otherwise the new row
      reads back, with balance 0 when none is given, and nothing else changes. */
  lemma CreatePartyReadsBack(db: Db, cat: Category, id: string, name: string, phoneNumber: string,
                        balance: Option<int>, biz: string)
    ensures var s := CreateParty(db, cat, id, name, phoneNumber, balance, biz);
      && (s.result.Err? <==> id in Parties(db, cat))
      && (s.result.Err? ==> s == Step(Err(DuplicateId), db))
      && (s.result.Ok? ==>
            && s.result.value == Record(id, Party(name, phoneNumber, if balance.Some? then balance.value else 0, biz))
            && GetParty(s.db, cat, id, biz) == Some(s.result.value)
            && s.db.txs == db.txs
            && Parties(s.db, cat) == Parties(db, cat)[id := s.result.value.party]
            && Parties(s.db, Other(cat)) == Parties(db, Other(cat)))
  {
  }

  /** A created party's base balance is its starting balance less what the log already charges to
      its id (with foreign keys modelled as off, rows may name it before it exists); every other
      party of either table keeps its ledger. */
  lemma CreatePartyKeepsLedger(db: Db, cat: Category, id: string, name: string, phoneNumber: string,
                          balance: Option<int>, biz: string, c: Category)
    requires CreateParty(db, cat, id, name, phoneNumber, balance, biz).result.Ok?
    ensures var after := CreateParty(db, cat, id, name, phoneNumber, balance, biz).db;
      && (forall pid :: pid in Parties(db, c) ==> pid in Parties(after, c) && Offset(after, c, pid) == Offset(db, c, pid))
      && (c == cat ==> Offset(after, c, id) == (if balance.Some? then balance.value else 0) - Posted(db.txs, cat, id, biz))
  {
  }

  /** update overwrites the running balance: a party found in the business reads back with the given
      values, and its base balance moves by the difference between the new and the old balance, so its
      ledger is kept only when the balance is resent unchanged. A party not found is left alone and
      the given values are still returned. */
  lemma UpdatePartyEffect(db: Db, cat: Category, id: string, biz: string, name: string, phoneNumber: string, balance: int)
    ensures var s := UpdateParty(db, cat, id, biz, name, phoneNumber, balance);
      && s.result == Ok(Record(id, Party(name, phoneNumber, balance, biz)))
      && s.db.txs == db.txs
      && Parties(s.db, Other(cat)) == Parties(db, Other(cat))
      && Parties(s.db, cat).Keys == Parties(db, cat).Keys
      && (GetParty(db, cat, id, biz).None? ==> s.db == db)
      && (GetParty(db, cat, id, biz).Some? ==>
            && GetParty(s.db, cat, id, biz) == Some(s.result.value)
            && Offset(s.db, cat, id) == Offset(db, cat, id) + (balance - Parties(db, cat)[id].balance)
            && forall pid :: pid in Parties(db, cat) && pid != id ==> pid in Parties(s.db, cat) && Parties(s.db, cat)[pid] == Parties(db, cat)[pid])
  {
    var m := Parties(db, cat);
    if id !in m || m[id].businessId != biz {
      assert WithParties(db, cat, m) == db;
    }
  }

  // ----- the cascading delete -----

  lemma {:induction false} PostedSplit(txs: seq<Tx>, cat: Category, id: string, biz: string, c: Category, pid: string, pbiz: string)
    ensures Posted(txs, c, pid, pbiz)
         == Posted(Unreferenced(txs, cat, id, biz), c, pid, pbiz) + Posted(Referring(txs, cat, id, biz), c, pid, pbiz)
  {
    if txs != [] {
      PostedSplit(txs[1..], cat, id, biz, c, pid, pbiz);
      var u := Unreferenced(txs[1..], cat, id, biz);
      var f := Referring(txs[1..], cat, id, biz);
      if Refers(txs[0], cat, id, biz) {
        assert Unreferenced(txs, cat, id, biz) == u;
        assert Referring(txs, cat, id, biz) == [txs[0]] + f;
        assert ([txs[0]] + f)[1..] == f;
      } else {
        assert Unreferenced(txs, cat, id, biz) == [txs[0]] + u;
        assert Referring(txs, cat, id, biz) == f;
        assert ([txs[0]] + u)[1..] == u;
      }
    }
  }

  lemma {:induction false} PostedNoCharge(txs: seq<Tx>, c: Category, pid: string, pbiz: string)
    requires forall t :: t in txs ==> !ChargedTo(t, c, pid, pbiz)
    ensures Posted(txs, c, pid, pbiz) == 0
  {
    if txs != [] {
      assert txs[0] in txs;
      assert forall t :: t in txs[1..] ==> t in txs;
      PostedNoCharge(txs[1..], c, pid, pbiz);
    }
  }

  /** After the delete the party is gone from its business and no transaction of that business names
      it any more, so its listing is empty; the other table is untouched and the remaining rows are
      exactly the old rows that did not name it. */
  lemma DeleteRemoves(db: Db, cat: Category, id: string, biz: string)
    ensures var after := DeleteParty(db, cat, id, biz);
      && GetParty(after, cat, id, biz).None?
      && ByParty(after, cat, id, biz) == []
      && (forall t :: t in after.txs <==> t in db.txs && !Refers(t, cat, id, biz))
      && Parties(after, Other(cat)) == Parties(db, Other(cat))
      && Parties(after, cat) == (if GetParty(db, cat, id, biz).Some? then Parties(db, cat) - {id} else Parties(db, cat))
      && (forall pid :: pid in Parties(db, cat) && pid != id ==> pid in Parties(after, cat) && Parties(after, cat)[pid] == Parties(db, cat)[pid])
  {
    var after := DeleteParty(db, cat, id, biz);
    assert forall i :: 0 <= i < |after.txs| ==> after.txs[i] in after.txs;
    PartyRowsNone(after.txs, cat, id, biz, Parties(after, cat));
    assert |ByParty(after, cat, id, biz)| == |multiset(ByParty(after, cat, id, biz))|;
  }

  lemma {:induction false} PartyRowsNone(txs: seq<Tx>, cat: Category, id: string, biz: string, m: map<string, Party>)
    requires forall i :: 0 <= i < |txs| ==> !Refers(txs[i], cat, id, biz)
    ensures PartyRows(txs, cat, id, biz, m) == []
  {
    if txs != [] {
      assert forall i :: 0 <= i < |txs[1..]| ==> txs[1..][i] == txs[i + 1];
      PartyRowsNone(txs[1..], cat, id, biz, m);
    }
  }

  /** What the delete does to a remaining party's base balance: it rises by the signed sum of the
      removed rows that were charged to that party. */
  lemma DeleteLedger(db: Db, cat: Category, id: string, biz: string, c: Category, pid: string)
    requires pid in Parties(DeleteParty(db, cat, id, biz), c)
    ensures pid in Parties(db, c)
    ensures var after := DeleteParty(db, cat, id, biz);
      Offset(after, c, pid) == Offset(db, c, pid) + Posted(Referring(db.txs, cat, id, biz), c, pid, Parties(db, c)[pid].businessId)
  {
    PostedSplit(db.txs, cat, id, biz, c, pid, Parties(db, c)[pid].businessId);
  }

  /** Deleting a customer keeps the ledger of every remaining customer and of every supplier: the rows
      it removes are charged to that customer alone. */
  lemma DeleteCustomerKeepsLedger(db: Db, id: string, biz: string, c: Category, pid: string)
    requires id != ""
    requires pid in Parties(DeleteParty(db, CUSTOMER, id, biz), c)
    ensures Offset(DeleteParty(db, CUSTOMER, id, biz), c, pid) == Offset(db, c, pid)
  {
    DeleteLedger(db, CUSTOMER, id, biz, c, pid);
    var pbiz := Parties(db, c)[pid].businessId;
    PostedNoCharge(Referring(db.txs, CUSTOMER, id, biz), c, pid, pbiz);
  }

  /** Deleting a supplier keeps the ledger of every remaining supplier. */
  lemma DeleteSupplierKeepsSupplierLedger(db: Db, id: string, biz: string, pid: string)
    requires id != ""
    requires pid in Parties(DeleteParty(db, SUPPLIER, id, biz), SUPPLIER)
    ensures Offset(DeleteParty(db, SUPPLIER, id, biz), SUPPLIER, pid) == Offset(db, SUPPLIER, pid)
  {
    DeleteLedger(db, SUPPLIER, id, biz, SUPPLIER, pid);
    var pbiz := Parties(db, SUPPLIER)[pid].businessId;
    PostedNoCharge(Referring(db.txs, SUPPLIER, id, biz), SUPPLIER, pid, pbiz);
  }

  /** Deleting a supplier keeps a customer's ledger when no removed row also names that customer; a row
      naming both is charged to the customer and leaves with the supplier, and the customer's balance
      keeps the amount. */
  lemma DeleteSupplierCustomerLedger(db: Db, id: string, biz: string, pid: string)
    requires pid in Parties(DeleteParty(db, SUPPLIER, id, biz), CUSTOMER)
    requires forall t :: t in db.txs && Refers(t, SUPPLIER, id, biz) ==> t.customerId != Some(pid)
    ensures Offset(DeleteParty(db, SUPPLIER, id, biz), CUSTOMER, pid) == Offset(db, CUSTOMER, pid)
  {
    DeleteLedger(db, SUPPLIER, id, biz, CUSTOMER, pid);
    var pbiz := Parties(db, CUSTOMER)[pid].businessId;
    PostedNoCharge(Referring(db.txs, SUPPLIER, id, biz), CUSTOMER, pid, pbiz);
  }

  lemma {:induction false} UnreferencedNoMatch(txs: seq<Tx>, cat: Category, id: string, biz: string)
    requires forall i :: 0 <= i < |txs| ==> !Refers(txs[i], cat, id, biz)
    ensures Unreferenced(txs, cat, id, biz) == txs
  {
    if txs != [] {
      UnreferencedNoMatch(txs[1..], cat, id, biz);
    }
  }

  /** Deleting a party that is not in the business and that no row of the business names changes nothing. */
  lemma DeleteAbsent(db: Db, cat: Category, id: string, biz: string)
    requires GetParty(db, cat, id, biz).None?
    requires forall i :: 0 <= i < |db.txs| ==> !Refers(db.txs[i], cat, id, biz)
    ensures DeleteParty(db, cat, id, biz) == db
  {
    UnreferencedNoMatch(db.txs, cat, id, biz);
  }

  /** The cascade is a filter that keeps order: each part of the table loses exactly its own rows
      naming the party, and the surviving rows stay where they were relative to each other. */
  lemma {:induction false} UnreferencedAppend(a: seq<Tx>, b: seq<Tx>, cat: Category, id: string, biz: string)
    ensures Unreferenced(a + b, cat, id, biz) == Unreferenced(a, cat, id, biz) + Unreferenced(b, cat, id, biz)
  {
    if a == [] {
      assert a + b == b;
    } else {
      UnreferencedAppend(a[1..], b, cat, id, biz);
      assert a == [a[0]] + a[1..];
      UnreferencedAppendStep(a[0], a[1..], b, cat, id, biz);
    }
  }

  lemma UnreferencedAppendStep(t: Tx, rest: seq<Tx>, b: seq<Tx>, cat: Category, id: string, biz: string)
    requires Unreferenced(rest + b, cat, id, biz) == Unreferenced(rest, cat, id, biz) + Unreferenced(b, cat, id, biz)
    ensures Unreferenced([t] + rest + b, cat, id, biz) == Unreferenced([t] + rest, cat, id, biz) + Unreferenced(b, cat, id, biz)
  {
    ConcatAssoc([t], rest, b);
    UnreferencedCons(t, rest, cat, id, biz);
    UnreferencedCons(t, rest + b, cat, id, biz);
    var head := if Refers(t, cat, id, biz) then [] else [t];
    ConcatAssoc(head, Unreferenced(rest, cat, id, biz), Unreferenced(b, cat, id, biz));
  }

  lemma ConcatAssoc(p: seq<Tx>, q: seq<Tx>, r: seq<Tx>)
    ensures p + (q + r) == (p + q) + r
  {
  }

  lemma UnreferencedCons(t: Tx, s: seq<Tx>, cat: Category, id: string, biz: string)
    ensures Unreferenced([t] + s, cat, id, biz) == (if Refers(t, cat, id, biz) then [] else [t]) + Unreferenced(s, cat, id, biz)
  {
    assert ([t] + s)[0] == t;
    assert ([t] + s)[1..] == s;
  }

  /** The primary key survives the delete. */
  lemma {:induction false} UnreferencedUnique(txs: seq<Tx>, cat: Category, id: string, biz: string)
    requires UniqueIds(txs)
    ensures UniqueIds(Unreferenced(txs, cat, id, biz))
  {
    if txs != [] {
      assert UniqueIds(txs[1..]) by {
        forall i, j | 0 <= i < j < |txs[1..]| ensures txs[1..][i].id != txs[1..][j].id {
          assert txs[1..][i] == txs[i + 1] && txs[1..][j] == txs[j + 1];
        }
      }
      UnreferencedUnique(txs[1..], cat, id, biz);
      var rest := Unreferenced(txs[1..], cat, id, biz);
      forall k | 0 <= k < |rest| ensures rest[k].id != txs[0].id {
        assert rest[k] in txs[1..];
        var q :| 0 <= q < |txs[1..]| && txs[1..][q] == rest[k];
        assert txs[q + 1] == rest[k];
      }
    }
  }
}
