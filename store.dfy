/** The cashbook's database as one object: the customers, suppliers and transactions tables, changed
    in place by the models' operations. Each method does what the model's code does, step by step,
    and is proved to leave the tables as the corresponding function of the ledger or registry says. */
module Cashbook {
  import opened Schema
  import opened Text
  import opened Ledger
  import opened LedgerProofs
  import opened Queries
  import opened Analytics
  import opened Registry

  lemma AllHoldSnoc(cs: seq<Clause>, c: Clause, t: Tx)
    ensures AllHold(cs + [c], t) <==> AllHold(cs, t) && Holds(c, t)
  {
    assert forall i :: 0 <= i < |cs| ==> (cs + [c])[i] == cs[i];
    assert (cs + [c])[|cs|] == c;
  }

  class Store {
    var customers: map<string, Party>
    var suppliers: map<string, Party>
    var txs: seq<Tx>

    function State(): Db
      reads this
    {
      Db(customers, suppliers, txs)
    }

    /** The transactions table keeps its primary key. */
    ghost predicate Valid()
      reads this
    {
      UniqueIds(txs)
    }

    constructor ()
      ensures Valid()
      ensures State() == Db(map[], map[], [])
    {
      customers := map[];
      suppliers := map[];
      txs := [];
    }

    // ----- transactions -----

    /** TransactionModel.create: insert, post the signed amount to the party, read the row back. */
    method CreateTransaction(t: Tx) returns (r: Result<Joined>)
      requires Valid()
      requires t.id != "" && t.date != "" && t.amount >= 1
      modifies this
      ensures Valid()
      ensures State() == CreateTx(old(State()), t).db
      ensures r == CreateTx(old(State()), t).result
    {
      ghost var before := State();
      CreateKeepsIds(before, t);
      if IdTaken(txs, t.id) {
        r := Err(DuplicateId);
        return;
      }
      txs := txs + [t];
      var balanceChange := if t.txType == IN then t.amount else -t.amount;
      if Given(t.customerId) {
        customers := Credit(customers, t.customerId.value, t.businessId, balanceChange);
      } else if Given(t.supplierId) {
        suppliers := Credit(suppliers, t.supplierId.value, t.businessId, balanceChange);
      }
      assert State() == CreateTx(before, t).db;
      CreateReadsBack(before, t);
      var row := GetById(State(), t.id, t.businessId);
      r := Ok(row.value);
    }

    /** TransactionModel.update: find the row, reverse its balance change, overwrite it, apply the new
        change (with the source's signs), read the row back. */
    method UpdateTransaction(id: string, biz: string, u: Changes) returns (r: Result<Joined>)
      requires Valid()
      requires u.date != "" && u.amount >= 1
      modifies this
      ensures Valid()
      ensures State() == UpdateTx(old(State()), id, biz, u).db
      ensures r == UpdateTx(old(State()), id, biz, u).result
    {
      ghost var before := State();
      UpdateKeepsIds(before, id, biz, u);
      var original := FindTx(txs, id, biz);
      if original.None? {
        r := Err(TransactionNotFound);
        return;
      }
      var o := original.value;
      ReverseBalance(o, biz);
      txs := ReplaceRow(txs, id, biz, u);
      ApplyBalance(u, biz);
      StepsIgnoreLog(before, o, u, biz, before.txs);
      UpdateRow(before, id, biz, u);
      var row := GetById(State(), id, biz);
      r := Ok(row.value);
    }

    /** update's first balance step: `balance - reverseChange` on the original row's party. */
    method ReverseBalance(o: Tx, biz: string)
      modifies this
      ensures State() == ReverseOriginal(old(State()), o, biz)
    {
      if Given(o.customerId) {
        customers := Debit(customers, o.customerId.value, biz, if o.txType == IN then -o.amount else o.amount);
      } else if Given(o.supplierId) {
        suppliers := Debit(suppliers, o.supplierId.value, biz, if o.txType == IN then o.amount else -o.amount);
      }
    }

    /** update's last balance step: `balance - newChange` on the party the updates name. */
    method ApplyBalance(u: Changes, biz: string)
      modifies this
      ensures State() == ApplyNew(old(State()), u, biz)
    {
      if Given(u.customerId) {
        customers := Debit(customers, u.customerId.value, biz, if u.txType == IN then u.amount else -u.amount);
      } else if Given(u.supplierId) {
        suppliers := Debit(suppliers, u.supplierId.value, biz, if u.txType == IN then -u.amount else u.amount);
      }
    }

    /** TransactionModel.delete: find the row, reverse its balance change, remove it. */
    method DeleteTransaction(id: string, biz: string) returns (r: Result<()>)
      requires Valid()
      modifies this
      ensures Valid()
      ensures State() == DeleteTx(old(State()), id, biz).db
      ensures r == DeleteTx(old(State()), id, biz).result
    {
      ghost var before := State();
      DeleteKeepsIds(before, id, biz);
      var found := FindTx(txs, id, biz);
      if found.None? {
        r := Err(TransactionNotFound);
        return;
      }
      var t := found.value;
      var reverseChange := if t.txType == IN then t.amount else -t.amount;
      if Given(t.customerId) {
        customers := Debit(customers, t.customerId.value, biz, reverseChange);
      } else if Given(t.supplierId) {
        suppliers := Debit(suppliers, t.supplierId.value, biz, reverseChange);
      }
      txs := RemoveRow(txs, id, biz);
      r := Ok(());
    }

    /** TransactionModel.getAll: the WHERE clause grows by one condition per given filter. */
    method GetAll(biz: string, f: Filters) returns (r: seq<Tx>)
      ensures r == Matching(txs, biz, f)
    {
      var clauses := [BusinessIs(biz)];
      forall t ensures AllHold(clauses, t) <==> MatchesFirst(f, biz, t, 0) {
        AllHoldSnoc([], BusinessIs(biz), t);
        assert [] + [BusinessIs(biz)] == clauses;
      }
      if Given(f.startDate) {
        forall t ensures AllHold(clauses + [DateFrom(f.startDate.value)], t) <==> AllHold(clauses, t) && Holds(DateFrom(f.startDate.value), t) {
          AllHoldSnoc(clauses, DateFrom(f.startDate.value), t);
        }
        clauses := clauses + [DateFrom(f.startDate.value)];
      }
      assert forall t :: AllHold(clauses, t) <==> MatchesFirst(f, biz, t, 1);
      if Given(f.endDate) {
        forall t ensures AllHold(clauses + [DateUntil(f.endDate.value)], t) <==> AllHold(clauses, t) && Holds(DateUntil(f.endDate.value), t) {
          AllHoldSnoc(clauses, DateUntil(f.endDate.value), t);
        }
        clauses := clauses + [DateUntil(f.endDate.value)];
      }
      assert forall t :: AllHold(clauses, t) <==> MatchesFirst(f, biz, t, 2);
      if Given(f.txType) {
        forall t ensures AllHold(clauses + [TypeIs(f.txType.value)], t) <==> AllHold(clauses, t) && Holds(TypeIs(f.txType.value), t) {
          AllHoldSnoc(clauses, TypeIs(f.txType.value), t);
        }
        clauses := clauses + [TypeIs(f.txType.value)];
      }
      assert forall t :: AllHold(clauses, t) <==> MatchesFirst(f, biz, t, 3);
      if Given(f.category) {
        forall t ensures AllHold(clauses + [CategoryIs(f.category.value)], t) <==> AllHold(clauses, t) && Holds(CategoryIs(f.category.value), t) {
          AllHoldSnoc(clauses, CategoryIs(f.category.value), t);
        }
        clauses := clauses + [CategoryIs(f.category.value)];
      }
      assert forall t :: AllHold(clauses, t) <==> MatchesFirst(f, biz, t, 4);
      if Given(f.paymentMode) {
        forall t ensures AllHold(clauses + [ModeIs(f.paymentMode.value)], t) <==> AllHold(clauses, t) && Holds(ModeIs(f.paymentMode.value), t) {
          AllHoldSnoc(clauses, ModeIs(f.paymentMode.value), t);
        }
        clauses := clauses + [ModeIs(f.paymentMode.value)];
      }
      assert forall t :: AllHold(clauses, t) <==> MatchesFirst(f, biz, t, 5);
      SelectMatching(txs, clauses, biz, f);
      r := Select(txs, clauses);
    }

    /** TransactionModel.getAnalytics: run the grouping query on the business's rows, then merge. */
    method GetAnalytics(biz: string) returns (r: seq<MonthRecord>)
      requires forall i :: 0 <= i < |txs| && txs[i].businessId == biz ==> WellFormedDate(txs[i].date)
      ensures r == Report(OfBusiness(txs, biz))
    {
      var rows := GroupByMonthAndMode(OfBusiness(txs, biz));
      r := MergeByMonth(rows);
      MergedIsReport(OfBusiness(txs, biz));
    }

    // ----- customers and suppliers -----

    /** CustomerModel.create / SupplierModel.create. */
    method AddParty(cat: Category, id: string, name: string, phoneNumber: string, balance: Option<int>, biz: string)
      returns (r: Result<Record>)
      requires Valid()
      requires id != "" && name != "" && phoneNumber != ""
      modifies this
      ensures Valid()
      ensures State() == CreateParty(old(State()), cat, id, name, phoneNumber, balance, biz).db
      ensures r == CreateParty(old(State()), cat, id, name, phoneNumber, balance, biz).result
    {
      var table := if cat == CUSTOMER then customers else suppliers;
      if id in table {
        r := Err(DuplicateId);
        return;
      }
      var p := Party(name, phoneNumber, if balance.Some? then balance.value else 0, biz);
      if cat == CUSTOMER {
        customers := customers[id := p];
      } else {
        suppliers := suppliers[id := p];
      }
      r := Ok(Record(id, p));
    }

    /** CustomerModel.update / SupplierModel.update. */
    method ChangeParty(cat: Category, id: string, biz: string, name: string, phoneNumber: string, balance: int)
      returns (r: Record)
      requires Valid()
      requires name != "" && phoneNumber != ""
      modifies this
      ensures Valid()
      ensures State() == UpdateParty(old(State()), cat, id, biz, name, phoneNumber, balance).db
      ensures Ok(r) == UpdateParty(old(State()), cat, id, biz, name, phoneNumber, balance).result
    {
      var p := Party(name, phoneNumber, balance, biz);
      if cat == CUSTOMER {
        if id in customers && customers[id].businessId == biz {
          customers := customers[id := p];
        }
      } else {
        if id in suppliers && suppliers[id].businessId == biz {
          suppliers := suppliers[id := p];
        }
      }
      r := Record(id, p);
    }

    /** CustomerModel.delete / SupplierModel.delete: the party's transactions first, then the party. */
    method RemoveParty(cat: Category, id: string, biz: string)
      requires Valid()
      modifies this
      ensures Valid()
      ensures State() == DeleteParty(old(State()), cat, id, biz)
    {
      UnreferencedUnique(txs, cat, id, biz);
      txs := Unreferenced(txs, cat, id, biz);
      if cat == CUSTOMER {
        if id in customers && customers[id].businessId == biz {
          customers := customers - {id};
        }
      } else {
        if id in suppliers && suppliers[id].businessId == biz {
          suppliers := suppliers - {id};
        }
      }
    }
  }
}
