/** Worked examples of the ledger engine on concrete tables. */
module Scenarios {
  import opened Schema
  import opened Ledger
  import opened LedgerProofs

  const c0 := Party("C0", "5550100", 0, "b1")

  function T1(): Tx { Tx("t1", IN, 100, Some("c0"), None, None, "2024-03-01", CUSTOMER, CASH, "b1") }
  function T2(): Tx { Tx("t2", OUT, 30, Some("c0"), None, None, "2024-03-02", CUSTOMER, CASH, "b1") }

  /** A customer's history as the code runs it: IN 100 gives 100, OUT 30 gives 70, deleting the OUT
      gives 100 again, and changing the IN to 50 gives 150, where reversing the original change and
      applying the new one would give 50. */
  lemma CustomerWalkThrough()
    ensures var s1 := CreateTx(Db(map["c0" := c0], map[], []), T1());
      var s2 := CreateTx(s1.db, T2());
      var s3 := DeleteTx(s2.db, "t2", "b1");
      var s4 := UpdateTx(s3.db, "t1", "b1", FieldsOf(T1()).(amount := 50));
      && s1.db.customers["c0"].balance == 100
      && s2.db.customers["c0"].balance == 70
      && s3.result.Ok? && s3.db.customers["c0"].balance == 100 && s3.db.txs == [T1()]
      && s4.result.Ok? && s4.db.customers["c0"].balance == 150
      && Posted(s4.db.txs, CUSTOMER, "c0", "b1") == 50
  {
    var db0 := Db(map["c0" := c0], map[], []);
    var s1 := CreateTx(db0, T1());
    assert !IdTaken([], "t1");
    assert s1.db == Db(map["c0" := c0.(balance := 100)], map[], [T1()]);
    var s2 := CreateTx(s1.db, T2());
    assert !IdTaken([T1()], "t2");
    assert s2.db == Db(map["c0" := c0.(balance := 70)], map[], [T1(), T2()]);
    assert FindTx([T1(), T2()], "t2", "b1") == Some(T2()) by {
      assert [T1(), T2()][1..] == [T2()];
    }
    var s3 := DeleteTx(s2.db, "t2", "b1");
    assert RemoveRow([T1(), T2()], "t2", "b1") == [T1()] by {
      assert [T1(), T2()][1..] == [T2()];
      assert RemoveRow([T2()], "t2", "b1") == [];
    }
    assert s3.db == Db(map["c0" := c0.(balance := 100)], map[], [T1()]);
    var u := FieldsOf(T1()).(amount := 50);
    var s4 := UpdateTx(s3.db, "t1", "b1", u);
    assert ReplaceRow([T1()], "t1", "b1", u) == [Apply(T1(), u)];
    assert s4.db == Db(map["c0" := c0.(balance := 150)], map[], [Apply(T1(), u)]);
    assert Posted([Apply(T1(), u)], CUSTOMER, "c0", "b1") == 50;
  }

  /** The same change on a supplier moves the balance to the new amount: the supplier branch
      reverses the original change and applies the new one. */
  lemma SupplierUpdate()
    ensures var t := Tx("t1", IN, 100, None, Some("s0"), None, "2024-03-01", SUPPLIER, CASH, "b1");
      var s1 := CreateTx(Db(map[], map["s0" := c0], []), t);
      var s2 := UpdateTx(s1.db, "t1", "b1", FieldsOf(t).(amount := 50));
      && s1.db.suppliers["s0"].balance == 100
      && s2.result.Ok? && s2.db.suppliers["s0"].balance == 50
  {
    var t := Tx("t1", IN, 100, None, Some("s0"), None, "2024-03-01", SUPPLIER, CASH, "b1");
    var s1 := CreateTx(Db(map[], map["s0" := c0], []), t);
    assert !IdTaken([], "t1");
    assert s1.db == Db(map[], map["s0" := c0.(balance := 100)], [t]);
    var u := FieldsOf(t).(amount := 50);
    assert ReplaceRow([t], "t1", "b1", u) == [Apply(t, u)];
  }
}
