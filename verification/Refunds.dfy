/** Sums over the orders of a group and the refunds drawn on its payment. */
module Refunds {
  import opened Outcome
  import opened Shop
  import opened Invariant

  /** All refunds drawn on a payment, whatever their status. */
  function RefundSum(orders: seq<Order>, p: nat): nat {
    if orders == [] then 0
    else
      var o := orders[|orders| - 1];
      RefundSum(orders[..|orders| - 1], p)
      + if o.refund.Some? && o.refund.value.payment == p then o.refund.value.amount else 0
  }

  function GroupSum(orders: seq<Order>, g: nat): nat {
    if orders == [] then 0
    else
      var o := orders[|orders| - 1];
      GroupSum(orders[..|orders| - 1], g) + if o.key.group == g then o.bill.total else 0
  }

  function SlotSum(orders: seq<Order>, g: nat, k: nat): nat {
    if orders == [] then 0
    else
      var o := orders[|orders| - 1];
      SlotSum(orders[..|orders| - 1], g, k) + if o.key.group == g && o.key.slot < k then o.bill.total else 0
  }

  predicate RefundDone(o: Order, p: nat) {
    o.refund.Some? && o.refund.value.payment == p && o.refund.value.status == Succeeded
  }

  /** Refunds on `p` belong to orders of group `g` and carry their totals. */
  ghost predicate DrawnByGroup(orders: seq<Order>, p: nat, g: nat) {
    forall i :: 0 <= i < |orders| && orders[i].refund.Some? && orders[i].refund.value.payment == p ==>
      orders[i].key.group == g && orders[i].refund.value.amount == orders[i].bill.total
  }

  lemma {:induction false} DrawnSums(orders: seq<Order>, p: nat, g: nat)
    requires DrawnByGroup(orders, p, g)
    ensures RefundedSum(orders, p) <= RefundSum(orders, p) <= GroupSum(orders, g)
  {
    if orders != [] {
      DrawnSums(orders[..|orders| - 1], p, g);
    }
  }

  /** The successful refunds cover the group exactly when no order of value is missing one. */
  lemma {:induction false} RefundedAll(orders: seq<Order>, p: nat, g: nat)
    requires DrawnByGroup(orders, p, g)
    ensures RefundedSum(orders, p) == GroupSum(orders, g) <==>
      forall i :: 0 <= i < |orders| && orders[i].key.group == g ==> orders[i].bill.total == 0 || RefundDone(orders[i], p)
  {
    if orders != [] {
      var k := |orders| - 1;
      var rest := orders[..k];
      RefundedAll(rest, p, g);
      DrawnSums(rest, p, g);
      assert forall i :: 0 <= i < k ==> orders[i] == rest[i];
    }
  }

  // ----- the orders of a group, slot by slot -----

  lemma {:induction false} OneMoreSlot(orders: seq<Order>, g: nat, k: nat, o: nat, n: nat)
    requires o < |orders| && orders[o].key == Key(g, k) && n <= |orders|
    requires forall i :: 0 <= i < |orders| && i != o ==> orders[i].key != Key(g, k)
    ensures SlotSum(orders[..n], g, k + 1) == SlotSum(orders[..n], g, k) + if o < n then orders[o].bill.total else 0
  {
    if n > 0 {
      OneMoreSlot(orders, g, k, o, n - 1);
      assert orders[..n][..n - 1] == orders[..n - 1];
      assert orders[n - 1].key == Key(orders[n - 1].key.group, orders[n - 1].key.slot);
    }
  }

  lemma {:induction false} SumAmountsAppend(a: seq<Allocation>, x: Allocation)
    ensures SumAmounts(a + [x]) == SumAmounts(a) + x.amount
  {
    if a == [] {
      assert a + [x] == [x];
    } else {
      SumAmountsAppend(a[1..], x);
      assert (a + [x])[1..] == a[1..] + [x];
    }
  }

  lemma {:induction false} SlotsAddUp(orders: seq<Order>, groups: seq<Group>, g: nat, k: nat)
    requires Linked(orders, groups) && g < |groups| && MembersOk(g, groups[g], orders)
    requires k <= |groups[g].allocations|
    ensures SlotSum(orders, g, k) == SumAmounts(groups[g].allocations[..k])
  {
    var all := groups[g].allocations;
    if k == 0 {
      NoSlots(orders, g);
    } else {
      SlotsAddUp(orders, groups, g, k - 1);
      OneMoreSlot(orders, g, k - 1, all[k - 1].order, |orders|);
      assert orders[..|orders|] == orders;
      SumAmountsAppend(all[..k - 1], all[k - 1]);
      assert all[..k] == all[..k - 1] + [all[k - 1]];
    }
  }

  lemma {:induction false} NoSlots(orders: seq<Order>, g: nat)
    ensures SlotSum(orders, g, 0) == 0
  {
    if orders != [] {
      NoSlots(orders[..|orders| - 1], g);
    }
  }

  lemma {:induction false} AllSlots(orders: seq<Order>, g: nat, k: nat)
    requires forall i :: 0 <= i < |orders| && orders[i].key.group == g ==> orders[i].key.slot < k
    ensures SlotSum(orders, g, k) == GroupSum(orders, g)
  {
    if orders != [] {
      AllSlots(orders[..|orders| - 1], g, k);
    }
  }

  /** The totals of a group's orders, wherever they stand in the table, add up to the group's. */
  lemma GroupAddsUp(db: Db, g: nat)
    requires Inv(db) && g < |db.groups|
    ensures GroupSum(db.orders, g) == db.groups[g].total
  {
    var all := db.groups[g].allocations;
    assert GroupOk(g, db.groups[g], db.orders, db.payments);
    SlotsAddUp(db.orders, db.groups, g, |all|);
    assert all[..|all|] == all;
    AllSlots(db.orders, g, |all|);
  }

  lemma GroupPays(db: Db, p: nat, g: nat)
    requires Inv(db) && g < |db.groups| && db.groups[g].payment == Some(p)
    ensures p < |db.payments| && GroupSum(db.orders, g) == db.payments[p].amount
  {
    GroupAddsUp(db, g);
    assert GroupOk(g, db.groups[g], db.orders, db.payments);
  }

  lemma RefundedGroupOf(db: Db, o: nat)
    requires Inv(db) && o < |db.orders| && db.orders[o].refund.Some?
    ensures var g := db.orders[o].key.group;
            && g < |db.groups| && db.groups[g].payment == Some(db.orders[o].refund.value.payment)
            && db.orders[o].refund.value.amount == db.orders[o].bill.total
  {
    var k := db.orders[o].key;
    var row := db.groups[k.group];
    assert row.allocations[k.slot].order == o;
    assert GroupOk(k.group, row, db.orders, db.payments);
    assert OrderOk(db.orders[o]);
  }

  lemma RefundsWithinGroup(db: Db, p: nat, g: nat)
    requires Inv(db) && g < |db.groups| && db.groups[g].payment == Some(p)
    ensures DrawnByGroup(db.orders, p, g)
    ensures RefundedSum(db.orders, p) <= RefundSum(db.orders, p) <= GroupSum(db.orders, g)
  {
    forall i | 0 <= i < |db.orders| && db.orders[i].refund.Some? && db.orders[i].refund.value.payment == p
      ensures db.orders[i].key.group == g && db.orders[i].refund.value.amount == db.orders[i].bill.total
    {
      RefundedGroupOf(db, i);
    }
    DrawnSums(db.orders, p, g);
  }
}
