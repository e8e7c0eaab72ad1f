/** What every reachable state of the shop promises to customers, stores and riders. */
module Guarantees {
  import opened Outcome
  import opened Ledger
  import opened OrderLife
  import opened Shop
  import opened Invariant
  import opened Runs
  import opened Refunds
  import P = Paying

  ghost predicate Reachable(db: Db) {
    exists start, steps :: Blank(start) && db == Run(start, steps)
  }

  lemma ReachableIsOk(db: Db)
    requires Reachable(db)
    ensures Inv(db)
  {
    var start, steps :| Blank(start) && db == Run(start, steps);
    EveryRunIsConsistent(start, steps);
  }

  // ----- payment groups -----

  ghost predicate EveryOrder(row: Group, orders: seq<Order>, s: Status) {
    forall k :: 0 <= k < |row.allocations| ==>
      row.allocations[k].order < |orders| && orders[row.allocations[k].order].status == s
  }

  ghost predicate NoOrder(row: Group, orders: seq<Order>, s: Status) {
    forall k :: 0 <= k < |row.allocations| ==>
      row.allocations[k].order < |orders| && orders[row.allocations[k].order].status != s
  }

  /** There is nothing to deliver, or it is called off. */
  predicate Closed(d: Option<Delivery>) {
    d.Some? ==> d.value.status == DeliveryCancelled
  }

  /**
   Payment, group and orders always tell one story: unresolved exactly while every order is
   ORDER_RECEIVED; PAID with no order left there and the money in; FAILED with all cancelled.
   */
  lemma GroupsTellOneStory(db: Db, g: nat)
    requires Reachable(db) && g < |db.groups|
    ensures var row := db.groups[g];
            && (!Resolved(row) <==> EveryOrder(row, db.orders, OrderReceived))
            && (!Resolved(row) <==> row.activeCart == Some(row.cart))
            && (Resolved(row) <==> row.activeCart.None?)
            && (row.status == Failed ==> EveryOrder(row, db.orders, Cancelled))
            && (forall k :: 0 <= k < |row.allocations| ==> row.allocations[k].order < |db.orders|)
            && (forall k :: 0 <= k < |row.allocations| && db.orders[row.allocations[k].order].status == Cancelled ==>
              Closed(db.orders[row.allocations[k].order].delivery))
            && (row.status == Paid ==>
              && NoOrder(row, db.orders, OrderReceived)
              && row.payment.Some? && row.payment.value < |db.payments|
              && db.payments[row.payment.value].status in {Paid, Refunded, PartiallyRefunded})
  {
    ReachableIsOk(db);
    var row := db.groups[g];
    hide Reachable;
    assert GroupOk(g, row, db.orders, db.payments);
    forall k | 0 <= k < |row.allocations| && db.orders[row.allocations[k].order].status == Cancelled
      ensures Closed(db.orders[row.allocations[k].order].delivery)
    {
      assert OrderOk(db.orders[row.allocations[k].order]);
    }
    hide Inv;
    assert row.allocations[0].order < |db.orders|;
  }

  /** The amounts agree: lines, orders, allocations, group and payment. */
  lemma AmountsAgree(db: Db, g: nat)
    requires Reachable(db) && g < |db.groups|
    ensures var row := db.groups[g];
            && row.total == SumAmounts(row.allocations) == GroupSum(db.orders, g)
            && (row.payment.Some? ==>
              row.payment.value < |db.payments| && db.payments[row.payment.value].amount == row.total)
            && forall k :: 0 <= k < |row.allocations| ==>
              && row.allocations[k].order < |db.orders|
              && db.orders[row.allocations[k].order].bill.total == row.allocations[k].amount
              && BillOk(db.orders[row.allocations[k].order].bill)
  {
    ReachableIsOk(db);
    hide Reachable;
    assert GroupOk(g, db.groups[g], db.orders, db.payments);
    GroupAddsUp(db, g);
    forall k | 0 <= k < |db.groups[g].allocations|
      ensures BillOk(db.orders[db.groups[g].allocations[k].order].bill)
    {
      assert OrderOk(db.orders[db.groups[g].allocations[k].order]);
    }
  }

  /** PAID and FAILED are final, COMPLETED and CANCELLED are final, histories and ledgers only grow. */
  lemma OutcomesAreFinal(db: Db, steps: seq<Step>)
    requires Reachable(db)
    ensures var n := Run(db, steps);
            && |db.groups| <= |n.groups| && |db.orders| <= |n.orders|
            && (forall g :: 0 <= g < |db.groups| && Resolved(db.groups[g]) ==> n.groups[g].status == db.groups[g].status)
            && (forall o :: 0 <= o < |db.orders| ==>
              && db.orders[o].history <= n.orders[o].history
              && (Terminal(db.orders[o].status) ==> n.orders[o].status == db.orders[o].status))
            && db.stores.entries <= n.stores.entries && db.purse.entries <= n.purse.entries
  {
    ReachableIsOk(db);
    hide Reachable, Inv, Run;
    RunKeeps(db, steps);
    var n := Run(db, steps);
    forall g | 0 <= g < |db.groups| ensures GroupEvolves(db.groups[g], n.groups[g]) {
    }
    forall o | 0 <= o < |db.orders| ensures OrderEvolves(db.orders[o], n.orders[o]) {
    }
  }

  // ----- refunds -----

  /** Refunds drawn on a payment, whatever their status, never sum to more than it. */
  lemma RefundsNeverExceedPayment(db: Db, p: nat)
    requires Reachable(db) && p < |db.payments|
    ensures RefundSum(db.orders, p) <= db.payments[p].amount
  {
    ReachableIsOk(db);
    hide Reachable;
    var g := P.PayerOf(db, p);
    RefundsWithinGroup(db, p, g);
    GroupPays(db, p, g);
  }

  /** No order of value of the group is without a successful refund on the payment. */
  ghost predicate WhollyRefunded(orders: seq<Order>, g: nat, p: nat) {
    forall i :: 0 <= i < |orders| && orders[i].key.group == g ==> orders[i].bill.total == 0 || RefundDone(orders[i], p)
  }

  lemma SyncDecides(db: Db, g: nat, p: nat)
    requires Inv(db) && g < |db.groups| && db.groups[g].payment == Some(p)
    ensures p < |db.payments| && SyncRefund(db, p).Ok? && |SyncRefund(db, p).value.payments| == |db.payments|
    ensures SyncRefund(db, p).value.payments[p].status
         == if WhollyRefunded(db.orders, g, p) then Refunded else PartiallyRefunded
  {
    hide Inv, DrawnByGroup, RefundedSum, GroupSum, RefundSum, RefundDone;
    RefundsWithinGroup(db, p, g);
    RefundedAll(db.orders, p, g);
    GroupPays(db, p, g);
  }

  /** A synchronised payment is REFUNDED exactly when every order of positive value was refunded. */
  lemma RefundedMeansEveryOrder(db: Db, o: nat)
    requires Reachable(db) && o < |db.orders| && db.orders[o].refund.Some?
    ensures var g, p := db.orders[o].key.group, db.orders[o].refund.value.payment;
            && SyncAfterRefund(db, o).Ok? && p < |SyncAfterRefund(db, o).value.payments|
            && SyncAfterRefund(db, o).value.payments[p].status
               == if WhollyRefunded(db.orders, g, p) then Refunded else PartiallyRefunded
  {
    ReachableIsOk(db);
    hide Reachable, Inv, SyncRefund, WhollyRefunded;
    RefundedGroupOf(db, o);
    SyncDecides(db, db.orders[o].key.group, db.orders[o].refund.value.payment);
  }

  /**
   A payment that succeeded after its checkout was released: no order is revived, no store was
   ever credited, and each allocation has a refund of exactly its amount.
   */
  lemma LatePaymentIsRefunded(db: Db, g: nat)
    requires Reachable(db) && g < |db.groups| && db.groups[g].status == Failed
    requires db.groups[g].payment.Some? && db.groups[g].payment.value < |db.payments|
    requires db.payments[db.groups[g].payment.value].status != Failed
    ensures forall k :: 0 <= k < |db.groups[g].allocations| ==>
      var a := db.groups[g].allocations[k];
      && a.order < |db.orders| && db.orders[a.order].status == Cancelled
      && Find(db.stores.entries, Settled(a.order)).None?
      && db.orders[a.order].refund.Some? && db.orders[a.order].refund.value.amount == a.amount
      && db.orders[a.order].refund.value.payment == db.groups[g].payment.value
  {
    ReachableIsOk(db);
    hide Reachable;
    var row := db.groups[g];
    assert GroupOk(g, row, db.orders, db.payments);
    forall k | 0 <= k < |row.allocations|
      ensures
        var a := row.allocations[k];
        && a.order < |db.orders| && db.orders[a.order].status == Cancelled
        && Find(db.stores.entries, Settled(a.order)).None?
        && db.orders[a.order].refund.Some? && db.orders[a.order].refund.value.amount == a.amount
        && db.orders[a.order].refund.value.payment == row.payment.value
    {
      var o := row.allocations[k].order;
      assert OrderOk(db.orders[o]) && SettledOk(o, db.orders[o], db.stores.entries);
    }
  }

  /** What the cancellations of a group's orders gave back to wallets. */
  function GivenBack(entries: seq<Entry<PurseRef>>, allocations: seq<Allocation>): int {
    if allocations == [] then 0
    else Moved(entries, OrderCancel(allocations[0].order)) + GivenBack(entries, allocations[1..])
  }

  /** Cancelling every order of a wallet checkout returns exactly what the checkout took. */
  lemma WalletRefundIsExact(db: Db, g: nat)
    requires Reachable(db) && g < |db.groups| && db.groups[g].via == Wallet
    requires EveryOrder(db.groups[g], db.orders, Cancelled)
    ensures Moved(db.purse.entries, CheckoutDebit(g)) == -(db.groups[g].total as int)
    ensures GivenBack(db.purse.entries, db.groups[g].allocations) == db.groups[g].total
    ensures forall k :: 0 <= k < |db.groups[g].allocations| ==>
      var back := Find(db.purse.entries, OrderCancel(db.groups[g].allocations[k].order));
      back.Some? && back.value.owner == db.groups[g].user
  {
    ReachableIsOk(db);
    hide Reachable;
    assert GroupOk(g, db.groups[g], db.orders, db.payments);
    assert DebitedOk(g, db.groups[g], db.purse.entries);
    MovedOnce(db.purse.entries, CheckoutDebit(g));
    var all := db.groups[g].allocations;
    forall k | 0 <= k < |all|
      ensures Find(db.purse.entries, OrderCancel(all[k].order))
           == Some(Entry(db.groups[g].user, Credit, all[k].amount, OrderCancel(all[k].order)))
    {
      var o := all[k].order;
      assert PursedOk(o, db.orders[o], ByWallet(db.orders[o], db.groups), db.purse.entries);
    }
    GivenBackInFull(db.purse.entries, db.groups[g].user, all);
  }

  lemma {:induction false} GivenBackInFull(entries: seq<Entry<PurseRef>>, user: nat, all: seq<Allocation>)
    requires forall i, j :: 0 <= i < j < |entries| ==> entries[i].ref != entries[j].ref
    requires forall k :: 0 <= k < |all| ==>
      Find(entries, OrderCancel(all[k].order)) == Some(Entry(user, Credit, all[k].amount, OrderCancel(all[k].order)))
    ensures GivenBack(entries, all) == SumAmounts(all)
  {
    if all != [] {
      MovedOnce(entries, OrderCancel(all[0].order));
      GivenBackInFull(entries, user, all[1..]);
    }
  }

  // ----- stores -----

  /** What an order did to its store's balance so far. */
  function StoreEffect(entries: seq<Entry<StoreRef>>, o: nat): int {
    Moved(entries, Settled(o)) + Moved(entries, Reversed(o))
  }

  /**
   An order credits its store once, when it is confirmed, and never otherwise; a cancellation
   takes back exactly that, so its net effect is nothing.
   */
  lemma StoreIsPaidOnce(db: Db, o: nat)
    requires Reachable(db) && o < |db.orders|
    ensures var row, credit := db.orders[o], Find(db.stores.entries, Settled(o));
            && (credit.Some? <==> WasConfirmed(row.history))
            && (credit.Some? ==> credit.value.owner == row.bill.store && credit.value.kind == Credit)
            && StoreEffect(db.stores.entries, o)
               == (if credit.Some? && row.status != Cancelled then credit.value.amount else 0)
    ensures Balance(db.stores, db.orders[o].bill.store) == Total(db.stores.entries, db.orders[o].bill.store)
  {
    ReachableIsOk(db);
    hide Reachable;
    var row := db.orders[o];
    assert OrderOk(row) && SettledOk(o, row, db.stores.entries);
    MovedOnce(db.stores.entries, Settled(o));
    MovedOnce(db.stores.entries, Reversed(o));
    ConfirmedHistory(db, o);
  }

  /** Walk and ledger agree on whether an order was ever confirmed. */
  lemma ConfirmedHistory(db: Db, o: nat)
    requires Inv(db) && o < |db.orders|
    ensures Find(db.stores.entries, Settled(o)).Some? <==> WasConfirmed(db.orders[o].history)
  {
    var row := db.orders[o];
    var group := db.groups[row.key.group];
    assert group.allocations[row.key.slot].order == o;
    assert GroupOk(row.key.group, group, db.orders, db.payments);
    assert OrderOk(row) && SettledOk(o, row, db.stores.entries);
    if row.status == OrderReceived {
      ReceivedIsFirst(row.history);
    } else {
      ConfirmedOrReleased(row.history, row.status);
    }
  }
}
