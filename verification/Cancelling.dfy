/** Cancelling a paid order: stock back, refund, and the settlement reversed. */
module Cancelling {
  import opened Outcome
  import opened Ledger
  import opened OrderLife
  import opened Shop
  import opened Invariant
  import opened Resolution
  import opened Placement
  import opened Paying
  import opened Fulfilment

  // ----- what the order's rows say before the cancellation -----

  /** A paid order is found through its allocation: a PAID group with a payment of its amount. */
  lemma PaidOrderFacts(db: Db, o: nat)
    requires Inv(db) && o < |db.orders| && Active(db.orders[o].status)
    ensures var k := db.orders[o].key;
            && k.group < |db.groups| && k.slot < |db.groups[k.group].allocations|
            && db.groups[k.group].allocations[k.slot] == Allocation(o, db.orders[o].bill.total)
            && db.groups[k.group].status == Paid && db.groups[k.group].payment.Some?
            && db.groups[k.group].payment.value < |db.payments|
            && db.orders[o].refund.None?
  {
    var k := db.orders[o].key;
    var row := db.groups[k.group];
    assert row.allocations[k.slot].order == o;
    assert GroupOk(k.group, row, db.orders, db.payments);
    assert OrderOk(db.orders[o]);
  }

  // ----- conjunct by conjunct -----

  lemma StoresReverse(orders: seq<Order>, stores: Book<StoreRef>, o: nat, row: Order)
    requires StoresOk(orders, stores) && o < |orders| && Active(orders[o].status)
    requires row.bill == orders[o].bill && row.status == Cancelled && orders[o].history <= row.history
    ensures var r := ReverseSettlement(stores, o, row.bill.store);
            && r.Ok? && StoresOk(orders[o := row], r.value) && stores.entries <= r.value.entries
            && Find(stores.entries, Settled(o)).Some?
            && r.value.entries == stores.entries
               + [Entry(row.bill.store, Debit, Find(stores.entries, Settled(o)).value.amount, Reversed(o))]
  {
    assert SettledOk(o, orders[o], stores.entries);
    var s := Find(stores.entries, Settled(o)).value;
    OwnerHasWallet(stores, s);
    var e := Entry(row.bill.store, Debit, s.amount, Reversed(o));
    PostKeepsSound(stores, e);
    FindAppend(stores.entries, e, Settled(o));
    FindAppend(stores.entries, e, Reversed(o));
    hide Sound, Find;
    StoresPost(orders, stores, Post(stores, e).value, o, row, e);
  }

  lemma OwnerHasWallet<Ref>(b: Book<Ref>, e: Entry<Ref>)
    requires Sound(b) && e in b.entries
    ensures e.owner in b.balances
  {
  }

  /** The wallet refund is posted exactly for wallet checkouts, and its reference is always free. */
  lemma PurseCancel(orders: seq<Order>, groups: seq<Group>, purse: Book<PurseRef>, o: nat, row: Order)
    requires PurseOk(orders, groups, purse) && o < |orders| && orders[o].status != Cancelled
    requires row.key == orders[o].key && row.bill == orders[o].bill && row.earning == orders[o].earning
    requires row.status == Cancelled && row.key.group < |groups|
    ensures var r := CreditBack(purse, groups[row.key.group], row.bill.user, o, row.bill.total);
            && r.Ok? && PurseOk(orders[o := row], groups, r.value) && purse.entries <= r.value.entries
  {
    if groups[row.key.group].via == Wallet {
      PurseCredit(orders, groups, purse, o, row);
    } else {
      PurseRelease(orders, groups, purse, o, row);
    }
  }

  lemma PurseCredit(orders: seq<Order>, groups: seq<Group>, purse: Book<PurseRef>, o: nat, row: Order)
    requires PurseOk(orders, groups, purse) && o < |orders| && orders[o].status != Cancelled
    requires row.key == orders[o].key && row.bill == orders[o].bill && row.earning == orders[o].earning
    requires row.status == Cancelled && ByWallet(row, groups)
    ensures var e := Entry(row.bill.user, Credit, row.bill.total, OrderCancel(o));
            Post(purse, e).Ok? && PurseOk(orders[o := row], groups, Post(purse, e).value)
  {
    assert PursedOk(o, orders[o], ByWallet(orders[o], groups), purse.entries);
    var e := Entry(row.bill.user, Credit, row.bill.total, OrderCancel(o));
    PostKeepsSound(purse, e);
    FindAppendAll(purse.entries, e);
    hide Sound, Find, Post;
    PursePost(orders, groups, purse, Post(purse, e).value, o, row, e);
  }

  lemma FundingAfterCredit(db: Db, g: Group, user: nat, o: nat, total: nat)
    requires FundingOk(db.topups, db.transfers, db.purse) && CreditBack(db.purse, g, user, o, total).Ok?
    ensures FundingOk(db.topups, db.transfers, CreditBack(db.purse, g, user, o, total).value)
  {
    if g.via == Wallet {
      FundingUntouched(db.topups, db.transfers, db.purse, CreditBack(db.purse, g, user, o, total).value,
                       Entry(user, Credit, total, OrderCancel(o)));
    }
  }

  /** The row of a cancelled order. */
  function CancelledRow(x: Order, refund: Refund): Order {
    CallOff(x).(refund := Some(refund))
  }

  lemma CancelledIsOk(x: Order, refund: Refund)
    requires OrderOk(x) && x.status in {Confirmed, Preparing} && refund.amount == x.bill.total
    ensures OrderOk(CancelledRow(x, refund)) && OrderEvolves(x, CancelledRow(x, refund))
    ensures CancelledRow(x, refund).earning == x.earning
  {
    WalkExtends(x.history, x.status, Cancelled);
  }

  lemma GroupsCancel(db: Db, o: nat, row: Order)
    requires Inv(db) && o < |db.orders| && Active(db.orders[o].status)
    requires row.key == db.orders[o].key && row.bill == db.orders[o].bill && row.status == Cancelled
    requires row.refund.Some? && db.groups[row.key.group].payment == Some(row.refund.value.payment)
    ensures GroupsOk(db.orders[o := row], db.groups, db.payments)
  {
    PaidOrderFacts(db, o);
    var g := row.key.group;
    var after := db.orders[o := row];
    assert GroupOk(g, db.groups[g], db.orders, db.payments);
    GroupCancel(g, db.groups[g], db.orders, db.payments, o, row);
    forall h | 0 <= h < |db.groups| ensures GroupOk(h, db.groups[h], after, db.payments) {
      if h != g {
        GroupFrame(h, db.groups[h], db.orders, after, db.payments, db.payments);
      }
    }
  }

  lemma GroupCancel(g: nat, group: Group, orders: seq<Order>, payments: seq<Payment>, o: nat, row: Order)
    requires GroupOk(g, group, orders, payments) && group.status == Paid && o < |orders|
    requires row.key == orders[o].key && row.bill == orders[o].bill && row.status == Cancelled
    requires row.refund.Some? && group.payment == Some(row.refund.value.payment)
    ensures GroupOk(g, group, orders[o := row], payments)
  {
    var after := orders[o := row];
    forall k | 0 <= k < |group.allocations|
      ensures after[group.allocations[k].order] == (if group.allocations[k].order == o then row else orders[group.allocations[k].order])
    {
    }
  }

  // ----- the whole transaction -----

  /** The state after stock, refund row, wallet refund and reversal, before the payment's status is touched. */
  ghost predicate CalledOff(db: Db, n: Db, o: nat, refund: Refund) {
    && o < |db.orders| && db.orders[o].key.group < |db.groups|
    && var x := db.orders[o];
    && n == SetOrder(db, o, CancelledRow(x, refund)).(products := n.products, purse := n.purse, stores := n.stores)
    && ReturnLines(db.products, x.bill.lines) == Ok(n.products)
    && CreditBack(db.purse, db.groups[x.key.group], x.bill.user, o, x.bill.total) == Ok(n.purse)
    && ReverseSettlement(db.stores, o, x.bill.store) == Ok(n.stores)
  }

  ghost predicate Cancellable(db: Db, o: nat, refund: Refund) {
    && o < |db.orders| && db.orders[o].status in {Confirmed, Preparing} && db.orders[o].key.group < |db.groups|
    && db.groups[db.orders[o].key.group].payment == Some(refund.payment) && refund.amount == db.orders[o].bill.total
  }

  lemma CalledOffRows(db: Db, n: Db, o: nat, refund: Refund)
    requires Inv(db) && Cancellable(db, o, refund) && CalledOff(db, n, o, refund)
    ensures Linked(n.orders, n.groups) && OrdersOk(n.orders) && GroupsOk(n.orders, n.groups, n.payments)
    ensures Stocked(n.orders, n.products) && PointsOk(n.orders, n.points, n.claims)
  {
    var x := db.orders[o];
    var row := CancelledRow(x, refund);
    hide OrderOk, Linked, OrdersOk, GroupsOk, StoresOk, PurseOk, FundingOk, PointsOk, InflightOk, Owned;
    hide OnePayer, CartsApart, CallOff, ReverseSettlement, CreditBack, ReturnLines, Stocked, OrderEvolves;
    OrderIsOk(db, o);
    CancelledIsOk(x, refund);
    CancelledIsCancelled(x, refund);
    GroupsCancel(db, o, row);
    StockedReturned(db.orders, db.products, o, row);
    LinkedReplace(db.orders, db.groups, o, row);
    OrdersReplace(db.orders, o, row);
    PointsReplace(db.orders, db.points, db.claims, o, row);
  }

  lemma CalledOffBooks(db: Db, n: Db, o: nat, refund: Refund)
    requires Inv(db) && Cancellable(db, o, refund) && CalledOff(db, n, o, refund)
    ensures StoresOk(n.orders, n.stores) && PurseOk(n.orders, n.groups, n.purse)
    ensures FundingOk(n.topups, n.transfers, n.purse)
    ensures db.stores.entries <= n.stores.entries && db.purse.entries <= n.purse.entries
  {
    var x := db.orders[o];
    var row := CancelledRow(x, refund);
    hide OrderOk, Linked, OrdersOk, GroupsOk, StoresOk, PurseOk, FundingOk, PointsOk, InflightOk, Owned;
    hide OnePayer, CartsApart, CallOff, ReverseSettlement, CreditBack, ReturnLines, Stocked, OrderEvolves;
    CancelledIsCancelled(x, refund);
    OrderIsOk(db, o);
    CancelledIsOk(x, refund);
    StoresReverse(db.orders, db.stores, o, row);
    PurseCancel(db.orders, db.groups, db.purse, o, row);
    FundingAfterCredit(db, db.groups[x.key.group], x.bill.user, o, x.bill.total);
  }

  lemma CalledOffIsSane(db: Db, n: Db, o: nat, refund: Refund)
    requires Inv(db) && Cancellable(db, o, refund) && CalledOff(db, n, o, refund)
    ensures Sane(db, n)
  {
    CalledOffRows(db, n, o, refund);
    CalledOffBooks(db, n, o, refund);
    var x := db.orders[o];
    assert LinesKnown(x.bill.lines, db.products);
    CancelUnits(db, n, o, CancelledRow(x, refund));
    hide OrderOk, Linked, OrdersOk, GroupsOk, StoresOk, PurseOk, FundingOk, PointsOk, InflightOk, Owned;
    hide OnePayer, CartsApart, CallOff, ReverseSettlement, CreditBack, ReturnLines, Stocked, Units, OrderEvolves;
    OrderIsOk(db, o);
    CancelledIsOk(x, refund);
    hide Evolves;
    OneOrderEvolves(db, n, o, CancelledRow(x, refund));
    assert Inv(n);
    hide Inv, CalledOff, Cancellable;
  }

  /** A cancellation of a paid order never fails on its books: stock, wallet and store all take it. */
  lemma CancelRows(db: Db, o: nat, refund: Refund)
    requires Inv(db) && Cancellable(db, o, refund)
    ensures var x := db.orders[o];
            && ReturnLines(db.products, x.bill.lines).Ok?
            && CreditBack(db.purse, db.groups[x.key.group], x.bill.user, o, x.bill.total).Ok?
            && ReverseSettlement(db.stores, o, x.bill.store).Ok?
  {
    var x := db.orders[o];
    var row := CancelledRow(x, refund);
    StockedReturned(db.orders, db.products, o, row);
    StoresReverse(db.orders, db.stores, o, row);
    PurseCancel(db.orders, db.groups, db.purse, o, row);
  }

  lemma CancelledIsCancelled(x: Order, refund: Refund)
    ensures var row := CancelledRow(x, refund);
            row.key == x.key && row.bill == x.bill && row.status == Cancelled && row.refund == Some(refund)
  {
  }

  lemma CancelUnits(db: Db, n: Db, o: nat, row: Order)
    requires o < |db.orders| && db.orders[o].status != Cancelled && row.status == Cancelled
    requires LinesKnown(db.orders[o].bill.lines, db.products)
    requires n.orders == db.orders[o := row] && Ok(n.products) == ReturnLines(db.products, db.orders[o].bill.lines)
    ensures forall p :: Units(n, p) == Units(db, p)
  {
    forall p ensures Units(n, p) == Units(db, p) {
      UnitsReturned(db.orders, db.products, o, row, p);
    }
  }

  // ----- the payment's status after a refund -----

  /** A payment that has a refund belongs to a group that tolerates the refunded statuses. */
  lemma SyncKeeps(db: Db, p: nat)
    requires Inv(db) && SyncRefund(db, p).Ok?
    requires exists o :: 0 <= o < |db.orders| && db.orders[o].refund.Some? && db.orders[o].refund.value.payment == p
    ensures Sane(db, SyncRefund(db, p).value)
  {
    hide Inv, Sane, RefundedSum;
    var o :| 0 <= o < |db.orders| && db.orders[o].refund.Some? && db.orders[o].refund.value.payment == p;
    RefundedGroup(db, o);
    var g := db.orders[o].key.group;
    var status := if RefundedSum(db.orders, p) >= db.payments[p].amount then Refunded else PartiallyRefunded;
    assert SyncRefund(db, p) == Ok(SetPayment(db, p, status));
    hide SyncRefund;
    RefundTolerates(db, g, status, o);
    OnlyPaymentWritten(db, p, status);
  }

  lemma RefundedGroup(db: Db, o: nat)
    requires Inv(db) && o < |db.orders| && db.orders[o].refund.Some?
    ensures var g := db.orders[o].key.group;
            && g < |db.groups| && db.groups[g].payment == Some(db.orders[o].refund.value.payment)
            && db.groups[g].status in {Paid, Failed}
            && db.groups[g].payment.value < |db.payments|
  {
    var k := db.orders[o].key;
    var row := db.groups[k.group];
    assert row.allocations[k.slot].order == o;
    assert GroupOk(k.group, row, db.orders, db.payments);
    assert OrderOk(db.orders[o]);
  }

  /** In a released group with a refund, every order has one: so its payment may take any status. */
  lemma RefundTolerates(db: Db, g: nat, status: PayStatus, o: nat)
    requires Inv(db) && g < |db.groups| && db.groups[g].payment.Some? && status in {Refunded, PartiallyRefunded}
    requires o < |db.orders| && db.orders[o].key.group == g && db.orders[o].refund.Some?
    ensures db.groups[g].payment.value < |db.payments|
    ensures Inv(SetPayment(db, db.groups[g].payment.value, status))
  {
    RefundedMember(db, g, o);
    SetPaymentKeeps(db, g, status);
    var n := SetPayment(db, db.groups[g].payment.value, status);
    assert GroupOk(g, db.groups[g], db.orders, db.payments);
    assert GroupOk(g, n.groups[g], n.orders, n.payments);
    InvFromBut(n, g);
  }

  lemma RefundedMember(db: Db, g: nat, o: nat)
    requires Inv(db) && g < |db.groups| && o < |db.orders| && db.orders[o].key.group == g && db.orders[o].refund.Some?
    ensures forall a :: a in db.groups[g].allocations ==> a.order < |db.orders|
    ensures db.groups[g].status == Paid || (db.groups[g].status == Failed && AllRefunded(db.groups[g], db.orders))
  {
    var row := db.groups[g];
    assert row.allocations[db.orders[o].key.slot].order == o;
    assert GroupOk(g, row, db.orders, db.payments);
    assert OrderOk(db.orders[o]);
  }

  // ----- the steps -----

  /** What the refund row of a cancelled order says. */
  lemma RefundRowFacts(g: Group, p: nat, provider: Provider, amount: nat)
    ensures var r := RefundRow(g, p, provider, amount); r.payment == p && r.amount == amount
  {
  }

  /** Everything a cancellation writes except the payment's status. */
  function CancelledState(
    db: Db, o: nat, refund: Refund, products: map<nat, Product>, purse: Book<PurseRef>, stores: Book<StoreRef>): Db
    requires o < |db.orders|
  {
    SetOrder(db, o, CancelledRow(db.orders[o], refund)).(products := products, purse := purse, stores := stores)
  }

  /** The transaction, step by step: the refund row is new and the reversal does not depend on the payment. */
  lemma CancelUnfolds(db: Db, user: nat, o: nat, p: nat, refund: Refund)
    requires CancelOrder(db, user, o).Ok? && db.orders[o].refund.None?
    requires var k := db.orders[o].key;
             && k.group < |db.groups| && k.slot < |db.groups[k.group].allocations|
             && db.groups[k.group].payment == Some(p) && p < |db.payments|
             && refund == RefundRow(db.groups[k.group], p, db.payments[p].provider, db.groups[k.group].allocations[k.slot].amount)
    ensures var x := db.orders[o];
            var a := ReturnLines(db.products, x.bill.lines);
            var b := CreditBack(db.purse, db.groups[x.key.group], user, o, x.bill.total);
            var c := ReverseSettlement(db.stores, o, x.bill.store);
            && user == x.bill.user && x.status in {Confirmed, Preparing} && a.Ok? && b.Ok? && c.Ok?
            && var next := CancelledState(db, o, refund, a.value, b.value, c.value);
               CancelOrder(db, user, o) == if refund.status == Succeeded then SyncRefund(next, p) else Ok(next)
  {
    hide ReturnLines, CreditBack, ReverseSettlement, RefundedSum, RefundRow, CallOff;
  }

  lemma CancelOrderKeeps(db: Db, user: nat, o: nat)
    requires Inv(db) && CancelOrder(db, user, o).Ok?
    ensures Sane(db, CancelOrder(db, user, o).value)
  {
    assert o < |db.orders| && db.orders[o].status in {Confirmed, Preparing};
    hide CancelOrder, Inv, Sane, ReturnLines, CreditBack, ReverseSettlement, RefundRow, SyncRefund, CancelledState;
    PaidOrderFacts(db, o);
    var x := db.orders[o];
    var group := db.groups[x.key.group];
    var p := group.payment.value;
    var refund := RefundRow(group, p, db.payments[p].provider, x.bill.total);
    RefundRowFacts(group, p, db.payments[p].provider, x.bill.total);
    CancelUnfolds(db, user, o, p, refund);
    var next := CancelledState(db, o, refund, ReturnLines(db.products, x.bill.lines).value,
                               CreditBack(db.purse, group, user, o, x.bill.total).value,
                               ReverseSettlement(db.stores, o, x.bill.store).value);
    StateIsCalledOff(db, next, o, refund);
    CalledOffIsSane(db, next, o, refund);
    if refund.status == Succeeded {
      SyncedCancelIsSane(db, next, CancelOrder(db, user, o).value, o, p);
    }
  }

  lemma StateIsCalledOff(db: Db, n: Db, o: nat, refund: Refund)
    requires o < |db.orders| && db.orders[o].key.group < |db.groups|
    requires var x := db.orders[o];
             var a := ReturnLines(db.products, x.bill.lines);
             var b := CreditBack(db.purse, db.groups[x.key.group], x.bill.user, o, x.bill.total);
             var c := ReverseSettlement(db.stores, o, x.bill.store);
             a.Ok? && b.Ok? && c.Ok? && n == CancelledState(db, o, refund, a.value, b.value, c.value)
    ensures CalledOff(db, n, o, refund)
    ensures o < |n.orders| && n.orders[o].refund == Some(refund)
  {
    hide ReturnLines, CreditBack, ReverseSettlement, CallOff;
  }

  lemma SyncedCancelIsSane(db: Db, next: Db, n: Db, o: nat, p: nat)
    requires Sane(db, next) && SyncRefund(next, p) == Ok(n)
    requires o < |next.orders| && next.orders[o].refund.Some? && next.orders[o].refund.value.payment == p
    ensures Sane(db, n)
  {
    assert Inv(next);
    hide Inv, SyncRefund, Sane;
    SyncKeeps(next, p);
    SaneThenSane(db, next, n);
  }

  lemma SaneThenSane(a: Db, b: Db, c: Db)
    requires Sane(a, b) && Sane(b, c)
    ensures Sane(a, c)
  {
    EvolvesTransitive(a, b, c);
    forall p ensures Units(c, p) == Units(a, p) {
      assert Units(c, p) == Units(b, p);
    }
  }

  lemma StatusWritten(x: Order, status: RefundStatus)
    requires OrderOk(x) && x.refund.Some?
    ensures var y := x.(refund := Some(x.refund.value.(status := status))); OrderOk(y) && OrderEvolves(x, y)
  {
  }

  /** Any later status of a refund: its amount and its payment never change. */
  lemma SetRefundStatusKeeps(db: Db, o: nat, status: RefundStatus)
    requires Inv(db) && SetRefundStatus(db, o, status).Ok?
    ensures Sane(db, SetRefundStatus(db, o, status).value)
  {
    var x := db.orders[o];
    var row := x.(refund := Some(x.refund.value.(status := status)));
    var n := SetOrder(db, o, row);
    OrderIsOk(db, o);
    StatusWritten(x, status);
    assert SetRefundStatus(db, o, status) == Ok(n);
    hide SetRefundStatus, OrderOk, Linked, OrdersOk, GroupsOk, StoresOk, PurseOk, FundingOk, PointsOk, InflightOk, Owned;
    hide OnePayer, CartsApart, OrderEvolves, Stocked;
    LinkedReplace(db.orders, db.groups, o, row);
    OrdersReplace(db.orders, o, row);
    GroupsReplace(db.orders, db.groups, db.payments, o, row);
    StockedReplace(db.orders, db.products, o, row);
    StoresReplace(db.orders, db.stores, o, row);
    PurseReplace(db.orders, db.groups, db.purse, o, row);
    PointsReplace(db.orders, db.points, db.claims, o, row);
    hide Evolves, Units;
    OneOrderEvolves(db, n, o, row);
    UnitsReplace(db, n, o, row);
  }

  lemma SyncAfterRefundKeeps(db: Db, o: nat)
    requires Inv(db) && SyncAfterRefund(db, o).Ok?
    ensures Sane(db, SyncAfterRefund(db, o).value)
  {
    SyncKeeps(db, db.orders[o].refund.value.payment);
  }
}
