/** When each remaining transaction is accepted, and what it then does, row by row. */
module Decisions {
  import opened Outcome
  import opened Ledger
  import opened OrderLife
  import opened Shop
  import opened Invariant
  import opened Paying
  import opened Fulfilment
  import opened Cancelling
  import G = Guarantees
  import R = Progress

  // ----- cancelling a paid order -----

  /** Wallet money is back at once, Klump's is for staff to return, Paystack's is asked for. */
  predicate RefundAsPaid(refund: Refund, via: Method, provider: Provider) {
    if via == Wallet then refund.provider == Manual && refund.status == Succeeded
    else if provider == Klump then refund.provider == Klump && refund.status == ManualReview
    else refund.provider == Paystack && refund.status == Requested
  }

  /** The refund row, and what it does to the payment's status. */
  ghost predicate RefundedAsPaid(db: Db, n: Db, o: nat) {
    && o < |db.orders| && o < |n.orders| && n.orders[o].refund.Some?
    && db.orders[o].key.group < |db.groups| && db.groups[db.orders[o].key.group].payment.Some?
    && var g, refund := db.orders[o].key.group, n.orders[o].refund.value;
       var p := db.groups[g].payment.value;
       && p < |db.payments| && |n.payments| == |db.payments|
       && refund.payment == p && refund.amount == db.orders[o].bill.total
       && RefundAsPaid(refund, db.groups[g].via, db.payments[p].provider)
       && (if db.groups[g].via == Wallet
           then n.payments == SetPayment(db, p, if G.WhollyRefunded(n.orders, g, p) then Refunded else PartiallyRefunded).payments
           else n.payments == db.payments)
  }

  lemma RefundRowDecided(g: Group, p: nat, provider: Provider, amount: nat)
    ensures var r := RefundRow(g, p, provider, amount);
            r.payment == p && r.amount == amount && RefundAsPaid(r, g.via, provider)
  {
  }

  /** The state of a cancellation before the payment's status is looked at. */
  lemma CancelBuilds(db: Db, user: nat, o: nat) returns (next: Db, refund: Refund)
    requires Inv(db) && CancelOrder(db, user, o).Ok?
    ensures o < |db.orders| && db.orders[o].key.group < |db.groups|
    ensures db.groups[db.orders[o].key.group].payment == Some(refund.payment) && refund.payment < |db.payments|
    ensures RefundAsPaid(refund, db.groups[db.orders[o].key.group].via, db.payments[refund.payment].provider)
    ensures refund.amount == db.orders[o].bill.total
    ensures CancelOrder(db, user, o) == if refund.status == Succeeded then SyncRefund(next, refund.payment) else Ok(next)
    ensures Inv(next) && next.groups == db.groups && next.payments == db.payments
    ensures next.orders == db.orders[o := CallOff(db.orders[o]).(refund := Some(refund))]
  {
    assert o < |db.orders| && db.orders[o].status in {Confirmed, Preparing};
    hide Inv, CancelOrder, ReturnLines, CreditBack, ReverseSettlement, RefundRow, SyncRefund, CallOff, Sane, CancelledState;
    PaidOrderFacts(db, o);
    var x := db.orders[o];
    var group := db.groups[x.key.group];
    var p := group.payment.value;
    refund := RefundRow(group, p, db.payments[p].provider, x.bill.total);
    RefundRowDecided(group, p, db.payments[p].provider, x.bill.total);
    RefundRowFacts(group, p, db.payments[p].provider, x.bill.total);
    CancelUnfolds(db, user, o, p, refund);
    var a := ReturnLines(db.products, x.bill.lines).value;
    var b := CreditBack(db.purse, group, user, o, x.bill.total).value;
    var c := ReverseSettlement(db.stores, o, x.bill.store).value;
    next := CancelledState(db, o, refund, a, b, c);
    StateIsCalledOff(db, next, o, refund);
    CalledOffIsSane(db, next, o, refund);
    SaneIsConsistent(db, next);
    StateRows(db, next, o, refund, a, b, c);
  }

  /** The row of the cancelled order: off, its delivery closed, its refund written as it was paid. */
  lemma CancelRefunds(db: Db, user: nat, o: nat)
    requires Inv(db) && CancelOrder(db, user, o).Ok?
    ensures RefundedAsPaid(db, CancelOrder(db, user, o).value, o)
    ensures var n := CancelOrder(db, user, o).value;
            o < |n.orders| && n.orders == db.orders[o := CallOff(db.orders[o]).(refund := n.orders[o].refund)]
  {
    hide Inv, CancelOrder, SyncRefund, CallOff, G.WhollyRefunded;
    var next, refund := CancelBuilds(db, user, o);
    var g := db.orders[o].key.group;
    if refund.status == Succeeded {
      GroupOfCancelled(db, g, refund);
      G.SyncDecides(next, g, refund.payment);
      SyncWritesPayment(next, refund.payment);
    }
  }

  lemma GroupOfCancelled(db: Db, g: nat, refund: Refund)
    requires g < |db.groups| && refund.payment < |db.payments| && refund.status == Succeeded
    requires RefundAsPaid(refund, db.groups[g].via, db.payments[refund.payment].provider)
    ensures db.groups[g].via == Wallet
  {
  }

  lemma SaneIsConsistent(db: Db, n: Db)
    requires Sane(db, n)
    ensures Inv(n)
  {
  }

  lemma StateRows(
    db: Db, n: Db, o: nat, refund: Refund, products: map<nat, Product>, purse: Book<PurseRef>, stores: Book<StoreRef>)
    requires o < |db.orders| && n == CancelledState(db, o, refund, products, purse, stores)
    ensures n.groups == db.groups && n.payments == db.payments
    ensures n.orders == db.orders[o := CallOff(db.orders[o]).(refund := Some(refund))]
  {
    hide CallOff;
  }

  lemma SyncWritesPayment(db: Db, p: nat)
    requires SyncRefund(db, p).Ok?
    ensures var n := SyncRefund(db, p).value;
            p < |db.payments| && |n.payments| == |db.payments| && n.orders == db.orders
            && n.payments == SetPayment(db, p, n.payments[p].status).payments
  {
    hide RefundedSum;
  }

  /** Any later refund status is written as given; payment, amount and provider stay. */
  lemma RefundStatusDecided(db: Db, o: nat, status: RefundStatus)
    ensures SetRefundStatus(db, o, status).Ok? <==> o < |db.orders| && db.orders[o].refund.Some?
    ensures SetRefundStatus(db, o, status).Ok? ==>
      var refund := db.orders[o].refund.value;
      SetRefundStatus(db, o, status).value
      == SetOrder(db, o, db.orders[o].(refund := Some(Refund(refund.payment, refund.amount, refund.provider, status))))
  {
  }

  // ----- fulfilment -----

  /** The order goes on to a status, its history says so, and nothing else of it changes. */
  function GoneOn(x: Order, to: Status): Order {
    Order(x.key, x.bill, to, x.history + [Row(Some(x.status), to)], x.delivery, x.earning, x.refund)
  }

  /** A store takes a confirmed order into preparation, and a prepared one to its shelf. */
  lemma StoreMoveDecided(db: Db, o: nat, to: Status)
    ensures StoreSetStatus(db, o, to).Ok? <==>
      o < |db.orders| && (db.orders[o].status, to) in {(Confirmed, Preparing), (Preparing, ReadyForPickup)}
    ensures StoreSetStatus(db, o, to).Ok? ==> StoreSetStatus(db, o, to).value == SetOrder(db, o, GoneOn(db.orders[o], to))
  {
  }

  /** The moves staff may make. */
  const STAFF_MOVES: set<(Status, Status)> :=
    {(Confirmed, Preparing), (Preparing, ReadyForPickup), (Preparing, RiderAssigned), (ReadyForPickup, PickedUp),
     (ReadyForPickup, RiderAssigned), (RiderAssigned, PickedUp), (RiderAssigned, OutForDelivery),
     (OutForDelivery, PickedUp), (OutForDelivery, Delivered), (PickedUp, OutForDelivery), (PickedUp, Delivered),
     (PickedUp, Completed), (Delivered, Completed)}

  lemma StaffMovesAre(from: Status, to: Status)
    ensures to in ADMIN_MANAGED && CanTransition(from, to) <==> (from, to) in STAFF_MOVES
  {
  }

  lemma StaffMoveDecided(db: Db, o: nat, to: Status)
    ensures AdminSetStatus(db, o, to).Ok? <==> o < |db.orders| && (db.orders[o].status, to) in STAFF_MOVES
    ensures AdminSetStatus(db, o, to).Ok? ==>
      var n := AdminSetStatus(db, o, to).value;
      && n == SetOrder(db, o, GoneOn(db.orders[o], to)).(points := n.points)
      && (to != Completed ==> n.points == db.points)
      && (to == Completed ==> PointsEarnedFor(db.points, n.points, db.orders[o].bill.user, db.orders[o].bill.total))
  {
    if o < |db.orders| {
      StaffMovesAre(db.orders[o].status, to);
      CompletionEarns(db.points, db.orders[o].bill.user, db.orders[o].bill.total);
    }
    hide CanTransition, PointsEarnedFor, Points, PointsFor;
  }

  /** One point for every full thousand naira, for this customer and nobody else. */
  ghost predicate PointsEarnedFor(before: map<nat, int>, after: map<nat, int>, user: nat, total: nat) {
    && (exists k: nat :: Points(after, user) == Points(before, user) + k && Thousands(k, total))
    && (forall other: nat :: other != user ==> Points(after, other) == Points(before, other))
  }

  /** `k` is the number of full thousand naira, that is of 100 000 kobo. */
  predicate Thousands(k: nat, total: nat) {
    100000 * k <= total < 100000 * (k + 1)
  }

  lemma CompletionEarns(points: map<nat, int>, user: nat, total: nat)
    ensures PointsEarnedFor(points, points[user := Points(points, user) + PointsFor(total)], user, total)
  {
    assert Thousands(PointsFor(total), total);
  }

  /** Packing takes every item scanned, of an order confirmed or in preparation. */
  lemma PackingDecided(db: Db, o: nat, scanned: bool)
    ensures CompletePacking(db, o, scanned).Ok? <==>
      o < |db.orders| && scanned && (db.orders[o].status == Confirmed || db.orders[o].status == Preparing)
    ensures CompletePacking(db, o, scanned).Ok? ==>
      CompletePacking(db, o, scanned).value == SetOrder(db, o, GoneOn(db.orders[o], ReadyForPickup))
  {
  }

  /** A claim takes an unassigned delivery of an order that is ready. */
  lemma ClaimDecided(db: Db, rider: nat, o: nat)
    requires Inv(db)
    ensures ClaimDelivery(db, rider, o).Ok? <==>
      && o < |db.orders| && db.orders[o].delivery.Some? && db.orders[o].delivery.value.rider.None?
      && db.orders[o].delivery.value.status in {Unassigned, Offered} && db.orders[o].status == ReadyForPickup
  {
    if o < |db.orders| && db.orders[o].delivery.Some? && db.orders[o].status == ReadyForPickup {
      assert PursedOk(o, db.orders[o], ByWallet(db.orders[o], db.groups), db.purse.entries) && OrderOk(db.orders[o]);
    }
    hide Inv, Find, OrderOk, Walk, BillOk;
  }

  /** The reports a rider may make of a parcel in a state. */
  const REPORTS: set<(DeliveryStatus, DeliveryStatus)> :=
    {(Unassigned, Offered), (Unassigned, Assigned), (Unassigned, DeliveryCancelled), (Offered, Assigned),
     (Offered, DeliveryCancelled), (Assigned, DeliveryCancelled), (Collected, InTransit), (Collected, OnTheWay),
     (Collected, Arrived), (Collected, DeliveryFailed), (InTransit, OnTheWay), (InTransit, Arrived),
     (InTransit, DeliveryFailed), (OnTheWay, Arrived), (OnTheWay, DeliveryFailed), (Arrived, DeliveryFailed)}

  lemma ReportsAre(from: DeliveryStatus, to: DeliveryStatus)
    ensures to in DeliveryMoves(from) && to != Collected && to != HandedOver <==> (from, to) in REPORTS
  {
  }

  predicate UnderWayReport(to: DeliveryStatus) {
    to == InTransit || to == OnTheWay || to == Arrived
  }

  /** Only the assigned rider reports; on the road means the parcel was collected, and takes the order along. */
  lemma ReportDecided(db: Db, rider: nat, o: nat, to: DeliveryStatus)
    ensures RiderUpdate(db, rider, o, to).Ok? <==>
      && o < |db.orders| && db.orders[o].delivery.Some? && db.orders[o].delivery.value.rider == Some(rider)
      && (db.orders[o].delivery.value.status, to) in REPORTS
      && (UnderWayReport(to) ==> db.orders[o].status in {OutForDelivery, PickedUp, RiderAssigned})
    ensures RiderUpdate(db, rider, o, to).Ok? ==>
      var x := db.orders[o];
      var y := x.(delivery := Some(Delivery(Some(rider), to)));
      && RiderUpdate(db, rider, o, to).value
         == SetOrder(db, o, if UnderWayReport(to) && x.status != OutForDelivery then GoneOn(y, OutForDelivery) else y)
      && (UnderWayReport(to) ==> x.delivery.value.status in {Collected, InTransit, OnTheWay})
  {
    if o < |db.orders| && db.orders[o].delivery.Some? {
      ReportsAre(db.orders[o].delivery.value.status, to);
      OutFrom(db.orders[o].status);
    }
    hide CanTransition, DeliveryMoves;
  }

  lemma OutFrom(from: Status)
    ensures CanTransition(from, OutForDelivery) <==> from == PickedUp || from == RiderAssigned
  {
  }

  /** A pickup takes the assigned rider, the store's code and every item scanned. */
  lemma PickupDecided(db: Db, rider: nat, o: nat, credential: bool, scanned: bool)
    ensures ConfirmPickup(db, rider, o, credential, scanned).Ok? <==>
      && o < |db.orders| && db.orders[o].delivery.Some? && db.orders[o].delivery.value.rider == Some(rider)
      && credential && scanned && (db.orders[o].status == ReadyForPickup || db.orders[o].status == RiderAssigned)
    ensures ConfirmPickup(db, rider, o, credential, scanned).Ok? ==>
      ConfirmPickup(db, rider, o, credential, scanned).value
      == SetOrder(db, o, GoneOn(db.orders[o], PickedUp).(delivery := Some(Delivery(Some(rider), Collected))))
  {
  }

  /** A hand-over takes the assigned rider, the customer's code and an order out for delivery. */
  lemma HandOverDecided(db: Db, rider: nat, o: nat, credential: bool)
    requires Inv(db)
    ensures ConfirmDelivery(db, rider, o, credential).Ok? <==>
      && o < |db.orders| && db.orders[o].delivery.Some? && db.orders[o].delivery.value.rider == Some(rider)
      && credential && db.orders[o].status == OutForDelivery
    ensures ConfirmDelivery(db, rider, o, credential).Ok? ==>
      var n := ConfirmDelivery(db, rider, o, credential).value;
      && |n.orders| == |db.orders| && HandedOverTo(db.orders[o], n.orders[o], rider)
      && PointsEarnedFor(db.points, n.points, db.orders[o].bill.user, db.orders[o].bill.total)
  {
    hide ConfirmDelivery, Inv, PointsEarnedFor, HandedOverTo;
    if o < |db.orders| && db.orders[o].delivery.Some? && db.orders[o].delivery.value.rider == Some(rider)
       && credential && db.orders[o].status == OutForDelivery
    {
      HandOverAccepted(db, rider, o);
      HandOverEffect(db, rider, o);
    } else {
      HandOverRefused(db, rider, o, credential);
    }
  }

  /** Delivered by this rider's hand, and completed in the same breath. */
  predicate HandedOverTo(x: Order, y: Order, rider: nat) {
    && y.status == Completed && y.bill == x.bill && y.key == x.key && y.refund == x.refund
    && y.history == x.history + [Row(Some(OutForDelivery), Delivered), Row(Some(Delivered), Completed)]
    && y.delivery == Some(Delivery(Some(rider), HandedOver))
  }

  lemma HandOverEffect(db: Db, rider: nat, o: nat)
    requires Inv(db) && ConfirmDelivery(db, rider, o, true).Ok?
    requires o < |db.orders| && db.orders[o].delivery.Some? && db.orders[o].delivery.value.rider == Some(rider)
    requires db.orders[o].status == OutForDelivery
    ensures var n := ConfirmDelivery(db, rider, o, true).value;
            && |n.orders| == |db.orders| && HandedOverTo(db.orders[o], n.orders[o], rider)
            && PointsEarnedFor(db.points, n.points, db.orders[o].bill.user, db.orders[o].bill.total)
  {
    hide ConfirmDelivery, Inv, Points, PointsFor, FeePaid, PointsEarnedFor, Rewarded, DeliveredRow;
    DeliveryEffect(db, rider, o);
    var x := db.orders[o];
    RewardedRows(db, o, DeliveredRow(x), ConfirmDelivery(db, rider, o, true).value.purse);
    DeliveredRows(x);
    CompletionEarns(db.points, x.bill.user, x.bill.total);
  }

  lemma HandOverRefused(db: Db, rider: nat, o: nat, credential: bool)
    requires !(o < |db.orders| && db.orders[o].delivery.Some? && db.orders[o].delivery.value.rider == Some(rider)
               && credential && db.orders[o].status == OutForDelivery)
    ensures ConfirmDelivery(db, rider, o, credential).Err?
  {
    hide ReleaseEarning, CompleteOrder;
  }

  lemma HandOverAccepted(db: Db, rider: nat, o: nat)
    requires Inv(db) && o < |db.orders| && db.orders[o].status == OutForDelivery
    requires db.orders[o].delivery.Some? && db.orders[o].delivery.value.rider == Some(rider)
    ensures ConfirmDelivery(db, rider, o, true).Ok?
  {
    var x := db.orders[o];
    assert OrderOk(x);
    assert PursedOk(o, x, ByWallet(x, db.groups), db.purse.entries);
    if x.earning.Some? {
      OwnerHasWallet(db.purse, Entry(x.earning.value.rider, Hold, x.earning.value.amount, FeeHold(o)));
    }
    hide Inv, OrderOk, Find, Walk, CompleteOrder, BillOk;
  }

  lemma RewardedRows(db: Db, o: nat, row: Order, purse: Book<PurseRef>)
    requires o < |db.orders|
    ensures Rewarded(db, o, row, purse).orders == db.orders[o := row]
    ensures Rewarded(db, o, row, purse).points
         == db.points[row.bill.user := Points(db.points, row.bill.user) + PointsFor(row.bill.total)]
  {
  }

  lemma DeliveredRows(x: Order)
    requires x.delivery.Some? && x.status == OutForDelivery
    requires x.delivery.value.rider.Some?
    ensures HandedOverTo(x, DeliveredRow(x), x.delivery.value.rider.value)
    ensures DeliveredRow(x).bill == x.bill
  {
  }

  // ----- starting and giving up -----

  /** Paystack takes the owner's card, bank-transfer and Opay checkouts that did not fail. */
  lemma PaystackStartDecided(db: Db, user: nat, g: nat)
    ensures InitializePaystack(db, user, g).Ok? <==>
      && g < |db.groups| && db.groups[g].user == user && db.groups[g].status != Failed
      && (db.groups[g].payment.None? ==>
        db.groups[g].via == Card || db.groups[g].via == BankTransfer || db.groups[g].via == Opay)
  {
  }

  /** Klump takes the owner's Klump checkouts of whole-naira orders that did not fail. */
  lemma KlumpStartDecided(db: Db, user: nat, g: nat)
    requires Inv(db)
    ensures InitializeKlump(db, user, g).Ok? <==>
      && g < |db.groups| && db.groups[g].user == user && db.groups[g].status != Failed && db.groups[g].via == KlumpBnpl
      && (db.groups[g].payment.None? ==>
        && WholeNaira(db.groups[g].total)
        && forall a :: a in db.groups[g].allocations ==> a.order < |db.orders| && WholeNaira(db.orders[a.order].bill.total))
    ensures InitializeKlump(db, user, g).Ok? ==>
      var n := InitializeKlump(db, user, g).value;
      if db.groups[g].payment.Some? then n == db else n == AttachPayment(db, g, Klump)
  {
    if g < |db.groups| {
      assert GroupOk(g, db.groups[g], db.orders, db.payments);
      KlumpTotals(db.orders, db.groups[g].allocations);
    }
    hide Inv, WholeNaira, SumNaira, RefundsDrawn, StatusOk;
  }

  lemma {:induction false} KlumpTotals(orders: seq<Order>, all: seq<Allocation>)
    ensures (forall a :: a in all ==>
               a.order < |orders| && orders[a.order].bill.total == a.amount && WholeNaira(orders[a.order].bill.total)) ==>
      SumAmounts(all) == 100 * SumNaira(orders, all)
  {
    if all != [] {
      assert all[0] in all && forall a :: a in all[1..] ==> a in all;
      KlumpTotals(orders, all[1..]);
    }
  }

  /** The owner may give up until the group or its payment is PAID; a group already given up stays as it is. */
  lemma GiveUpDecided(db: Db, user: nat, g: nat)
    requires Inv(db)
    ensures CancelCheckout(db, user, g).Ok? <==>
      && g < |db.groups| && db.groups[g].user == user && db.groups[g].status != Paid
      && (db.groups[g].payment.Some? ==>
        db.groups[g].payment.value < |db.payments| && db.payments[db.groups[g].payment.value].status != Paid)
    ensures CancelCheckout(db, user, g).Ok? && db.groups[g].status == Failed ==> CancelCheckout(db, user, g).value == db
  {
    if g < |db.groups| && db.groups[g].user == user && !Resolved(db.groups[g]) {
      assert GroupOk(g, db.groups[g], db.orders, db.payments);
      R.CancelReleases(db, user, g);
    }
    hide FailGroup, Inv;
  }

  // ----- wallet funding -----

  lemma TopupStarted(db: Db, user: nat, amount: nat)
    ensures StartTopup(db, user, amount) == Ok(db.(topups := db.topups + [Funding(user, amount, Pending)]))
  {
  }

  /** A report counts when it names the top-up's amount; a success is refused only when it was credited before. */
  lemma TopupDecided(db: Db, t: nat, reported: int, success: bool)
    ensures VerifyTopup(db, t, reported, success).Ok? <==>
      && t < |db.topups| && reported == db.topups[t].amount
      && (success && db.topups[t].status != Paid ==> Find(db.purse.entries, TopupCredit(t)).None?)
    ensures VerifyTopup(db, t, reported, success).Ok? ==>
      var n := VerifyTopup(db, t, reported, success).value;
      && n.topups == db.topups[t := db.topups[t].(status := if success then Paid else Failed)]
      && (if success && db.topups[t].status != Paid
          then Credited(db.purse, n.purse, db.topups[t].user, db.topups[t].amount, TopupCredit(t)) else n.purse == db.purse)
  {
    if t < |db.topups| && reported == db.topups[t].amount && success && db.topups[t].status != Paid {
      PostingMoves(db.purse, Entry(db.topups[t].user, Credit, db.topups[t].amount, TopupCredit(t)));
    }
    assert t < |db.topups| && success && db.topups[t].status == Paid ==>
      db.topups[t := db.topups[t].(status := Paid)] == db.topups;
    hide Find, Post;
  }

  /** One wallet grew by the amount, and the ledger has one entry more, which says so. */
  ghost predicate Credited(before: Book<PurseRef>, after: Book<PurseRef>, user: nat, amount: nat, ref: PurseRef) {
    && after.entries == before.entries + [Entry(user, Credit, amount, ref)]
    && Balance(after, user) == Balance(before, user) + amount
    && (forall other: nat :: other != user ==> Balance(after, other) == Balance(before, other))
  }

  ghost predicate Debited<Ref(!new)>(before: Book<Ref>, after: Book<Ref>, user: nat, amount: nat, ref: Ref) {
    && after.entries == before.entries + [Entry(user, Debit, amount, ref)]
    && Balance(after, user) == Balance(before, user) - amount
    && (forall other: nat :: other != user ==> Balance(after, other) == Balance(before, other))
  }

  lemma PostingMoves<Ref(!new)>(b: Book<Ref>, e: Entry<Ref>)
    ensures Post(b, e).Ok? <==> Find(b.entries, e.ref).None?
    ensures Post(b, e).Ok? ==>
      var c := Post(b, e).value;
      && c.entries == b.entries + [e] && Balance(c, e.owner) == Balance(b, e.owner) + Signed(e)
      && forall other: nat :: other != e.owner ==> Balance(c, other) == Balance(b, other)
  {
    hide Find;
  }

  /** A redelivery counts when it names the transfer's amount, moves no money, and only ever writes the row's status. */
  lemma RedeliveryDecided(db: Db, r: nat, reported: int, success: bool)
    ensures RedeliverTransfer(db, r, reported, success).Ok? <==>
      r in db.transfers && (db.transfers[r].status == Paid || reported == db.transfers[r].amount)
    ensures RedeliverTransfer(db, r, reported, success).Ok? ==>
      var status := if db.transfers[r].status == Paid || success then Paid else Failed;
      RedeliverTransfer(db, r, reported, success).value
      == db.(transfers := db.transfers[r := Funding(db.transfers[r].user, db.transfers[r].amount, status)])
  {
    if r in db.transfers {
      assert db.transfers[r := db.transfers[r]] == db.transfers;
    }
  }

  lemma ArrivalDecided(db: Db, r: nat, user: nat, amount: nat)
    ensures ArriveTransfer(db, r, user, amount).Ok? <==> amount > 0 && r !in db.transfers
    ensures ArriveTransfer(db, r, user, amount).Ok? ==>
      ArriveTransfer(db, r, user, amount).value == db.(receipts := db.receipts + [Receipt(r, user, amount, false)])
  {
  }

  /** The handler's row is written once; the handler knows it was. */
  lemma RecordDecided(db: Db, i: nat)
    ensures RecordTransfer(db, i).Ok? <==> i < |db.receipts|
    ensures RecordTransfer(db, i).Ok? ==>
      var c, n := db.receipts[i], RecordTransfer(db, i).value;
      && n == db.(receipts := db.receipts[i := Receipt(c.reference, c.user, c.amount, true)], transfers := n.transfers)
      && n.transfers
         == (if c.reference in db.transfers then db.transfers else db.transfers[c.reference := Funding(c.user, c.amount, Pending)])
  {
  }

  // ----- charges, credits and withdrawals -----

  lemma ChargeDecided(db: Db, user: nat, amount: nat, id: nat)
    ensures ChargeWallet(db, user, amount, id).Ok? <==>
      && user in db.purse.balances && db.purse.balances[user] >= amount && Find(db.purse.entries, Unique(id)).None?
    ensures ChargeWallet(db, user, amount, id).Ok? ==>
      var n := ChargeWallet(db, user, amount, id).value;
      n == db.(purse := n.purse) && Debited(db.purse, n.purse, user, amount, Unique(id))
  {
    PostingMoves(db.purse, Entry(user, Debit, amount, Unique(id)));
    hide Find, Post;
  }

  lemma CreditDecided(db: Db, user: nat, amount: nat, id: nat)
    ensures CreditWallet(db, user, amount, id).Ok? <==> Find(db.purse.entries, Unique(id)).None?
    ensures CreditWallet(db, user, amount, id).Ok? ==>
      var n := CreditWallet(db, user, amount, id).value;
      n == db.(purse := n.purse) && Credited(db.purse, n.purse, user, amount, Unique(id))
  {
    PostingMoves(db.purse, Entry(user, Credit, amount, Unique(id)));
    hide Find, Post;
  }

  /** The balance is looked at before the transaction, so it can go below zero: exactly when it does not cover the amount. */
  lemma RiderWithdrawalDecided(db: Db, user: nat, amount: nat, id: nat)
    ensures RiderWithdraw(db, user, amount, id).Ok? <==>
      user in db.purse.balances && Find(db.purse.entries, Unique(id)).None?
    ensures RiderWithdraw(db, user, amount, id).Ok? ==>
      var n := RiderWithdraw(db, user, amount, id).value;
      && n == db.(purse := n.purse) && Debited(db.purse, n.purse, user, amount, Unique(id))
      && (Balance(n.purse, user) < 0 <==> amount > Balance(db.purse, user))
  {
    PostingMoves(db.purse, Entry(user, Debit, amount, Unique(id)));
    hide Find, Post;
  }

  lemma StoreWithdrawalDecided(db: Db, store: nat, amount: nat, id: nat)
    ensures StoreWithdraw(db, store, amount, id).Ok? <==>
      store in db.stores.balances && Find(db.stores.entries, StoreWithdrawal(id)).None?
    ensures StoreWithdraw(db, store, amount, id).Ok? ==>
      var n := StoreWithdraw(db, store, amount, id).value;
      && n == db.(stores := n.stores) && Debited(db.stores, n.stores, store, amount, StoreWithdrawal(id))
      && (Balance(n.stores, store) < 0 <==> amount > Balance(db.stores, store))
  {
    PostingMoves(db.stores, Entry(store, Debit, amount, StoreWithdrawal(id)));
    hide Find, Post;
  }

  /** A voucher is had by those who have it, and by those whose points cover it. */
  lemma VoucherDecided(db: Db, user: nat, voucher: nat, cost: nat)
    ensures ClaimVoucher(db, user, voucher, cost).Ok? <==>
      R.HasVoucher(db, user, voucher) || Points(db.points, user) >= cost
    ensures ClaimVoucher(db, user, voucher, cost).Ok? && !R.HasVoucher(db, user, voucher) ==>
      ClaimVoucher(db, user, voucher, cost).value.claims == db.claims + [Claim(user, voucher, cost)]
  {
  }
}
