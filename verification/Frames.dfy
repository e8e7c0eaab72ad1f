/** What no other step touches: transfers, top-ups and their credits, and who was handed a parcel by QR. */
module Frames {
  import opened Outcome
  import opened Ledger
  import opened OrderLife
  import opened Shop
  import opened Invariant
  import opened Runs
  import opened Fulfilment
  import Q = Quote
  import S = Settlement

  /** Nothing happened to any transfer. */
  ghost predicate TransfersKept(db: Db, n: Db) {
    && n.transfers == db.transfers && n.receipts == db.receipts
    && (forall r: nat :: Find(n.purse.entries, TransferCredit(r)) == Find(db.purse.entries, TransferCredit(r)))
  }

  /** Nothing happened to any top-up. */
  ghost predicate TopupsKept(db: Db, n: Db) {
    && n.topups == db.topups
    && (forall t: nat :: Find(n.purse.entries, TopupCredit(t)) == Find(db.purse.entries, TopupCredit(t)))
  }

  /** No parcel was handed over by QR. */
  ghost predicate NoneHanded(a: seq<Order>, b: seq<Order>) {
    |a| <= |b| && forall o :: 0 <= o < |a| && HandedByQr(b[o]) ==> HandedByQr(a[o])
  }

  ghost predicate Quiet(db: Db, n: Db) {
    TransfersKept(db, n) && TopupsKept(db, n) && NoneHanded(db.orders, n.orders)
  }

  lemma QuietThen(a: Db, b: Db, c: Db)
    requires Quiet(a, b) && Quiet(b, c)
    ensures Quiet(a, c)
  {
    hide Find;
    forall r: nat ensures Find(c.purse.entries, TransferCredit(r)) == Find(a.purse.entries, TransferCredit(r)) {
      assert Find(b.purse.entries, TransferCredit(r)) == Find(a.purse.entries, TransferCredit(r));
    }
    forall t: nat ensures Find(c.purse.entries, TopupCredit(t)) == Find(a.purse.entries, TopupCredit(t)) {
      assert Find(b.purse.entries, TopupCredit(t)) == Find(a.purse.entries, TopupCredit(t));
    }
  }

  /** The books agree on all funding credits. */
  ghost predicate SameCredits(a: seq<Entry<PurseRef>>, b: seq<Entry<PurseRef>>) {
    && (forall r: nat :: Find(b, TransferCredit(r)) == Find(a, TransferCredit(r)))
    && (forall t: nat :: Find(b, TopupCredit(t)) == Find(a, TopupCredit(t)))
  }

  lemma PostIsQuiet(b: Book<PurseRef>, e: Entry<PurseRef>)
    requires Post(b, e).Ok? && !e.ref.TransferCredit? && !e.ref.TopupCredit?
    ensures SameCredits(b.entries, Post(b, e).value.entries)
  {
    FindAppendAll(b.entries, e);
    hide Find;
  }

  lemma RowIsQuiet(db: Db, n: Db, o: nat, row: Order)
    requires o < |db.orders| && n.orders == db.orders[o := row]
    requires n.transfers == db.transfers && n.receipts == db.receipts && n.topups == db.topups
    requires HandedByQr(row) ==> HandedByQr(db.orders[o])
    requires SameCredits(db.purse.entries, n.purse.entries)
    ensures Quiet(db, n)
  {
    hide Find;
  }

  // ----- completing -----

  lemma HoldIsQuiet(db: Db, o: nat)
    requires o < |db.orders| && HoldEarning(db, o).Ok?
    ensures Quiet(db, HoldEarning(db, o).value)
  {
    var row := db.orders[o];
    var n := HoldEarning(db, o).value;
    if n != db {
      var rider, fee := row.delivery.value.rider.value, row.bill.shippingFee;
      PostIsQuiet(Open(db.purse, rider), Entry(rider, Hold, fee, FeeHold(o)));
      hide SameCredits, Post, Find;
      RowIsQuiet(db, n, o, row.(earning := Some(Earning(rider, fee, false))));
    }
  }

  lemma ConfirmIsQuiet(db: Db, o: nat)
    requires ConfirmOrder(db, o).Ok?
    ensures Quiet(db, ConfirmOrder(db, o).value)
  {
    if db.orders[o].status == OrderReceived {
      var mid := SetOrder(db, o, Move(db.orders[o], Confirmed));
      RowIsQuiet(db, mid, o, mid.orders[o]);
      hide Quiet, Post, S.Split, Find;
      SettleIsQuiet(mid, o);
      QuietThen(db, mid, ConfirmOrder(db, o).value);
    }
  }

  lemma SettleIsQuiet(db: Db, o: nat)
    requires o < |db.orders| && SettleOrder(db, o).Ok?
    ensures Quiet(db, SettleOrder(db, o).value)
  {
    hide HoldEarning, S.Split, Post, Find;
    if Find(db.stores.entries, Settled(o)).None? {
      var bill := db.orders[o].bill;
      var shares := S.Split(bill.subtotal, db.rates).value;
      var mid := db.(stores := Post(db.stores, Entry(bill.store, Credit, shares.store, Settled(o))).value);
      HoldIsQuiet(mid, o);
    }
  }

  lemma {:induction false} ConfirmAllIsQuiet(db: Db, all: seq<Allocation>)
    requires ConfirmAll(db, all).Ok?
    ensures Quiet(db, ConfirmAll(db, all).value)
    decreases |all|
  {
    if all != [] {
      ConfirmIsQuiet(db, all[0].order);
      var next := ConfirmOrder(db, all[0].order).value;
      ConfirmAllIsQuiet(next, all[1..]);
      hide Quiet, ConfirmOrder;
      QuietThen(db, next, ConfirmAll(db, all).value);
    }
  }

  lemma CompleteIsQuiet(db: Db, g: nat)
    requires CompleteGroup(db, g).Ok?
    ensures Quiet(db, CompleteGroup(db, g).value)
  {
    hide ConfirmAll, Find;
    if CompleteGroup(db, g).value != db {
      ConfirmAllIsQuiet(db, db.groups[g].allocations);
    }
  }

  lemma {:induction false} CompleteGroupsIsQuiet(db: Db, gs: seq<nat>)
    requires CompleteGroups(db, gs).Ok?
    ensures Quiet(db, CompleteGroups(db, gs).value)
    decreases |gs|
  {
    if gs != [] {
      CompleteIsQuiet(db, gs[0]);
      var next := CompleteGroup(db, gs[0]).value;
      CompleteGroupsIsQuiet(next, gs[1..]);
      hide Quiet, CompleteGroup;
      QuietThen(db, next, CompleteGroups(db, gs).value);
    }
  }

  // ----- releasing -----

  lemma ReleaseIsQuiet(db: Db, o: nat)
    requires ReleaseOrder(db, o).Ok?
    ensures Quiet(db, ReleaseOrder(db, o).value)
  {
    hide ReturnLines, Find;
    RowIsQuiet(db, ReleaseOrder(db, o).value, o, CallOff(db.orders[o]));
  }

  lemma {:induction false} ReleaseAllIsQuiet(db: Db, all: seq<Allocation>)
    requires ReleaseAll(db, all).Ok?
    ensures Quiet(db, ReleaseAll(db, all).value)
    decreases |all|
  {
    if all != [] {
      ReleaseIsQuiet(db, all[0].order);
      var next := ReleaseOrder(db, all[0].order).value;
      ReleaseAllIsQuiet(next, all[1..]);
      hide Quiet, ReleaseOrder;
      QuietThen(db, next, ReleaseAll(db, all).value);
    }
  }

  lemma FailIsQuiet(db: Db, g: nat)
    requires FailGroup(db, g).Ok?
    ensures Quiet(db, FailGroup(db, g).value)
  {
    hide ReleaseAll, Find;
    if FailGroup(db, g).value != db {
      ReleaseAllIsQuiet(db, db.groups[g].allocations);
    }
  }

  lemma {:induction false} FailGroupsIsQuiet(db: Db, gs: seq<nat>)
    requires FailGroups(db, gs).Ok?
    ensures Quiet(db, FailGroups(db, gs).value)
    decreases |gs|
  {
    if gs != [] {
      FailIsQuiet(db, gs[0]);
      var next := FailGroup(db, gs[0]).value;
      FailGroupsIsQuiet(next, gs[1..]);
      hide Quiet, FailGroup;
      QuietThen(db, next, FailGroups(db, gs).value);
    }
  }

  // ----- late refunds -----

  lemma {:induction false} IssueIsQuiet(db: Db, p: nat, all: seq<Allocation>)
    requires IssueRefunds(db, p, all).Ok?
    ensures Quiet(db, IssueRefunds(db, p, all).value)
    decreases |all|
  {
    if all != [] {
      var next := IssueRefund(db, p, all[0]).value;
      if next != db {
        RowIsQuiet(db, next, all[0].order, next.orders[all[0].order]);
      }
      assert Quiet(db, next);
      IssueIsQuiet(next, p, all[1..]);
      hide Quiet, IssueRefund;
      QuietThen(db, next, IssueRefunds(db, p, all).value);
    }
  }

  lemma {:induction false} RefundIsQuiet(db: Db, p: nat, gs: seq<nat>)
    requires RefundGroups(db, p, gs).Ok?
    ensures Quiet(db, RefundGroups(db, p, gs).value)
    decreases |gs|
  {
    if gs != [] {
      IssueIsQuiet(db, p, db.groups[gs[0]].allocations);
      var next := IssueRefunds(db, p, db.groups[gs[0]].allocations).value;
      RefundIsQuiet(next, p, gs[1..]);
      hide Quiet, IssueRefunds;
      QuietThen(db, next, RefundGroups(db, p, gs).value);
    }
  }

  // ----- the payment steps -----

  lemma VerifyIsQuiet(db: Db, v: Verification)
    ensures VerifyPaystack(db, v).Ok? ==> Quiet(db, VerifyPaystack(db, v).value)
    ensures VerifyKlump(db, v).Ok? ==> Quiet(db, VerifyKlump(db, v).value)
  {
    hide RefundGroups, CompleteGroups, FailGroups, GroupsOf, Find;
    if v.payment < |db.payments| {
      var paid, failed := SetPayment(db, v.payment, Paid), SetPayment(db, v.payment, Failed);
      if CompleteGroups(paid, v.groups).Ok? {
        CompleteGroupsIsQuiet(paid, v.groups);
      }
      if FailGroups(failed, v.groups).Ok? {
        FailGroupsIsQuiet(failed, v.groups);
      }
      if RefundGroups(paid, v.payment, GroupsOf(db.groups, v.payment)).Ok? {
        RefundIsQuiet(paid, v.payment, GroupsOf(db.groups, v.payment));
      }
    }
  }

  lemma FinishIsQuiet(db: Db, i: nat)
    requires FinishVerify(db, i).Ok?
    ensures Quiet(db, FinishVerify(db, i).value)
  {
    hide VerifyPaystack, VerifyKlump, Find;
    VerifyIsQuiet(db.(inflight := db.inflight[..i] + db.inflight[i + 1..]), db.inflight[i]);
  }

  lemma CancelCheckoutIsQuiet(db: Db, user: nat, g: nat)
    requires CancelCheckout(db, user, g).Ok?
    ensures Quiet(db, CancelCheckout(db, user, g).value)
  {
    hide FailGroup, Find;
    var p := db.groups[g].payment;
    if FailGroup(db, g).Ok? {
      FailIsQuiet(db, g);
    }
    if p.Some? && p.value < |db.payments| && FailGroup(SetPayment(db, p.value, Failed), g).Ok? {
      FailIsQuiet(SetPayment(db, p.value, Failed), g);
    }
  }

  lemma {:induction false} PlaceIsQuiet(db: Db, g: nat, user: nat, delivery: bool, os: seq<Q.StoreOrder>, slot: nat)
    requires PlaceOrders(db, g, user, delivery, os, slot).Ok?
    ensures Quiet(db, PlaceOrders(db, g, user, delivery, os, slot).value)
    decreases |os|
  {
    if os != [] {
      var row := NewOrder(Key(g, slot), user, os[0], delivery);
      var next := db.(products := ReserveLines(db.products, os[0].items).value, orders := db.orders + [row]);
      assert Quiet(db, next);
      PlaceIsQuiet(next, g, user, delivery, os[1..], slot + 1);
      hide Quiet, ReserveLines, NewOrder;
      QuietThen(db, next, PlaceOrders(db, g, user, delivery, os, slot).value);
    }
  }

  lemma DebitIsQuiet(db: Db, r: Request, quote: Q.Quote, g: nat)
    requires DebitWallet(db, r, quote, g).Ok?
    ensures Quiet(db, DebitWallet(db, r, quote, g).value)
  {
    if r.via == Wallet {
      PostIsQuiet(db.purse, Entry(r.user, Debit, quote.total, CheckoutDebit(g)));
    }
    hide Find, Post;
  }

  lemma PayAtOnceIsQuiet(db: Db, g: nat)
    requires g < |db.groups| && PayAtOnce(db, g).Ok?
    ensures Quiet(db, PayAtOnce(db, g).value)
  {
    hide CompleteGroup, Find;
    var paid := db.(payments := db.payments + [Payment(db.groups[g].total, Manual, Paid)]);
    CompleteIsQuiet(SetGroup(paid, g, db.groups[g].(payment := Some(|db.payments|))), g);
  }

  lemma PlaceQuotedIsQuiet(db: Db, r: Request, quote: Q.Quote)
    requires PlaceQuoted(db, r, quote).Ok?
    ensures Quiet(db, PlaceQuoted(db, r, quote).value)
  {
    PlaceIsQuiet(db, |db.groups|, r.user, r.terms.delivery, quote.orders, 0);
    var made := OpenGroup(db, r, quote).value;
    assert Quiet(db, made) by {
      hide PlaceOrders, Find;
    }
    hide Quiet, PlaceOrders, DebitWallet, PayAtOnce, GroupRow;
    if r.via in {Wallet, Financed} {
      var ready := DebitWallet(made, r, quote, |db.groups|).value;
      DebitIsQuiet(made, r, quote, |db.groups|);
      QuietThen(db, made, ready);
      PayAtOnceIsQuiet(ready, |db.groups|);
      QuietThen(db, ready, PlaceQuoted(db, r, quote).value);
    }
  }

  lemma CheckoutIsQuiet(db: Db, r: Request)
    requires CreateCheckout(db, r).Ok?
    ensures Quiet(db, CreateCheckout(db, r).value.0)
  {
    hide PlaceQuoted, Q.QuoteCart, Find;
    if ActiveGroup(db.groups, r.cart).None? {
      PlaceQuotedIsQuiet(db, r, Q.QuoteCart(r.rows, r.terms).value);
    }
  }

  // ----- the order steps -----

  lemma CancelOrderIsQuiet(db: Db, user: nat, o: nat)
    requires CancelOrder(db, user, o).Ok?
    ensures Quiet(db, CancelOrder(db, user, o).value)
  {
    var n := CancelOrder(db, user, o).value;
    var row := db.orders[o];
    CreditIsQuiet(db.purse, db.groups[row.key.group], user, o, row.bill.total);
    hide ReturnLines, CreditBack, RefundRow, RefundedSum, ReverseSettlement, Find, Post, SameCredits;
    RowIsQuiet(db, n, o, n.orders[o]);
  }

  lemma CreditIsQuiet(purse: Book<PurseRef>, g: Group, user: nat, o: nat, total: nat)
    requires CreditBack(purse, g, user, o, total).Ok?
    ensures SameCredits(purse.entries, CreditBack(purse, g, user, o, total).value.entries)
  {
    if g.via == Wallet {
      PostIsQuiet(purse, Entry(user, Credit, total, OrderCancel(o)));
    }
  }

  lemma ClaimIsQuiet(db: Db, rider: nat, o: nat)
    requires ClaimDelivery(db, rider, o).Ok?
    ensures Quiet(db, ClaimDelivery(db, rider, o).value)
  {
    var row := Move(db.orders[o], RiderAssigned).(delivery := Some(Delivery(Some(rider), Assigned)));
    var mid := SetOrder(db, o, row);
    RowIsQuiet(db, mid, o, row);
    HoldIsQuiet(mid, o);
    hide Quiet, HoldEarning;
    QuietThen(db, mid, ClaimDelivery(db, rider, o).value);
  }

  /** Steps that write one order's row and no wallet. */
  lemma RowStepIsQuiet(db: Db, step: Step)
    requires step.WriteRefund? || step.StoreMove? || step.AdminMove? || step.Pack? || step.Report? || step.PickUp?
    requires Attempt(db, step).Ok?
    ensures Quiet(db, Attempt(db, step).value)
  {
    hide Find, CanTransition;
    var n := Attempt(db, step).value;
    RowIsQuiet(db, n, step.order, n.orders[step.order]);
  }

  // ----- all steps -----

  predicate Transfers(step: Step) {
    step.TransferArrives? || step.TransferSeen? || step.TransferIn? || step.TransferDropped? || step.TransferAgain?
  }

  predicate Topups(step: Step) {
    step.BeginTopup? || step.FinishTopup?
  }

  lemma WalletStepIsQuiet(db: Db, step: Step)
    requires !Payments(step) && !Orders(step) && !Transfers(step) && !Topups(step) && Attempt(db, step).Ok?
    ensures Quiet(db, Attempt(db, step).value)
  {
    hide Find, Post;
    match step
    case Charged(user, amount, id) =>
      PostIsQuiet(db.purse, Entry(user, Debit, amount, Unique(id)));
    case Credited(user, amount, id) =>
      PostIsQuiet(db.purse, Entry(user, Credit, amount, Unique(id)));
    case RiderPaid(user, amount, id) =>
      PostIsQuiet(db.purse, Entry(user, Debit, amount, Unique(id)));
    case _ =>
  }

  /** A transfer's steps touch no top-up and no order. */
  lemma TransferStepKeeps(db: Db, step: Step)
    requires Transfers(step)
    ensures TopupsKept(db, Apply(db, step)) && Apply(db, step).orders == db.orders
  {
    hide Find;
    if step.TransferIn? && CreditTransfer(db, step.receipt).Ok? {
      CreditKeepsTopups(db, step.receipt);
      hide CreditTransfer;
    }
  }

  lemma CreditKeepsTopups(db: Db, i: nat)
    requires CreditTransfer(db, i).Ok?
    ensures TopupsKept(db, CreditTransfer(db, i).value) && CreditTransfer(db, i).value.orders == db.orders
  {
    var c := db.receipts[i];
    FindAppendAll(db.purse.entries, Entry(c.user, Credit, c.amount, TransferCredit(c.reference)));
    hide Find;
  }

  /** A top-up's steps touch no transfer and no order. */
  lemma TopupStepKeeps(db: Db, step: Step)
    requires Topups(step)
    ensures TransfersKept(db, Apply(db, step)) && Apply(db, step).orders == db.orders
  {
    if step.FinishTopup? && step.topup < |db.topups| {
      var f := db.topups[step.topup];
      FindAppendAll(db.purse.entries, Entry(f.user, Credit, f.amount, TopupCredit(step.topup)));
    }
    hide Find;
  }

  /** A hand-over touches neither. */
  lemma HandOverKeeps(db: Db, step: Step)
    requires step.HandOver?
    ensures TransfersKept(db, Apply(db, step)) && TopupsKept(db, Apply(db, step))
  {
    if Attempt(db, step).Ok? {
      var o := step.order;
      assert step.credential;
      DeliveryUnfolds(db, step.rider, o);
      var earning := db.orders[o].earning;
      if earning.Some? {
        FindAppendAll(db.purse.entries, Entry(earning.value.rider, Release, earning.value.amount, FeeRelease(o)));
      }
      hide Find;
    }
  }

  lemma PaymentStepIsQuiet(db: Db, step: Step)
    requires Payments(step) && Attempt(db, step).Ok?
    ensures Quiet(db, Attempt(db, step).value)
  {
    hide Find, CreateCheckout, FinishVerify, CompleteGroups, CancelCheckout, GroupsOf, SumNaira;
    match step
    case Checkout(r) =>
      CheckoutIsQuiet(db, r);
    case Verify(i) =>
      FinishIsQuiet(db, i);
    case Recheck(p) =>
      CompleteGroupsIsQuiet(db, GroupsOf(db.groups, p));
    case ReleaseCheckout(user, g) =>
      CancelCheckoutIsQuiet(db, user, g);
    case _ =>
  }

  lemma OrderStepIsQuiet(db: Db, step: Step)
    requires Orders(step) && !step.HandOver? && Attempt(db, step).Ok?
    ensures Quiet(db, Attempt(db, step).value)
  {
    hide Find, CancelOrder, ClaimDelivery, RefundedSum;
    match step
    case CancelPaid(user, o) =>
      CancelOrderIsQuiet(db, user, o);
    case ClaimBy(rider, o) =>
      ClaimIsQuiet(db, rider, o);
    case SyncPayment(o) =>
    case _ =>
      RowStepIsQuiet(db, step);
  }

  /** Only funding steps touch transfers and top-ups, only the hand-over hands anything over. */
  lemma StepIsQuiet(db: Db, step: Step)
    requires !Transfers(step) && !Topups(step) && !step.HandOver?
    ensures Quiet(db, Apply(db, step))
  {
    hide Attempt, Find;
    if Attempt(db, step).Ok? {
      hide Quiet;
      if Payments(step) {
        PaymentStepIsQuiet(db, step);
      } else if Orders(step) {
        OrderStepIsQuiet(db, step);
      } else {
        WalletStepIsQuiet(db, step);
      }
    }
  }
}
