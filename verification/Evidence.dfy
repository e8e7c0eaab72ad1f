/** No order changes its status without the evidence that the change calls for. */
module Evidence {
  import opened Outcome
  import opened OrderLife
  import opened Shop
  import opened Invariant
  import opened Resolution
  import opened Paying
  import opened Progress
  import opened Runs
  import opened Decisions
  import opened Causes
  import U = Submission
  import P = Placement
  import Q = Quote
  import F = Fingerprint
  import L = Ledger

  // ----- what counts as evidence -----

  /** The verification being finished is of the order's own checkout. */
  predicate FinishesGroup(db: Db, step: Step, g: nat, success: bool) {
    && step.Verify? && step.index < |db.inflight| && db.inflight[step.index].groups == [g]
    && (success <==> db.inflight[step.index].answer != Failure)
  }

  predicate StaffMoves(step: Step, o: nat, from: Status, to: Status) {
    step == AdminMove(o, to) && (from, to) in STAFF_MOVES
  }

  predicate Holds(x: Order, rider: nat) {
    x.delivery.Some? && x.delivery.value.rider == Some(rider)
  }

  /** Which step, with what in hand, may bring the order into the status. */
  predicate OrderCause(db: Db, step: Step, o: nat, to: Status)
    requires o < |db.orders|
  {
    var x := db.orders[o];
    match to
    case OrderReceived => false
    case Confirmed => x.status == OrderReceived && FinishesGroup(db, step, x.key.group, true)
    case Preparing =>
      (step == StoreMove(o, Preparing) && x.status == Confirmed) || StaffMoves(step, o, x.status, to)
    case ReadyForPickup =>
      || (step == Pack(o, true) && x.status in {Confirmed, Preparing})
      || (step == StoreMove(o, ReadyForPickup) && x.status == Preparing)
      || StaffMoves(step, o, x.status, to)
    case RiderAssigned =>
      || (&& step.ClaimBy? && step.order == o && x.status == ReadyForPickup
          && x.delivery.Some? && x.delivery.value.rider.None?)
      || StaffMoves(step, o, x.status, to)
    case PickedUp =>
      || (&& step.PickUp? && step.order == o && Holds(x, step.rider) && step.credential && step.scanned
          && x.status in {ReadyForPickup, RiderAssigned})
      || StaffMoves(step, o, x.status, to)
    case OutForDelivery =>
      || (&& step.Report? && step.order == o && Holds(x, step.rider) && UnderWayReport(step.delivery)
          && x.delivery.value.status in {Collected, InTransit, OnTheWay})
      || StaffMoves(step, o, x.status, to)
    case Delivered => StaffMoves(step, o, x.status, to)
    case Completed =>
      || (&& step.HandOver? && step.order == o && Holds(x, step.rider) && step.credential && x.status == OutForDelivery)
      || StaffMoves(step, o, x.status, to)
    case Cancelled =>
      || (step == CancelPaid(x.bill.user, o) && x.status in {Confirmed, Preparing})
      || (x.status == OrderReceived && (FinishesGroup(db, step, x.key.group, false) || GivesUp(db, step, x.key.group)))
  }

  ghost predicate WithEvidence(db: Db, n: Db, step: Step) {
    && |db.orders| <= |n.orders|
    && (forall o :: 0 <= o < |db.orders| && n.orders[o].status != db.orders[o].status ==>
      OrderCause(db, step, o, n.orders[o].status))
  }

  lemma SameOrders(db: Db, n: Db, step: Step)
    requires n.orders == db.orders
    ensures WithEvidence(db, n, step)
  {
    hide OrderCause;
  }

  lemma OneOrder(db: Db, n: Db, step: Step, o: nat)
    requires o < |db.orders| && |n.orders| == |db.orders| && n.orders == db.orders[o := n.orders[o]]
    requires n.orders[o].status != db.orders[o].status ==> OrderCause(db, step, o, n.orders[o].status)
    ensures WithEvidence(db, n, step)
  {
    hide OrderCause;
  }

  // ----- order steps -----

  lemma StoreEvidence(db: Db, o: nat, to: Status)
    requires StoreSetStatus(db, o, to).Ok?
    ensures WithEvidence(db, StoreSetStatus(db, o, to).value, StoreMove(o, to))
  {
    StoreMoveDecided(db, o, to);
    hide StoreSetStatus;
    OneOrder(db, StoreSetStatus(db, o, to).value, StoreMove(o, to), o);
  }

  lemma StaffEvidence(db: Db, o: nat, to: Status)
    requires AdminSetStatus(db, o, to).Ok?
    ensures WithEvidence(db, AdminSetStatus(db, o, to).value, AdminMove(o, to))
  {
    StaffMoveDecided(db, o, to);
    hide AdminSetStatus, WithEvidence, PointsEarnedFor;
    assert OrderCause(db, AdminMove(o, to), o, to);
    hide OrderCause;
    OneOrder(db, AdminSetStatus(db, o, to).value, AdminMove(o, to), o);
  }

  lemma PackEvidence(db: Db, o: nat, scanned: bool)
    requires CompletePacking(db, o, scanned).Ok?
    ensures WithEvidence(db, CompletePacking(db, o, scanned).value, Pack(o, scanned))
  {
    PackingDecided(db, o, scanned);
    hide CompletePacking;
    OneOrder(db, CompletePacking(db, o, scanned).value, Pack(o, scanned), o);
  }

  lemma ClaimEvidence(db: Db, rider: nat, o: nat)
    requires Inv(db) && ClaimDelivery(db, rider, o).Ok?
    ensures WithEvidence(db, ClaimDelivery(db, rider, o).value, ClaimBy(rider, o))
  {
    ClaimDecided(db, rider, o);
    ClaimedOrders(db, rider, o);
    hide ClaimDelivery, Inv;
    OneOrder(db, ClaimDelivery(db, rider, o).value, ClaimBy(rider, o), o);
  }

  lemma ClaimedOrders(db: Db, rider: nat, o: nat)
    requires ClaimDelivery(db, rider, o).Ok?
    ensures var n := ClaimDelivery(db, rider, o).value;
            && o < |db.orders| && |n.orders| == |db.orders| && n.orders == db.orders[o := n.orders[o]]
            && n.orders[o].status == RiderAssigned
  {
    hide L.Post, L.Find;
  }

  lemma ReportEvidence(db: Db, rider: nat, o: nat, to: DeliveryStatus)
    requires RiderUpdate(db, rider, o, to).Ok?
    ensures WithEvidence(db, RiderUpdate(db, rider, o, to).value, Report(rider, o, to))
  {
    ReportDecided(db, rider, o, to);
    hide RiderUpdate;
    OneOrder(db, RiderUpdate(db, rider, o, to).value, Report(rider, o, to), o);
  }

  lemma PickupEvidence(db: Db, rider: nat, o: nat, credential: bool, scanned: bool)
    requires ConfirmPickup(db, rider, o, credential, scanned).Ok?
    ensures WithEvidence(db, ConfirmPickup(db, rider, o, credential, scanned).value, PickUp(rider, o, credential, scanned))
  {
    PickupDecided(db, rider, o, credential, scanned);
    hide ConfirmPickup;
    OneOrder(db, ConfirmPickup(db, rider, o, credential, scanned).value, PickUp(rider, o, credential, scanned), o);
  }

  lemma HandOverEvidence(db: Db, rider: nat, o: nat, credential: bool)
    requires Inv(db) && ConfirmDelivery(db, rider, o, credential).Ok?
    ensures WithEvidence(db, ConfirmDelivery(db, rider, o, credential).value, HandOver(rider, o, credential))
  {
    HandOverDecided(db, rider, o, credential);
    HandOverOrders(db, rider, o, credential);
    hide ConfirmDelivery, Inv, PointsEarnedFor;
    OneOrder(db, ConfirmDelivery(db, rider, o, credential).value, HandOver(rider, o, credential), o);
  }

  lemma HandOverOrders(db: Db, rider: nat, o: nat, credential: bool)
    requires ConfirmDelivery(db, rider, o, credential).Ok?
    ensures var n := ConfirmDelivery(db, rider, o, credential).value;
            o < |db.orders| && |n.orders| == |db.orders| && n.orders == db.orders[o := n.orders[o]]
  {
    hide L.Post, L.Find, Move, Points;
  }

  lemma CancelEvidence(db: Db, user: nat, o: nat)
    requires Inv(db) && CancelOrder(db, user, o).Ok?
    ensures WithEvidence(db, CancelOrder(db, user, o).value, CancelPaid(user, o))
  {
    CancelRefunds(db, user, o);
    CancelDecided(db, user, o);
    hide CancelOrder, Inv, RefundedAsPaid;
    OneOrder(db, CancelOrder(db, user, o).value, CancelPaid(user, o), o);
  }

  lemma RefundEvidence(db: Db, o: nat, status: RefundStatus)
    requires SetRefundStatus(db, o, status).Ok?
    ensures WithEvidence(db, SetRefundStatus(db, o, status).value, WriteRefund(o, status))
  {
    RefundStatusDecided(db, o, status);
    hide SetRefundStatus, OrderCause;
    OneOrder(db, SetRefundStatus(db, o, status).value, WriteRefund(o, status), o);
  }

  lemma OrderStepEvidence(db: Db, step: Step)
    requires Inv(db) && Orders(step) && Attempt(db, step).Ok?
    ensures WithEvidence(db, Attempt(db, step).value, step)
  {
    hide Inv, WithEvidence, CancelOrder, SetRefundStatus, StoreSetStatus, AdminSetStatus, CompletePacking, ClaimDelivery;
    hide RiderUpdate, ConfirmPickup, ConfirmDelivery, RefundedSum;
    match step
    case CancelPaid(user, o) =>
      CancelEvidence(db, user, o);
    case WriteRefund(o, status) =>
      RefundEvidence(db, o, status);
    case SyncPayment(o) =>
      SameOrders(db, Attempt(db, step).value, step);
    case StoreMove(o, to) =>
      StoreEvidence(db, o, to);
    case AdminMove(o, to) =>
      StaffEvidence(db, o, to);
    case Pack(o, scanned) =>
      PackEvidence(db, o, scanned);
    case ClaimBy(rider, o) =>
      ClaimEvidence(db, rider, o);
    case Report(rider, o, to) =>
      ReportEvidence(db, rider, o, to);
    case PickUp(rider, o, credential, scanned) =>
      PickupEvidence(db, rider, o, credential, scanned);
    case HandOver(rider, o, credential) =>
      HandOverEvidence(db, rider, o, credential);
    case _ =>
  }

  // ----- payment steps -----

  /** The orders of the group moved on together, from ORDER_RECEIVED. */
  lemma GroupEvidence(db: Db, n: Db, step: Step, g: nat, to: Status)
    requires |n.orders| == |db.orders|
    requires forall o :: 0 <= o < |db.orders| ==>
      if db.orders[o].key.group == g then n.orders[o].status == to && db.orders[o].status == OrderReceived
      else n.orders[o] == db.orders[o]
    requires (to == Confirmed && FinishesGroup(db, step, g, true))
          || (to == Cancelled && (FinishesGroup(db, step, g, false) || GivesUp(db, step, g)))
    ensures WithEvidence(db, n, step)
  {
  }

  lemma UnpaidMembers(db: Db, g: nat)
    requires Inv(db) && g < |db.groups| && !Resolved(db.groups[g])
    ensures forall o :: 0 <= o < |db.orders| && db.orders[o].key.group == g ==> db.orders[o].status == OrderReceived
  {
    assert GroupOk(g, db.groups[g], db.orders, db.payments);
    forall o | 0 <= o < |db.orders| && db.orders[o].key.group == g ensures db.orders[o].status == OrderReceived {
      MemberIs(db, g, o, OrderReceived);
    }
  }

  lemma VerifyEvidence(db: Db, i: nat)
    requires Inv(db) && FinishVerify(db, i).Ok?
    ensures WithEvidence(db, FinishVerify(db, i).value, Verify(i))
  {
    DropInflight(db, i);
    var v, n := db.inflight[i], FinishVerify(db, i).value;
    var rest := db.(inflight := db.inflight[..i] + db.inflight[i + 1..]);
    hide Inv, VerifyPaystack, VerifyKlump, WithEvidence;
    PayerFacts(db, v.groups[0], v.payment);
    assert v.groups == [v.groups[0]];
    if db.groups[v.groups[0]].status == Processing {
      PendingOrders(rest, v, n);
      UnpaidMembers(db, v.groups[0]);
      GroupEvidence(db, n, Verify(i), v.groups[0], if v.answer == Failure then Cancelled else Confirmed);
    } else {
      ResolvedOrders(rest, v, n);
      SameStatuses(db, n, Verify(i));
    }
  }

  lemma SameStatuses(db: Db, n: Db, step: Step)
    requires |n.orders| == |db.orders| && forall o :: 0 <= o < |db.orders| ==> n.orders[o].status == db.orders[o].status
    ensures WithEvidence(db, n, step)
  {
    hide OrderCause;
  }

  lemma PendingOrders(db: Db, v: Verification, n: Db)
    requires Inv(db) && VerificationOk(v, db.groups, db.payments) && db.groups[v.groups[0]].status == Processing
    requires (if v.answer == KlumpSuccess then VerifyKlump(db, v) else VerifyPaystack(db, v)) == Ok(n)
    ensures |n.orders| == |db.orders|
    ensures forall o :: 0 <= o < |db.orders| ==>
      if db.orders[o].key.group == v.groups[0] then n.orders[o].status == (if v.answer == Failure then Cancelled else Confirmed)
      else n.orders[o] == db.orders[o]
  {
    hide Inv, CompleteGroup, FailGroup, VerifyKlump, VerifyPaystack, ReadyToComplete, ReadyToRelease, GroupsOf, Units;
    var g, p := v.groups[0], v.payment;
    PayerFacts(db, g, p);
    assert v.groups == [g];
    VerifyUnfolds(db, v, g);
    ProcessingPays(db, g);
    if v.answer == Failure {
      FailGroupRestores(SetPayment(db, p, Failed), g);
    } else {
      CompleteGroupRestores(SetPayment(db, p, Paid), g);
    }
  }

  lemma ResolvedOrders(db: Db, v: Verification, n: Db)
    requires Inv(db) && VerificationOk(v, db.groups, db.payments) && Resolved(db.groups[v.groups[0]])
    requires (if v.answer == KlumpSuccess then VerifyKlump(db, v) else VerifyPaystack(db, v)) == Ok(n)
    ensures |n.orders| == |db.orders| && forall o :: 0 <= o < |db.orders| ==> n.orders[o].status == db.orders[o].status
  {
    hide Inv, VerifyKlump, VerifyPaystack, RefundGroups, GroupsOf, Units;
    var g, p := v.groups[0], v.payment;
    PayerFacts(db, g, p);
    assert v.groups == [g];
    if v.answer == KlumpSuccess {
      KlumpResolved(db, v, g);
    } else if db.payments[p].status == Failed && v.answer == Success {
      LateUnfolds(db, v);
      LateRefundsRestore(db, g);
    } else {
      RewritesStatusOnly(db, v);
      StaleOtherwise(db, v, g);
    }
  }

  lemma ReleaseEvidence(db: Db, user: nat, g: nat)
    requires Inv(db) && CancelCheckout(db, user, g).Ok?
    ensures WithEvidence(db, CancelCheckout(db, user, g).value, ReleaseCheckout(user, g))
  {
    GiveUpDecided(db, user, g);
    var n := CancelCheckout(db, user, g).value;
    if db.groups[g].status == Failed {
      hide Inv, CancelCheckout;
      SameOrders(db, n, ReleaseCheckout(user, g));
    } else {
      assert GroupOk(g, db.groups[g], db.orders, db.payments);
      hide WithEvidence, Units;
      UnpaidMembers(db, g);
      ReleasedOrders(db, user, g);
      hide Inv, CancelCheckout;
      GroupEvidence(db, n, ReleaseCheckout(user, g), g, Cancelled);
    }
  }

  lemma ReleasedOrders(db: Db, user: nat, g: nat)
    requires Inv(db) && CancelCheckout(db, user, g).Ok? && g < |db.groups| && !Resolved(db.groups[g])
    ensures var n := CancelCheckout(db, user, g).value;
            && |n.orders| == |db.orders|
            && forall o :: 0 <= o < |db.orders| ==>
              if db.orders[o].key.group == g then n.orders[o].status == Cancelled else n.orders[o] == db.orders[o]
  {
    var row := db.groups[g];
    assert GroupOk(g, row, db.orders, db.payments);
    if row.payment.Some? {
      hide Inv, FailGroup, ReadyToComplete, ReadyToRelease, Units;
      ProcessingPays(db, g);
      FailGroupRestores(SetPayment(db, row.payment.value, Failed), g);
    } else {
      P.InvToBut(db, g);
      assert ReadyToRelease(db, g);
      hide Inv, FailGroup, ReadyToRelease, Units;
      FailGroupRestores(db, g);
    }
  }

  lemma CheckoutEvidence(db: Db, r: Request)
    requires Inv(db) && CreateCheckout(db, r).Ok?
    ensures WithEvidence(db, CreateCheckout(db, r).value.0, Checkout(r))
  {
    var n := CreateCheckout(db, r).value.0;
    if ActiveGroup(db.groups, r.cart).None? {
      hide Inv, CreateCheckout, Q.QuoteCart, OrderCause;
      U.CheckoutFollowsQuote(db, r);
      hide U.OrderOfQuote;
      forall o | 0 <= o < |db.orders| ensures n.orders[o] == db.orders[o] {
        assert n.orders[o] == n.orders[..|db.orders|][o];
      }
    } else {
      hide Inv, PlaceQuoted, Q.QuoteCart, F.Canonical, OrderCause;
    }
  }

  lemma PaymentStepEvidence(db: Db, step: Step)
    requires Inv(db) && Payments(step) && Attempt(db, step).Ok?
    ensures WithEvidence(db, Attempt(db, step).value, step)
  {
    hide Inv, WithEvidence, CreateCheckout, BeginVerify, FinishVerify, RecheckPaid, CancelCheckout, SumNaira, WholeNaira;
    match step
    case Checkout(r) =>
      CheckoutEvidence(db, r);
    case StartPaystack(user, g) =>
      SameOrders(db, InitializePaystack(db, user, g).value, step);
    case StartKlump(user, g) =>
      SameOrders(db, InitializeKlump(db, user, g).value, step);
    case ReadAnswer(p, reported, answer) =>
      ReadDecided(db, p, reported, answer);
      SameOrders(db, BeginVerify(db, p, reported, answer).value, step);
    case Verify(i) =>
      VerifyEvidence(db, i);
    case Recheck(p) =>
      RecheckChangesNothing(db, p);
      SameOrders(db, db, step);
    case ReleaseCheckout(user, g) =>
      ReleaseEvidence(db, user, g);
    case _ =>
  }

  // ----- all steps -----

  lemma WalletStepOrders(db: Db, step: Step)
    requires !Payments(step) && !Orders(step) && Attempt(db, step).Ok?
    ensures Attempt(db, step).value.orders == db.orders
  {
    hide L.Post, L.Find, Dropped;
  }

  /** Whatever is attempted: no order takes a status without the evidence for it. */
  lemma NoStatusWithoutEvidence(db: Db, step: Step)
    requires Inv(db)
    ensures WithEvidence(db, Apply(db, step), step)
  {
    hide Inv, Attempt, WithEvidence;
    if Attempt(db, step).Err? {
      SameOrders(db, db, step);
    } else if Payments(step) {
      PaymentStepEvidence(db, step);
    } else if Orders(step) {
      OrderStepEvidence(db, step);
    } else {
      WalletStepOrders(db, step);
      SameOrders(db, Attempt(db, step).value, step);
    }
  }
}
