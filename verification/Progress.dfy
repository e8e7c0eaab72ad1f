/** What each event brings about, and when it is refused: the other half of keeping the invariant. */
module Progress {
  import opened Outcome
  import opened Ledger
  import opened OrderLife
  import opened Shop
  import opened Invariant
  import opened Resolution
  import opened Placement
  import opened Paying
  import opened Cancelling
  import S = Settlement
  import Q = Quote
  import F = Fingerprint

  // ----- completing -----

  lemma ConfirmDecided(db: Db, o: nat)
    requires o < |db.orders| && db.orders[o].status == OrderReceived && OrderOk(db.orders[o])
    requires Find(db.stores.entries, Settled(o)).None?
    ensures ConfirmOrder(db, o).Ok? <==> S.Split(db.orders[o].bill.subtotal, db.rates).Ok?
  {
    hide S.Split, Find, Walk, BillOk;
  }

  /** Every remaining order of the group can be split at the rates in force. */
  ghost predicate SettleableFrom(db: Db, all: seq<Allocation>, k: nat) {
    forall j :: k <= j < |all| ==>
      all[j].order < |db.orders| && S.Split(db.orders[all[j].order].bill.subtotal, db.rates).Ok?
  }

  lemma {:induction false} ConfirmAllDecided(db: Db, g: nat, k: nat)
    requires InvBut(db, g) && k <= |db.groups[g].allocations|
    requires forall j :: k <= j < |db.groups[g].allocations| ==>
      db.orders[db.groups[g].allocations[j].order].status == OrderReceived
    ensures ConfirmAll(db, db.groups[g].allocations[k..]).Ok? <==> SettleableFrom(db, db.groups[g].allocations, k)
    decreases |db.groups[g].allocations| - k
  {
    hide Linked, OrdersOk, OthersOk, OnePayer, Owned, CartsApart, Stocked, StoresOk, PurseOk, FundingOk, PointsOk;
    hide InflightOk, ConfirmOrder, S.Split, Units;
    var all := db.groups[g].allocations;
    if k < |all| {
      assert all[k..][0] == all[k] && all[k..][1..] == all[k + 1..];
      var o := all[k].order;
      assert db.orders[o].key == Key(g, k);
      FirstDecided(db, g, o);
      if ConfirmOrder(db, o).Ok? {
        ConfirmOrderKeeps(db, g, o);
        SlotsApart(db, g, k);
        var next := ConfirmOrder(db, o).value;
        ConfirmAllDecided(next, g, k + 1);
        SameBills(db, next, all, k);
      }
    }
  }

  lemma FirstDecided(db: Db, g: nat, o: nat)
    requires InvBut(db, g) && o < |db.orders| && db.orders[o].status == OrderReceived
    ensures ConfirmOrder(db, o).Ok? <==> S.Split(db.orders[o].bill.subtotal, db.rates).Ok?
  {
    assert OrderOk(db.orders[o]) && SettledOk(o, db.orders[o], db.stores.entries);
    hide ConfirmOrder, S.Split, InvBut;
    ConfirmDecided(db, o);
  }

  lemma SameBills(db: Db, next: Db, all: seq<Allocation>, k: nat)
    requires k < |all| && all[k].order < |db.orders| && |next.orders| == |db.orders| && next.rates == db.rates
    requires forall o :: 0 <= o < |db.orders| ==> next.orders[o].bill == db.orders[o].bill
    requires S.Split(db.orders[all[k].order].bill.subtotal, db.rates).Ok?
    ensures SettleableFrom(next, all, k + 1) <==> SettleableFrom(db, all, k)
  {
    hide S.Split;
    if SettleableFrom(next, all, k + 1) {
      forall j | k <= j < |all|
        ensures all[j].order < |db.orders| && S.Split(db.orders[all[j].order].bill.subtotal, db.rates).Ok?
      {
      }
    }
  }

  /** The group's orders can all be settled at the rates in force. */
  ghost predicate Settleable(db: Db, g: nat)
    requires g < |db.groups|
  {
    SettleableFrom(db, db.groups[g].allocations, 0)
  }

  lemma CompleteDecided(db: Db, g: nat)
    requires ReadyToComplete(db, g)
    ensures CompleteGroup(db, g).Ok? <==> Settleable(db, g)
  {
    CompleteUnfolds(db, g);
    hide Linked, OrdersOk, OthersOk, OnePayer, Owned, CartsApart, Stocked, StoresOk, PurseOk, FundingOk, PointsOk;
    hide InflightOk, CompleteGroup, ConfirmAll, SettleableFrom, Units;
    var all := db.groups[g].allocations;
    assert all[0..] == all;
    ConfirmAllDecided(db, g, 0);
    if ConfirmAll(db, all).Ok? {
      ConfirmAllKeeps(db, g, 0);
    }
  }

  lemma CompleteUnfolds(db: Db, g: nat)
    requires g < |db.groups| && !Resolved(db.groups[g])
    ensures var r := ConfirmAll(db, db.groups[g].allocations);
            CompleteGroup(db, g).Ok? <==> r.Ok? && g < |r.value.groups|
  {
    hide ConfirmAll;
  }

  /** The orders of the group all have one status. */
  ghost predicate AllNow(db: Db, g: nat, s: Status) {
    && g < |db.groups|
    && forall k :: 0 <= k < |db.groups[g].allocations| ==>
      var o := db.groups[g].allocations[k].order; o < |db.orders| && db.orders[o].status == s
  }

  lemma MembersMoved(db: Db, n: Db, g: nat, to: Status)
    requires g < |db.groups| && MembersOk(g, db.groups[g], db.orders)
    requires |n.orders| == |db.orders| && |n.groups| == |db.groups| && n.groups[g].allocations == db.groups[g].allocations
    requires forall o :: 0 <= o < |db.orders| && db.orders[o].key.group == g ==> n.orders[o].status == to
    ensures AllNow(n, g, to)
  {
    forall k | 0 <= k < |db.groups[g].allocations|
      ensures var o := n.groups[g].allocations[k].order; o < |n.orders| && n.orders[o].status == to
    {
      assert db.orders[db.groups[g].allocations[k].order].key.group == g;
    }
  }

  /** Completing, once possible, leaves the group PAID and its orders confirmed. */
  lemma CompletionOutcome(db: Db, g: nat)
    requires ReadyToComplete(db, g) && CompleteGroup(db, g).Ok?
    ensures var n := CompleteGroup(db, g).value;
            AllNow(n, g, Confirmed) && n.groups[g].status == Paid && n.payments == db.payments
  {
    assert MembersOk(g, db.groups[g], db.orders);
    hide Inv, InvBut, CompleteGroup, Units;
    CompleteGroupRestores(db, g);
    hide ReadyToComplete, MembersOk;
    MembersMoved(db, CompleteGroup(db, g).value, g, Confirmed);
  }

  /** Releasing always succeeds and leaves the group FAILED and its orders cancelled. */
  lemma ReleaseOutcome(db: Db, g: nat)
    requires ReadyToRelease(db, g)
    ensures var r := FailGroup(db, g);
            && r.Ok? && AllNow(r.value, g, Cancelled) && r.value.groups[g].status == Failed
            && r.value.groups[g].payment == db.groups[g].payment && r.value.payments == db.payments
  {
    assert MembersOk(g, db.groups[g], db.orders);
    hide Inv, InvBut, FailGroup, Units;
    FailGroupRestores(db, g);
    hide ReadyToRelease, MembersOk;
    MembersMoved(db, FailGroup(db, g).value, g, Cancelled);
  }

  // ----- verification -----

  /** For a pending payment, the answer decides which way its group goes. */
  lemma VerifyUnfolds(db: Db, v: Verification, g: nat)
    requires v.payment < |db.payments| && db.payments[v.payment].status == Pending && v.groups == [g]
    ensures v.answer == Success ==> VerifyPaystack(db, v) == CompleteGroup(SetPayment(db, v.payment, Paid), g)
    ensures v.answer == Failure ==> VerifyPaystack(db, v) == FailGroup(SetPayment(db, v.payment, Failed), g)
    ensures VerifyKlump(db, v) == CompleteGroup(SetPayment(db, v.payment, Paid), g)
  {
    OneGroup(SetPayment(db, v.payment, Paid), g);
    OneGroup(SetPayment(db, v.payment, Failed), g);
    hide CompleteGroup, FailGroup, CompleteGroups, FailGroups, RefundGroups, GroupsOf;
  }

  /**
   A successful answer for an unresolved checkout pays it: group PAID, payment PAID, every order
   confirmed. It is refused exactly when some order cannot be settled at the rates in force.
   */
  lemma SuccessCompletes(db: Db, v: Verification)
    requires Inv(db) && VerificationOk(v, db.groups, db.payments) && db.groups[v.groups[0]].status == Processing
    requires v.answer != Failure
    ensures var r := if v.answer == KlumpSuccess then VerifyKlump(db, v) else VerifyPaystack(db, v);
            && (r.Ok? <==> Settleable(db, v.groups[0]))
            && (r.Ok? ==>
              && AllNow(r.value, v.groups[0], Confirmed) && r.value.groups[v.groups[0]].status == Paid
              && v.payment < |r.value.payments| && r.value.payments[v.payment].status == Paid)
  {
    hide Inv, CompleteGroup, FailGroup, VerifyKlump, VerifyPaystack, ReadyToComplete, ReadyToRelease, Settleable, AllNow;
    hide GroupsOf;
    var g, p := v.groups[0], v.payment;
    PayerFacts(db, g, p);
    assert v.groups == [g];
    VerifyUnfolds(db, v, g);
    var paid := SetPayment(db, p, Paid);
    ProcessingPays(db, g);
    CompleteDecided(paid, g);
    SettleableAlike(db, paid, g);
    if CompleteGroup(paid, g).Ok? {
      CompletionOutcome(paid, g);
    }
  }

  lemma SettleableAlike(db: Db, n: Db, g: nat)
    requires g < |db.groups| && n.groups == db.groups && n.orders == db.orders && n.rates == db.rates
    ensures Settleable(n, g) <==> Settleable(db, g)
  {
    hide S.Split;
  }

  /** A failed answer for an unresolved checkout always releases it. */
  lemma FailureReleases(db: Db, v: Verification)
    requires Inv(db) && VerificationOk(v, db.groups, db.payments) && db.groups[v.groups[0]].status == Processing
    requires v.answer == Failure
    ensures var r := VerifyPaystack(db, v);
            && r.Ok? && AllNow(r.value, v.groups[0], Cancelled) && r.value.groups[v.groups[0]].status == Failed
            && v.payment < |r.value.payments| && r.value.payments[v.payment].status == Failed
  {
    hide Inv, CompleteGroup, FailGroup, VerifyKlump, VerifyPaystack, ReadyToComplete, ReadyToRelease, AllNow, GroupsOf;
    var g, p := v.groups[0], v.payment;
    PayerFacts(db, g, p);
    assert v.groups == [g];
    VerifyUnfolds(db, v, g);
    ProcessingPays(db, g);
    ReleaseOutcome(SetPayment(db, p, Failed), g);
  }

  /** A success for a released checkout is never refused: the payment is PAID and every order gets its refund. */
  lemma LateSuccessRefunds(db: Db, v: Verification)
    requires Inv(db) && VerificationOk(v, db.groups, db.payments) && v.answer == Success
    requires db.payments[v.payment].status == Failed
    ensures var r := VerifyPaystack(db, v);
            && r.Ok? && |r.value.orders| == |db.orders| && r.value.groups == db.groups
            && v.payment < |r.value.payments| && r.value.payments[v.payment].status == Paid
            && AllRefundedNow(r.value, v.groups[0])
            && (forall o :: 0 <= o < |db.orders| && db.orders[o].key.group == v.groups[0] && db.orders[o].refund.None? ==>
              r.value.orders[o].refund == Some(Refund(v.payment, db.orders[o].bill.total, Paystack, Requested)))
  {
    hide VerifyPaystack, RefundGroups, GroupsOf, Inv, AllRefundedNow;
    var g, p := v.groups[0], v.payment;
    PayerFacts(db, g, p);
    LateUnfolds(db, v);
    LateRefundsRestore(db, g);
    ReleasedMembers(db, g);
    AllGiven(db, RefundGroups(SetPayment(db, p, Paid), p, [g]).value, g, p);
  }

  lemma LateUnfolds(db: Db, v: Verification)
    requires v.payment < |db.payments| && db.payments[v.payment].status == Failed && v.answer == Success
    ensures VerifyPaystack(db, v)
         == RefundGroups(SetPayment(db, v.payment, Paid), v.payment, GroupsOf(db.groups, v.payment))
  {
    hide CompleteGroups, FailGroups, RefundGroups, GroupsOf;
  }

  /** Every order of the group is cancelled and has a refund of exactly its total. */
  ghost predicate AllRefundedNow(db: Db, g: nat) {
    forall o :: 0 <= o < |db.orders| && db.orders[o].key.group == g ==>
      && db.orders[o].status == Cancelled && db.orders[o].refund.Some?
      && db.orders[o].refund.value.amount == db.orders[o].bill.total
  }

  lemma AllGiven(db: Db, n: Db, g: nat, p: nat)
    requires |n.orders| == |db.orders|
    requires forall o :: 0 <= o < |db.orders| ==>
      n.orders[o] == if db.orders[o].key.group == g then WithRefund(db.orders[o], p, db.orders[o].bill.total) else db.orders[o]
    requires forall o :: 0 <= o < |db.orders| && db.orders[o].key.group == g ==>
      && db.orders[o].status == Cancelled
      && (db.orders[o].refund.Some? ==> db.orders[o].refund.value.amount == db.orders[o].bill.total)
    ensures AllRefundedNow(n, g)
  {
    forall o | 0 <= o < |n.orders| && n.orders[o].key.group == g
      ensures n.orders[o].status == Cancelled && n.orders[o].refund.Some?
      ensures n.orders[o].refund.value.amount == n.orders[o].bill.total
    {
      assert n.orders[o].key == db.orders[o].key;
    }
  }

  lemma ReleasedMembers(db: Db, g: nat)
    requires Inv(db) && g < |db.groups| && db.groups[g].status == Failed
    ensures forall o :: 0 <= o < |db.orders| && db.orders[o].key.group == g ==>
      && db.orders[o].status == Cancelled
      && (db.orders[o].refund.Some? ==> db.orders[o].refund.value.amount == db.orders[o].bill.total)
  {
    FailedFacts(db, g);
    forall o | 0 <= o < |db.orders| && db.orders[o].key.group == g
      ensures db.orders[o].status == Cancelled
      ensures db.orders[o].refund.Some? ==> db.orders[o].refund.value.amount == db.orders[o].bill.total
    {
      MemberIs(db, g, o, Cancelled);
      assert OrderOk(db.orders[o]);
    }
  }

  /** A success rewrites the payment of a paid checkout that was refunded since. */
  predicate RewritesPaid(group: PayStatus, payment: PayStatus, answer: Answer) {
    group == Paid && payment != Paid && answer == Success
  }

  /** A failure rewrites the payment of a released checkout whose late refunds were synchronised since. */
  predicate RewritesFailed(group: PayStatus, payment: PayStatus, answer: Answer) {
    group == Failed && payment !in {Paid, Failed} && answer == Failure
  }

  /** The two rewrites change the payment's status and nothing else. */
  lemma RewritesStatusOnly(db: Db, v: Verification)
    requires Inv(db) && VerificationOk(v, db.groups, db.payments) && v.answer != KlumpSuccess
    ensures var group, status := db.groups[v.groups[0]].status, db.payments[v.payment].status;
            && (RewritesPaid(group, status, v.answer) ==> VerifyPaystack(db, v) == Ok(SetPayment(db, v.payment, Paid)))
            && (RewritesFailed(group, status, v.answer) ==> VerifyPaystack(db, v) == Ok(SetPayment(db, v.payment, Failed)))
  {
    var g, p := v.groups[0], v.payment;
    PayerFacts(db, g, p);
    assert v.groups == [g];
    var paid, failed := SetPayment(db, p, Paid), SetPayment(db, p, Failed);
    OneGroup(paid, g);
    OneGroup(failed, g);
    if Resolved(db.groups[g]) {
      ResolvedStops(paid, g);
      ResolvedStops(failed, g);
    }
    hide Inv, CompleteGroup, FailGroup, CompleteGroups, FailGroups, RefundGroups, GroupsOf;
  }

  /**
   An answer for a checkout that was resolved before it is refused, or changes nothing at all,
   except in exactly three cases: the two rewrites, and the refunds of a late success.
   */
  lemma StaleAnswerDecided(db: Db, v: Verification)
    requires Inv(db) && VerificationOk(v, db.groups, db.payments) && v.answer != KlumpSuccess
    requires Resolved(db.groups[v.groups[0]])
    ensures var group, status := db.groups[v.groups[0]].status, db.payments[v.payment].status;
            VerifyPaystack(db, v).Err? || VerifyPaystack(db, v) == Ok(db) <==>
              && !RewritesPaid(group, status, v.answer) && !RewritesFailed(group, status, v.answer)
              && !(status == Failed && v.answer == Success)
  {
    var g, p := v.groups[0], v.payment;
    PayerFacts(db, g, p);
    var status := db.payments[p].status;
    RewritesStatusOnly(db, v);
    if status == Failed && v.answer == Success {
      LateSuccessRefunds(db, v);
    }
    StaleOtherwise(db, v, g);
    hide Inv, VerifyPaystack, AllRefundedNow;
    assert SetPayment(db, p, Paid).payments[p].status == Paid && SetPayment(db, p, Failed).payments[p].status == Failed;
  }

  lemma StaleOtherwise(db: Db, v: Verification, g: nat)
    requires Inv(db) && VerificationOk(v, db.groups, db.payments) && v.answer != KlumpSuccess
    requires g == v.groups[0] && Resolved(db.groups[g])
    ensures var group, status := db.groups[g].status, db.payments[v.payment].status;
            && !RewritesPaid(group, status, v.answer) && !RewritesFailed(group, status, v.answer)
            && !(status == Failed && v.answer == Success)
            ==> VerifyPaystack(db, v).Err? || VerifyPaystack(db, v) == Ok(db)
  {
    PayerFacts(db, g, v.payment);
    assert v.groups == [g];
    var paid, failed := SetPayment(db, v.payment, Paid), SetPayment(db, v.payment, Failed);
    OneGroup(paid, g);
    OneGroup(failed, g);
    ResolvedStops(paid, g);
    ResolvedStops(failed, g);
    hide Inv, CompleteGroup, FailGroup, CompleteGroups, FailGroups, RefundGroups, GroupsOf;
  }

  /**
   A Klump success is refused exactly for a released checkout, or when some order of an unresolved
   one cannot be settled; for a paid checkout it writes PAID, over a refunded status too.
   */
  lemma KlumpDecided(db: Db, v: Verification)
    requires Inv(db) && VerificationOk(v, db.groups, db.payments) && v.answer == KlumpSuccess
    ensures var g := v.groups[0];
            && (VerifyKlump(db, v).Err? <==>
              db.groups[g].status == Failed || (db.groups[g].status == Processing && !Settleable(db, g)))
            && (db.groups[g].status == Paid ==> VerifyKlump(db, v) == Ok(SetPayment(db, v.payment, Paid)))
  {
    var g, p := v.groups[0], v.payment;
    PayerFacts(db, g, p);
    assert v.groups == [g];
    if db.groups[g].status == Processing {
      hide Inv, VerifyKlump, VerifyPaystack, Settleable;
      SuccessCompletes(db, v);
    } else {
      KlumpResolved(db, v, g);
    }
  }

  lemma KlumpResolved(db: Db, v: Verification, g: nat)
    requires Inv(db) && VerificationOk(v, db.groups, db.payments) && v.answer == KlumpSuccess
    requires g == v.groups[0] && Resolved(db.groups[g])
    ensures VerifyKlump(db, v)
         == if db.groups[g].status == Paid then Ok(SetPayment(db, v.payment, Paid)) else Err(Conflict)
  {
    PayerFacts(db, g, v.payment);
    assert v.groups == [g];
    var paid := SetPayment(db, v.payment, Paid);
    OneGroup(paid, g);
    ResolvedStops(paid, g);
    hide Inv, CompleteGroup, CompleteGroups, GroupsOf;
    assert db.payments[v.payment].status == Paid ==> paid.payments == db.payments;
  }

  /** At the shipped rates no payment is ever refused for its settlement. */
  lemma DefaultRatesNeverRefuse(db: Db, g: nat)
    requires Inv(db) && g < |db.groups| && db.rates == S.DEFAULT_RATES
    ensures Settleable(db, g)
  {
    assert GroupOk(g, db.groups[g], db.orders, db.payments);
    hide Inv, S.Split;
    forall j | 0 <= j < |db.groups[g].allocations|
      ensures var o := db.groups[g].allocations[j].order;
              o < |db.orders| && S.Split(db.orders[o].bill.subtotal, db.rates).Ok?
    {
      S.DefaultRatesAlwaysSettle(db.orders[db.groups[g].allocations[j].order].bill.subtotal);
    }
  }

  // ----- cancelling -----

  /** The owner can always give up an unresolved checkout, whatever its payment's stage. */
  lemma CancelReleases(db: Db, user: nat, g: nat)
    requires Inv(db) && g < |db.groups| && db.groups[g].user == user && !Resolved(db.groups[g])
    ensures var r := CancelCheckout(db, user, g);
            && r.Ok? && AllNow(r.value, g, Cancelled) && r.value.groups[g].status == Failed
            && r.value.groups[g].payment == db.groups[g].payment
            && (db.groups[g].payment.Some? ==>
              && db.groups[g].payment.value < |r.value.payments|
              && r.value.payments[db.groups[g].payment.value].status == Failed)
  {
    var row := db.groups[g];
    assert GroupOk(g, row, db.orders, db.payments);
    if row.payment.Some? {
      hide Inv, FailGroup, ReadyToComplete, ReadyToRelease, AllNow;
      ProcessingPays(db, g);
      ReleaseOutcome(SetPayment(db, row.payment.value, Failed), g);
    } else {
      InvToBut(db, g);
      assert ReadyToRelease(db, g);
      hide Inv, FailGroup, ReadyToRelease, AllNow;
      ReleaseOutcome(db, g);
    }
  }

  /** A paid order can be cancelled exactly by its owner and exactly before it is ready. */
  lemma CancelDecided(db: Db, user: nat, o: nat)
    requires Inv(db)
    ensures CancelOrder(db, user, o).Ok? <==>
      o < |db.orders| && db.orders[o].bill.user == user && db.orders[o].status in {Confirmed, Preparing}
    ensures CancelOrder(db, user, o).Ok? ==>
      var n := CancelOrder(db, user, o).value;
      && o < |n.orders| && n.orders[o].status == Cancelled && n.orders[o].refund.Some?
      && n.orders[o].refund.value.amount == db.orders[o].bill.total
  {
    if o < |db.orders| && db.orders[o].bill.user == user && db.orders[o].status in {Confirmed, Preparing} {
      CancelSucceeds(db, user, o);
    }
  }

  lemma CancelSucceeds(db: Db, user: nat, o: nat)
    requires Inv(db) && o < |db.orders| && db.orders[o].bill.user == user
    requires db.orders[o].status in {Confirmed, Preparing}
    ensures CancelOrder(db, user, o).Ok?
    ensures var n := CancelOrder(db, user, o).value;
            && |n.orders| == |db.orders| && n.orders[o].status == Cancelled && n.orders[o].refund.Some?
            && n.orders[o].refund.value.amount == db.orders[o].bill.total
  {
    hide Inv, ReturnLines, CreditBack, ReverseSettlement, RefundRow, RefundedSum, CallOff;
    PaidOrderFacts(db, o);
    var x := db.orders[o];
    var group := db.groups[x.key.group];
    var p := group.payment.value;
    var refund := RefundRow(group, p, db.payments[p].provider, x.bill.total);
    RefundRowFacts(group, p, db.payments[p].provider, x.bill.total);
    CancelRows(db, o, refund);
    CancelledIsCancelled(x, refund);
  }

  // ----- starting a payment -----

  /** Starting a Paystack payment creates one row of the group's amount; starting again creates nothing. */
  lemma PaystackStartsOnce(db: Db, user: nat, g: nat)
    requires InitializePaystack(db, user, g).Ok?
    ensures var n := InitializePaystack(db, user, g).value;
            && g < |db.groups| && |n.groups| == |db.groups| && n.groups[g].payment.Some?
            && (db.groups[g].payment.None? ==>
              && n.groups[g].status == Processing
              && n.payments == db.payments + [Payment(db.groups[g].total, Paystack, Pending)]
              && n.groups[g].payment == Some(|db.payments|))
            && (db.groups[g].payment.Some? ==> n == db)
            && InitializePaystack(n, user, g) == Ok(n)
  {
  }

  // ----- resubmitting -----

  /** A new checkout that waits for payment records the request it answers. */
  lemma NewGroupRecords(db: Db, r: Request)
    requires CreateCheckout(db, r).Ok? && ActiveGroup(db.groups, r.cart).None? && r.via !in {Wallet, Financed}
    ensures var (n, g) := CreateCheckout(db, r).value;
            && g == |db.groups| < |n.groups| && n.groups[g].input == r.input && n.groups[g].activeCart == Some(r.cart)
            && n.groups[g].user == r.user && n.groups[g].via == r.via && n.groups[g].status == Pending
            && ActiveGroup(n.groups, r.cart) == Some(g)
  {
    hide Q.QuoteCart, PlaceOrders;
  }

  /** Submitting the same input again, in whatever key order, answers with the checkout just made. */
  lemma ResubmissionFindsIt(db: Db, r: Request, again: Request)
    requires CreateCheckout(db, r).Ok? && ActiveGroup(db.groups, r.cart).None? && r.via !in {Wallet, Financed}
    requires again.cart == r.cart && again.via != Financed
    requires F.WellFormed(r.input) && F.WellFormed(again.input) && F.Equivalent(r.input, again.input)
    ensures var (n, g) := CreateCheckout(db, r).value; CreateCheckout(n, again) == Ok((n, g))
  {
    NewGroupRecords(db, r);
    F.CanonicalDecides(r.input, again.input);
    var (n, g) := CreateCheckout(db, r).value;
    Resumed(n, again, g);
  }

  lemma Resumed(db: Db, r: Request, g: nat)
    requires ActiveGroup(db.groups, r.cart) == Some(g) && r.via != Financed
    requires F.Canonical(db.groups[g].input) == F.Canonical(r.input)
    ensures CreateCheckout(db, r) == Ok((db, g))
  {
    hide ActiveGroup, F.Canonical;
  }

  // ----- vouchers bought with points -----

  predicate HasVoucher(db: Db, user: nat, voucher: nat) {
    exists i :: 0 <= i < |db.claims| && db.claims[i].user == user && db.claims[i].voucher == voucher
  }

  /** A voucher costs its points once; claiming it again is free and changes nothing. */
  lemma VoucherIsPaidOnce(db: Db, user: nat, voucher: nat, cost: nat)
    requires ClaimVoucher(db, user, voucher, cost).Ok?
    ensures var n := ClaimVoucher(db, user, voucher, cost).value;
            && HasVoucher(n, user, voucher)
            && Points(n.points, user) == Points(db.points, user) - (if HasVoucher(db, user, voucher) then 0 else cost)
            && (forall price: nat :: ClaimVoucher(n, user, voucher, price) == Ok(n))
  {
    var n := ClaimVoucher(db, user, voucher, cost).value;
    if !HasVoucher(db, user, voucher) {
      assert n.claims[|db.claims|] == Claim(user, voucher, cost);
    }
  }
}
