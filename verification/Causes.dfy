/** Nothing becomes of a payment or a group but for cause, and every cause goes back to what the provider said. */
module Causes {
  import opened Outcome
  import opened OrderLife
  import opened Shop
  import opened Invariant
  import opened Resolution
  import opened Paying
  import opened Progress
  import opened Runs
  import U = Submission
  import P = Placement
  import Q = Quote
  import F = Fingerprint
  import L = Ledger

  // ----- reading -----

  /** Reading is refused for an unknown payment, another amount or another provider, and for nothing else. */
  lemma ReadDecided(db: Db, p: nat, reported: int, answer: Answer)
    ensures BeginVerify(db, p, reported, answer).Ok? <==>
      && p < |db.payments| && reported == db.payments[p].amount
      && db.payments[p].provider == (if answer == KlumpSuccess then Klump else Paystack)
    ensures BeginVerify(db, p, reported, answer).Ok? ==>
      BeginVerify(db, p, reported, answer).value
      == if answer != KlumpSuccess && db.payments[p].status in {Paid, Refunded, PartiallyRefunded} then db
         else db.(inflight := db.inflight + [Verification(p, GroupsOf(db.groups, p), answer)])
  {
    hide GroupsOf;
  }

  // ----- which steps touch these rows -----

  ghost predicate PayRowsKept(db: Db, n: Db) {
    n.inflight == db.inflight && n.payments == db.payments && n.groups == db.groups
  }

  lemma HoldKeepsRows(db: Db, o: nat)
    requires o < |db.orders| && HoldEarning(db, o).Ok?
    ensures PayRowsKept(db, HoldEarning(db, o).value)
  {
    hide L.Post, L.Find;
  }

  lemma HandOverKeepsRows(db: Db, rider: nat, o: nat, credential: bool)
    requires ConfirmDelivery(db, rider, o, credential).Ok?
    ensures PayRowsKept(db, ConfirmDelivery(db, rider, o, credential).value)
  {
    hide L.Post, L.Find, Move, Points;
  }

  lemma ClaimKeepsRows(db: Db, rider: nat, o: nat)
    requires ClaimDelivery(db, rider, o).Ok?
    ensures PayRowsKept(db, ClaimDelivery(db, rider, o).value)
  {
    hide HoldEarning, Move;
    var claimed := Move(db.orders[o], RiderAssigned).(delivery := Some(Delivery(Some(rider), Assigned)));
    HoldKeepsRows(SetOrder(db, o, claimed), o);
  }

  lemma OrderStepKeepsRows(db: Db, step: Step)
    requires Orders(step) && !step.CancelPaid? && !step.SyncPayment? && Attempt(db, step).Ok?
    ensures PayRowsKept(db, Attempt(db, step).value)
  {
    hide ClaimDelivery, ConfirmDelivery, Move, CanTransition, Points;
    if step.ClaimBy? {
      ClaimKeepsRows(db, step.rider, step.order);
    } else if step.HandOver? {
      HandOverKeepsRows(db, step.rider, step.order, step.credential);
    } else {
      RowStepKeepsRows(db, step);
    }
  }

  lemma RowStepKeepsRows(db: Db, step: Step)
    requires step.WriteRefund? || step.StoreMove? || step.AdminMove? || step.Pack? || step.Report? || step.PickUp?
    requires Attempt(db, step).Ok?
    ensures PayRowsKept(db, Attempt(db, step).value)
  {
    hide Move, CanTransition, Points, DeliveryMoves;
  }

  lemma WalletStepKeepsRows(db: Db, step: Step)
    requires !Payments(step) && !Orders(step) && Attempt(db, step).Ok?
    ensures PayRowsKept(db, Attempt(db, step).value)
  {
    hide L.Post, L.Find, Dropped;
  }

  /** A refund step writes the status of the refunded payment and nothing else of these rows. */
  ghost predicate RefundWritten(db: Db, n: Db, p: nat) {
    && n.inflight == db.inflight && n.groups == db.groups && p < |db.payments|
    && (n.payments == db.payments
        || n.payments == db.payments[p := db.payments[p].(status := Refunded)]
        || n.payments == db.payments[p := db.payments[p].(status := PartiallyRefunded)])
  }

  lemma SyncWrites(db: Db, p: nat)
    requires SyncRefund(db, p).Ok?
    ensures RefundWritten(db, SyncRefund(db, p).value, p)
  {
    hide RefundedSum;
  }

  lemma CancelWrites(db: Db, user: nat, o: nat)
    requires CancelOrder(db, user, o).Ok?
    ensures o < |db.orders| && db.orders[o].key.group < |db.groups| && db.groups[db.orders[o].key.group].payment.Some?
    ensures RefundWritten(db, CancelOrder(db, user, o).value, db.groups[db.orders[o].key.group].payment.value)
  {
    hide ReturnLines, CreditBack, RefundRow, RefundedSum, ReverseSettlement, CallOff;
  }

  // ----- verification -----

  function StatusFor(answer: Answer): PayStatus {
    if answer == Failure then Failed else Paid
  }

  /** A verification writes its payment as the answer says, and its group with it, or neither. */
  ghost predicate AnswerWritten(db: Db, n: Db, v: Verification) {
    && v.payment < |db.payments| && |v.groups| == 1 && v.groups[0] < |db.groups|
    && var p, g, s := v.payment, v.groups[0], StatusFor(v.answer);
       && (n.payments == db.payments || n.payments == db.payments[p := db.payments[p].(status := s)])
       && (n.groups == db.groups
           || (n.payments != db.payments && n.groups == db.groups[g := db.groups[g].(status := s, activeCart := None)]))
  }

  lemma PendingVerified(db: Db, v: Verification, n: Db)
    requires Inv(db) && VerificationOk(v, db.groups, db.payments) && db.groups[v.groups[0]].status == Processing
    requires (if v.answer == KlumpSuccess then VerifyKlump(db, v) else VerifyPaystack(db, v)) == Ok(n)
    ensures AnswerWritten(db, n, v) && n.inflight == db.inflight
  {
    hide Inv, CompleteGroup, FailGroup, VerifyKlump, VerifyPaystack, ReadyToComplete, ReadyToRelease, GroupsOf;
    var g, p := v.groups[0], v.payment;
    PayerFacts(db, g, p);
    assert v.groups == [g];
    VerifyUnfolds(db, v, g);
    ProcessingPays(db, g);
    if v.answer == Failure {
      FailGroupRestores(SetPayment(db, p, Failed), g);
      assert SetPayment(db, p, Failed).payments[p].status != db.payments[p].status;
    } else {
      CompleteGroupRestores(SetPayment(db, p, Paid), g);
      assert SetPayment(db, p, Paid).payments[p].status != db.payments[p].status;
    }
  }

  lemma ResolvedVerified(db: Db, v: Verification, n: Db)
    requires Inv(db) && VerificationOk(v, db.groups, db.payments) && Resolved(db.groups[v.groups[0]])
    requires (if v.answer == KlumpSuccess then VerifyKlump(db, v) else VerifyPaystack(db, v)) == Ok(n)
    ensures AnswerWritten(db, n, v) && n.inflight == db.inflight
  {
    hide Inv, VerifyKlump, VerifyPaystack, RefundGroups, GroupsOf, Units;
    var g, p := v.groups[0], v.payment;
    PayerFacts(db, g, p);
    assert v.groups == [g];
    if v.answer == KlumpSuccess {
      KlumpResolved(db, v, g);
    } else if db.payments[p].status == Failed && v.answer == Success {
      LateUnfolds(db, v);
      LateRefundsRestore(db, g);
    } else {
      RewritesStatusOnly(db, v);
      StaleOtherwise(db, v, g);
    }
  }

  lemma VerifiedWrites(db: Db, v: Verification, n: Db)
    requires Inv(db) && VerificationOk(v, db.groups, db.payments)
    requires (if v.answer == KlumpSuccess then VerifyKlump(db, v) else VerifyPaystack(db, v)) == Ok(n)
    ensures AnswerWritten(db, n, v) && n.inflight == db.inflight
  {
    PayerFacts(db, v.groups[0], v.payment);
    hide Inv, VerifyKlump, VerifyPaystack, AnswerWritten, GroupsOf;
    if db.groups[v.groups[0]].status == Processing {
      PendingVerified(db, v, n);
    } else {
      ResolvedVerified(db, v, n);
    }
  }

  /** The verification at position `i`, and no other, is finished and gone. */
  lemma FinishWrites(db: Db, i: nat)
    requires Inv(db) && FinishVerify(db, i).Ok?
    ensures i < |db.inflight| && AnswerWritten(db, FinishVerify(db, i).value, db.inflight[i])
    ensures FinishVerify(db, i).value.inflight == db.inflight[..i] + db.inflight[i + 1..]
  {
    DropInflight(db, i);
    var rest := db.(inflight := db.inflight[..i] + db.inflight[i + 1..]);
    hide Inv, VerifyPaystack, VerifyKlump, VerificationOk, AnswerWritten;
    VerifiedWrites(rest, db.inflight[i], FinishVerify(db, i).value);
    SameAnswer(db, rest, FinishVerify(db, i).value, db.inflight[i]);
  }

  lemma SameAnswer(db: Db, rest: Db, n: Db, v: Verification)
    requires AnswerWritten(rest, n, v) && rest.payments == db.payments && rest.groups == db.groups
    ensures AnswerWritten(db, n, v)
  {
  }

  // ----- the other payment steps -----

  /** Giving up writes the group FAILED, and its payment with it. */
  lemma ReleaseWrites(db: Db, user: nat, g: nat)
    requires Inv(db) && CancelCheckout(db, user, g).Ok?
    ensures g < |db.groups| && db.groups[g].user == user
    ensures var n := CancelCheckout(db, user, g).value;
            && n.inflight == db.inflight
            && (n.groups == db.groups
                || (!Resolved(db.groups[g]) && n.groups == db.groups[g := db.groups[g].(status := Failed, activeCart := None)]))
            && (n.payments == db.payments
                || (&& db.groups[g].payment.Some? && db.groups[g].payment.value < |db.payments| && !Resolved(db.groups[g])
                    && n.payments == SetPayment(db, db.groups[g].payment.value, Failed).payments))
  {
    var row := db.groups[g];
    assert GroupOk(g, row, db.orders, db.payments);
    if row.status != Failed {
      if row.payment.Some? {
        hide Inv, FailGroup, ReadyToComplete, ReadyToRelease;
        ProcessingPays(db, g);
        FailGroupRestores(SetPayment(db, row.payment.value, Failed), g);
      } else {
        P.InvToBut(db, g);
        assert ReadyToRelease(db, g);
        hide Inv, FailGroup, ReadyToRelease;
        FailGroupRestores(db, g);
      }
    }
  }

  /** Starting a payment appends it and marks the group PROCESSING. */
  ghost predicate Started(db: Db, n: Db, g: nat, user: nat, provider: Provider) {
    && g < |db.groups| && db.groups[g].user == user && n.inflight == db.inflight
    && (|| (n.groups == db.groups && n.payments == db.payments)
        || (&& db.groups[g].payment.None? && db.groups[g].status != Failed
            && n.payments == db.payments + [Payment(db.groups[g].total, provider, Pending)]
            && n.groups == db.groups[g := db.groups[g].(payment := Some(|db.payments|), status := Processing)]))
  }

  lemma StartWrites(db: Db, user: nat, g: nat)
    ensures InitializePaystack(db, user, g).Ok? ==> Started(db, InitializePaystack(db, user, g).value, g, user, Paystack)
    ensures InitializeKlump(db, user, g).Ok? ==> Started(db, InitializeKlump(db, user, g).value, g, user, Klump)
  {
    hide SumNaira, WholeNaira;
  }

  /** A checkout appends its group, perhaps with a payment made of the wallet or the credit. */
  lemma CheckoutWrites(db: Db, r: Request)
    requires Inv(db) && CreateCheckout(db, r).Ok?
    ensures var n := CreateCheckout(db, r).value.0;
            && n.inflight == db.inflight && |db.groups| <= |n.groups| && n.groups[..|db.groups|] == db.groups
            && |db.payments| <= |n.payments| && n.payments[..|db.payments|] == db.payments
            && (forall p :: |db.payments| <= p < |n.payments| ==> n.payments[p].provider == Manual && n.payments[p].status == Paid)
            && (forall g :: |db.groups| <= g < |n.groups| ==>
              if n.groups[g].via in {Wallet, Financed} then n.groups[g].status == Paid
              else n.groups[g].status == Pending && n.groups[g].payment.None?)
  {
    if ActiveGroup(db.groups, r.cart).None? {
      hide Inv, CreateCheckout, Q.QuoteCart;
      U.CheckoutFollowsQuote(db, r);
      hide U.OrderOfQuote;
      var n := CreateCheckout(db, r).value.0;
      assert n.payments[..|db.payments|] == db.payments;
    } else {
      hide Inv, PlaceQuoted, Q.QuoteCart, F.Canonical;
    }
  }

  // ----- causes -----

  /** A verification of the payment that is being finished, with its answer. */
  predicate Finishes(db: Db, step: Step, p: nat, success: bool) {
    && step.Verify? && step.index < |db.inflight| && db.inflight[step.index].payment == p
    && (success <==> db.inflight[step.index].answer != Failure)
  }

  /** The owner of the payment's unresolved checkout gives it up. */
  predicate GivesUp(db: Db, step: Step, g: nat) {
    && step.ReleaseCheckout? && step.group == g && g < |db.groups| && db.groups[g].user == step.user
    && !Resolved(db.groups[g])
  }

  ghost predicate PaymentCause(db: Db, step: Step, p: nat, status: PayStatus) {
    match status
    case Paid => Finishes(db, step, p, true)
    case Failed => Finishes(db, step, p, false) || (exists g: nat :: GivesUp(db, step, g) && db.groups[g].payment == Some(p))
    case Refunded => step.CancelPaid? || step.SyncPayment?
    case PartiallyRefunded => step.CancelPaid? || step.SyncPayment?
    case _ => false
  }

  ghost predicate GroupCause(db: Db, step: Step, g: nat, status: PayStatus)
    requires g < |db.groups|
  {
    match status
    case Paid => db.groups[g].payment.Some? && Finishes(db, step, db.groups[g].payment.value, true)
    case Failed =>
      (db.groups[g].payment.Some? && Finishes(db, step, db.groups[g].payment.value, false)) || GivesUp(db, step, g)
    case Processing =>
      (step.StartPaystack? || step.StartKlump?) && step.group == g && step.user == db.groups[g].user
    case _ => false
  }

  /** Every status a payment or a group takes, it takes for cause. */
  ghost predicate ForCause(db: Db, n: Db, step: Step) {
    && |db.payments| <= |n.payments| && |db.groups| <= |n.groups|
    && (forall p :: 0 <= p < |db.payments| && n.payments[p].status != db.payments[p].status ==>
      PaymentCause(db, step, p, n.payments[p].status))
    && (forall g :: 0 <= g < |db.groups| && n.groups[g].status != db.groups[g].status ==>
      GroupCause(db, step, g, n.groups[g].status))
  }

  lemma KeptForCause(db: Db, n: Db, step: Step)
    requires PayRowsKept(db, n)
    ensures ForCause(db, n, step)
  {
  }

  lemma VerifyForCause(db: Db, i: nat)
    requires Inv(db) && FinishVerify(db, i).Ok?
    ensures ForCause(db, FinishVerify(db, i).value, Verify(i))
  {
    FinishWrites(db, i);
    assert VerificationOk(db.inflight[i], db.groups, db.payments);
    hide Inv, FinishVerify;
  }

  lemma ReleaseForCause(db: Db, user: nat, g: nat)
    requires Inv(db) && CancelCheckout(db, user, g).Ok?
    ensures ForCause(db, CancelCheckout(db, user, g).value, ReleaseCheckout(user, g))
  {
    ReleaseWrites(db, user, g);
    hide Inv, CancelCheckout;
    var step := ReleaseCheckout(user, g);
    assert !Resolved(db.groups[g]) ==> GivesUp(db, step, g);
  }

  lemma PaymentStepForCause(db: Db, step: Step)
    requires Inv(db) && Payments(step) && Attempt(db, step).Ok?
    ensures ForCause(db, Attempt(db, step).value, step)
  {
    hide Inv, ForCause, CreateCheckout, InitializePaystack, InitializeKlump, BeginVerify, FinishVerify, RecheckPaid, CancelCheckout;
    match step
    case Checkout(r) =>
      CheckoutWrites(db, r);
      AppendedForCause(db, CreateCheckout(db, r).value.0, step);
    case StartPaystack(user, g) =>
      StartWrites(db, user, g);
      StartedForCause(db, InitializePaystack(db, user, g).value, step, Paystack);
    case StartKlump(user, g) =>
      StartWrites(db, user, g);
      StartedForCause(db, InitializeKlump(db, user, g).value, step, Klump);
    case ReadAnswer(p, reported, answer) =>
      ReadDecided(db, p, reported, answer);
      ReadForCause(db, BeginVerify(db, p, reported, answer).value, step);
    case Verify(i) =>
      VerifyForCause(db, i);
    case Recheck(p) =>
      RecheckChangesNothing(db, p);
      KeptForCause(db, db, step);
    case ReleaseCheckout(user, g) =>
      ReleaseForCause(db, user, g);
    case _ =>
  }

  lemma AppendedForCause(db: Db, n: Db, step: Step)
    requires |db.groups| <= |n.groups| && n.groups[..|db.groups|] == db.groups
    requires |db.payments| <= |n.payments| && n.payments[..|db.payments|] == db.payments
    ensures ForCause(db, n, step)
  {
    forall p | 0 <= p < |db.payments| ensures n.payments[p] == db.payments[p] {
      assert n.payments[p] == n.payments[..|db.payments|][p];
    }
    forall g | 0 <= g < |db.groups| ensures n.groups[g] == db.groups[g] {
      assert n.groups[g] == n.groups[..|db.groups|][g];
    }
  }

  lemma StartedForCause(db: Db, n: Db, step: Step, provider: Provider)
    requires step.StartPaystack? || step.StartKlump?
    requires Started(db, n, step.group, step.user, provider)
    ensures ForCause(db, n, step)
  {
  }

  lemma ReadForCause(db: Db, n: Db, step: Step)
    requires n.payments == db.payments && n.groups == db.groups
    ensures ForCause(db, n, step)
  {
  }

  lemma OrderStepForCause(db: Db, step: Step)
    requires Orders(step) && Attempt(db, step).Ok?
    ensures ForCause(db, Attempt(db, step).value, step)
  {
    hide CancelOrder, SyncRefund, ForCause;
    if step.CancelPaid? {
      CancelWrites(db, step.user, step.order);
      RefundForCause(db, Attempt(db, step).value, step, db.groups[db.orders[step.order].key.group].payment.value);
    } else if step.SyncPayment? {
      var p := db.orders[step.order].refund.value.payment;
      SyncWrites(db, p);
      RefundForCause(db, Attempt(db, step).value, step, p);
    } else {
      hide Attempt;
      OrderStepKeepsRows(db, step);
      KeptForCause(db, Attempt(db, step).value, step);
    }
  }

  lemma RefundForCause(db: Db, n: Db, step: Step, p: nat)
    requires RefundWritten(db, n, p) && (step.CancelPaid? || step.SyncPayment?)
    ensures ForCause(db, n, step)
  {
  }

  /** Whatever is attempted: no payment and no group changes its status but for cause. */
  lemma NothingWithoutCause(db: Db, step: Step)
    requires Inv(db)
    ensures ForCause(db, Apply(db, step), step)
  {
    hide Inv, Attempt, ForCause, PayRowsKept;
    if Attempt(db, step).Err? {
      Untouched(db, step);
    } else if Payments(step) {
      PaymentStepForCause(db, step);
    } else if Orders(step) {
      OrderStepForCause(db, step);
    } else {
      WalletStepKeepsRows(db, step);
      KeptForCause(db, Attempt(db, step).value, step);
    }
  }

  lemma Untouched(db: Db, step: Step)
    ensures ForCause(db, db, step)
  {
  }

  // ----- back to what the provider said -----

  predicate IsReading(step: Step, p: nat, amount: nat, answer: Answer) {
    step == ReadAnswer(p, amount, answer)
  }

  /** At some point of the run the provider gave this answer for the payment, and exactly this amount. */
  ghost predicate WasRead(steps: seq<Step>, p: nat, amount: nat, answer: Answer) {
    exists i :: 0 <= i < |steps| && IsReading(steps[i], p, amount, answer)
  }

  lemma WasReadStays(steps: seq<Step>, step: Step, p: nat, amount: nat, answer: Answer)
    ensures WasRead(steps, p, amount, answer) ==> WasRead(steps + [step], p, amount, answer)
    ensures IsReading(step, p, amount, answer) ==> WasRead(steps + [step], p, amount, answer)
  {
    var more := steps + [step];
    if WasRead(steps, p, amount, answer) {
      var i :| 0 <= i < |steps| && IsReading(steps[i], p, amount, answer);
      assert IsReading(more[i], p, amount, answer);
    }
    if IsReading(step, p, amount, answer) {
      assert IsReading(more[|steps|], p, amount, answer);
    }
  }

  /** Each verification under way was read, for exactly its payment's amount and with its answer. */
  ghost predicate InflightTraced(db: Db, steps: seq<Step>) {
    forall i :: 0 <= i < |db.inflight| ==>
      var v := db.inflight[i];
      v.payment < |db.payments| && WasRead(steps, v.payment, db.payments[v.payment].amount, v.answer)
  }

  ghost predicate SuccessRead(db: Db, steps: seq<Step>, p: nat) {
    && p < |db.payments|
    && (WasRead(steps, p, db.payments[p].amount, Success) || WasRead(steps, p, db.payments[p].amount, KlumpSuccess))
  }

  ghost predicate FailureRead(db: Db, steps: seq<Step>, p: nat) {
    p < |db.payments| && WasRead(steps, p, db.payments[p].amount, Failure)
  }

  predicate IsRelease(step: Step, g: nat) {
    step.ReleaseCheckout? && step.group == g
  }

  ghost predicate WasGivenUp(steps: seq<Step>, g: nat) {
    exists i :: 0 <= i < |steps| && IsRelease(steps[i], g)
  }

  ghost predicate PayerGaveUp(db: Db, steps: seq<Step>, p: nat) {
    exists g :: 0 <= g < |db.groups| && PaidBy(db.groups[g], p) && WasGivenUp(steps, g)
  }

  ghost predicate GroupsTraced(db: Db, steps: seq<Step>) {
    forall g :: 0 <= g < |db.groups| && db.groups[g].via !in {Wallet, Financed} ==>
      && (db.groups[g].status == Paid ==> db.groups[g].payment.Some? && SuccessRead(db, steps, db.groups[g].payment.value))
      && (db.groups[g].status == Failed ==>
        WasGivenUp(steps, g) || (db.groups[g].payment.Some? && FailureRead(db, steps, db.groups[g].payment.value)))
  }

  ghost predicate PaymentsTraced(db: Db, steps: seq<Step>) {
    forall p :: 0 <= p < |db.payments| && db.payments[p].provider != Manual ==>
      && (db.payments[p].status == Paid ==> SuccessRead(db, steps, p))
      && (db.payments[p].status == Failed ==> FailureRead(db, steps, p) || PayerGaveUp(db, steps, p))
  }

  ghost predicate Traced(db: Db, steps: seq<Step>) {
    InflightTraced(db, steps) && GroupsTraced(db, steps) && PaymentsTraced(db, steps)
  }

  /** New rows are untold: groups that wait, payments that wait, or money already there. */
  ghost predicate NewRowsFresh(db: Db, n: Db) {
    && |db.groups| <= |n.groups| && |db.payments| <= |n.payments|
    && (forall g :: |db.groups| <= g < |n.groups| ==> n.groups[g].via in {Wallet, Financed} || n.groups[g].status == Pending)
    && (forall p :: |db.payments| <= p < |n.payments| ==> n.payments[p].provider == Manual || n.payments[p].status == Pending)
  }

  /** Verifications under way are the old ones, less the finished one, or the one just read. */
  ghost predicate InflightFresh(db: Db, n: Db, step: Step) {
    forall i :: 0 <= i < |n.inflight| ==>
      || (exists j :: 0 <= j < |db.inflight| && SameAs(db.inflight[j], n.inflight[i]))
      || (n.inflight[i].payment < |db.payments|
          && IsReading(step, n.inflight[i].payment, db.payments[n.inflight[i].payment].amount, n.inflight[i].answer))
  }

  predicate SameAs(a: Verification, b: Verification) {
    a == b
  }

  lemma KeptInflight(db: Db, n: Db, step: Step)
    requires n.inflight == db.inflight
    ensures InflightFresh(db, n, step)
  {
    forall i | 0 <= i < |n.inflight| ensures exists j :: 0 <= j < |db.inflight| && SameAs(db.inflight[j], n.inflight[i]) {
      assert SameAs(db.inflight[i], n.inflight[i]);
    }
  }

  lemma FinishedInflight(db: Db, n: Db, step: Step, k: nat)
    requires k < |db.inflight| && n.inflight == db.inflight[..k] + db.inflight[k + 1..]
    ensures InflightFresh(db, n, step)
  {
    forall i | 0 <= i < |n.inflight| ensures exists j :: 0 <= j < |db.inflight| && SameAs(db.inflight[j], n.inflight[i]) {
      assert SameAs(db.inflight[if i < k then i else i + 1], n.inflight[i]);
    }
  }

  lemma ReadInflight(db: Db, p: nat, reported: int, answer: Answer)
    requires BeginVerify(db, p, reported, answer).Ok?
    ensures InflightFresh(db, BeginVerify(db, p, reported, answer).value, ReadAnswer(p, reported, answer))
  {
    ReadDecided(db, p, reported, answer);
    var n, step := BeginVerify(db, p, reported, answer).value, ReadAnswer(p, reported, answer);
    forall i | 0 <= i < |n.inflight|
      ensures
        || (exists j :: 0 <= j < |db.inflight| && SameAs(db.inflight[j], n.inflight[i]))
        || (n.inflight[i].payment < |db.payments|
            && IsReading(step, n.inflight[i].payment, db.payments[n.inflight[i].payment].amount, n.inflight[i].answer))
    {
      if i < |db.inflight| {
        assert SameAs(db.inflight[i], n.inflight[i]);
      }
    }
  }

  lemma PaymentStepIsFresh(db: Db, step: Step)
    requires Inv(db) && Payments(step) && Attempt(db, step).Ok?
    ensures InflightFresh(db, Attempt(db, step).value, step) && NewRowsFresh(db, Attempt(db, step).value)
  {
    hide Inv, InflightFresh, CreateCheckout, InitializePaystack, InitializeKlump, BeginVerify, FinishVerify, RecheckPaid, CancelCheckout;
    match step
    case Checkout(r) =>
      CheckoutWrites(db, r);
      KeptInflight(db, CreateCheckout(db, r).value.0, step);
    case StartPaystack(user, g) =>
      StartWrites(db, user, g);
      KeptInflight(db, InitializePaystack(db, user, g).value, step);
    case StartKlump(user, g) =>
      StartWrites(db, user, g);
      KeptInflight(db, InitializeKlump(db, user, g).value, step);
    case ReadAnswer(p, reported, answer) =>
      ReadDecided(db, p, reported, answer);
      ReadInflight(db, p, reported, answer);
    case Verify(i) =>
      FinishWrites(db, i);
      FinishedInflight(db, FinishVerify(db, i).value, step, i);
    case Recheck(p) =>
      RecheckChangesNothing(db, p);
      KeptInflight(db, db, step);
    case ReleaseCheckout(user, g) =>
      ReleaseWrites(db, user, g);
      KeptInflight(db, CancelCheckout(db, user, g).value, step);
    case _ =>
  }

  lemma OrderStepIsFresh(db: Db, step: Step)
    requires Orders(step) && Attempt(db, step).Ok?
    ensures InflightFresh(db, Attempt(db, step).value, step) && NewRowsFresh(db, Attempt(db, step).value)
  {
    hide CancelOrder, SyncRefund, InflightFresh;
    if step.CancelPaid? {
      CancelWrites(db, step.user, step.order);
    } else if step.SyncPayment? {
      SyncWrites(db, db.orders[step.order].refund.value.payment);
    } else {
      hide Attempt;
      OrderStepKeepsRows(db, step);
    }
    KeptInflight(db, Attempt(db, step).value, step);
  }

  lemma StepIsFresh(db: Db, step: Step)
    requires Inv(db)
    ensures InflightFresh(db, Apply(db, step), step) && NewRowsFresh(db, Apply(db, step))
  {
    hide Inv, Attempt, InflightFresh;
    if Attempt(db, step).Err? {
      KeptInflight(db, db, step);
    } else if Payments(step) {
      PaymentStepIsFresh(db, step);
    } else if Orders(step) {
      OrderStepIsFresh(db, step);
    } else {
      WalletStepKeepsRows(db, step);
      KeptInflight(db, Attempt(db, step).value, step);
    }
  }

  lemma InflightTracedOn(db: Db, n: Db, step: Step, steps: seq<Step>)
    requires InflightTraced(db, steps) && InflightFresh(db, n, step) && PaymentsEvolve(db.payments, n.payments)
    ensures InflightTraced(n, steps + [step])
  {
    forall i | 0 <= i < |n.inflight|
      ensures var v := n.inflight[i];
              v.payment < |n.payments| && WasRead(steps + [step], v.payment, n.payments[v.payment].amount, v.answer)
    {
      var v := n.inflight[i];
      if exists j :: 0 <= j < |db.inflight| && SameAs(db.inflight[j], v) {
        var j :| 0 <= j < |db.inflight| && SameAs(db.inflight[j], v);
        assert v.payment < |db.payments| && WasRead(steps, v.payment, db.payments[v.payment].amount, v.answer);
      }
      WasReadStays(steps, step, v.payment, n.payments[v.payment].amount, v.answer);
    }
    hide WasRead;
  }

  lemma SuccessStays(db: Db, n: Db, step: Step, steps: seq<Step>, p: nat)
    requires PaymentsEvolve(db.payments, n.payments)
    ensures SuccessRead(db, steps, p) ==> SuccessRead(n, steps + [step], p)
    ensures FailureRead(db, steps, p) ==> FailureRead(n, steps + [step], p)
  {
    if p < |db.payments| {
      WasReadStays(steps, step, p, db.payments[p].amount, Success);
      WasReadStays(steps, step, p, db.payments[p].amount, KlumpSuccess);
      WasReadStays(steps, step, p, db.payments[p].amount, Failure);
    }
    hide WasRead;
  }

  lemma FinishedWasRead(db: Db, n: Db, step: Step, steps: seq<Step>, p: nat)
    requires InflightTraced(db, steps) && PaymentsEvolve(db.payments, n.payments)
    ensures Finishes(db, step, p, true) ==> SuccessRead(n, steps + [step], p)
    ensures Finishes(db, step, p, false) ==> FailureRead(n, steps + [step], p)
  {
    if step.Verify? && step.index < |db.inflight| {
      var v := db.inflight[step.index];
      assert WasRead(steps, v.payment, db.payments[v.payment].amount, v.answer);
    }
    hide WasRead;
    SuccessStays(db, n, step, steps, p);
  }

  lemma GivenUpStays(steps: seq<Step>, step: Step, g: nat)
    ensures WasGivenUp(steps, g) ==> WasGivenUp(steps + [step], g)
    ensures IsRelease(step, g) ==> WasGivenUp(steps + [step], g)
  {
    var more := steps + [step];
    if WasGivenUp(steps, g) {
      var i :| 0 <= i < |steps| && IsRelease(steps[i], g);
      assert IsRelease(more[i], g);
    }
    if IsRelease(step, g) {
      assert IsRelease(more[|steps|], g);
    }
  }

  lemma GroupsTracedOn(db: Db, n: Db, step: Step, steps: seq<Step>)
    requires InflightTraced(db, steps) && GroupsTraced(db, steps) && ForCause(db, n, step) && NewRowsFresh(db, n)
    requires PaymentsEvolve(db.payments, n.payments) && GroupsEvolve(db.groups, n.groups)
    ensures GroupsTraced(n, steps + [step])
  {
    hide SuccessRead, FailureRead, WasGivenUp, InflightTraced, PaymentCause, PaymentsEvolve, Finishes;
    forall g | 0 <= g < |n.groups| && n.groups[g].via !in {Wallet, Financed}
      ensures n.groups[g].status == Paid ==>
                n.groups[g].payment.Some? && SuccessRead(n, steps + [step], n.groups[g].payment.value)
      ensures n.groups[g].status == Failed ==>
                WasGivenUp(steps + [step], g)
                || (n.groups[g].payment.Some? && FailureRead(n, steps + [step], n.groups[g].payment.value))
    {
      if g < |db.groups| {
        assert GroupEvolves(db.groups[g], n.groups[g]);
        GivenUpStays(steps, step, g);
        if db.groups[g].payment.Some? {
          SuccessStays(db, n, step, steps, db.groups[g].payment.value);
          FinishedWasRead(db, n, step, steps, db.groups[g].payment.value);
        }
      }
    }
  }

  lemma PayerStays(db: Db, n: Db, step: Step, steps: seq<Step>, p: nat)
    requires GroupsEvolve(db.groups, n.groups)
    ensures PayerGaveUp(db, steps, p) ==> PayerGaveUp(n, steps + [step], p)
    ensures (exists g: nat :: GivesUp(db, step, g) && db.groups[g].payment == Some(p)) ==> PayerGaveUp(n, steps + [step], p)
  {
    if PayerGaveUp(db, steps, p) {
      var g :| 0 <= g < |db.groups| && PaidBy(db.groups[g], p) && WasGivenUp(steps, g);
      assert GroupEvolves(db.groups[g], n.groups[g]);
      GivenUpStays(steps, step, g);
      assert PaidBy(n.groups[g], p);
    }
    if exists g: nat :: GivesUp(db, step, g) && db.groups[g].payment == Some(p) {
      var g: nat :| GivesUp(db, step, g) && db.groups[g].payment == Some(p);
      assert GroupEvolves(db.groups[g], n.groups[g]) && IsRelease(step, g);
      GivenUpStays(steps, step, g);
      assert PaidBy(n.groups[g], p);
    }
  }

  lemma PaymentsTracedOn(db: Db, n: Db, step: Step, steps: seq<Step>)
    requires InflightTraced(db, steps) && PaymentsTraced(db, steps) && ForCause(db, n, step) && NewRowsFresh(db, n)
    requires PaymentsEvolve(db.payments, n.payments) && GroupsEvolve(db.groups, n.groups)
    ensures PaymentsTraced(n, steps + [step])
  {
    hide SuccessRead, FailureRead, PayerGaveUp, InflightTraced, GroupCause, GroupsEvolve, Finishes;
    forall p | 0 <= p < |n.payments| && n.payments[p].provider != Manual
      ensures n.payments[p].status == Paid ==> SuccessRead(n, steps + [step], p)
      ensures n.payments[p].status == Failed ==> FailureRead(n, steps + [step], p) || PayerGaveUp(n, steps + [step], p)
    {
      if p < |db.payments| {
        SuccessStays(db, n, step, steps, p);
        FinishedWasRead(db, n, step, steps, p);
        PayerStays(db, n, step, steps, p);
      }
    }
  }

  /**
   Over any run from an empty shop: every verification under way, every group paid through a
   provider, every payment that says PAID or FAILED goes back to an answer the provider gave for
   that payment and exactly its amount, or, FAILED, to the owner giving up.
   */
  lemma {:induction false} EveryOutcomeWasReported(start: Db, steps: seq<Step>)
    requires Blank(start)
    ensures Traced(Run(start, steps), steps)
  {
    if steps != [] {
      var k := |steps| - 1;
      var db, step := Run(start, steps[..k]), steps[k];
      EveryRunIsConsistent(start, steps[..k]);
      EveryOutcomeWasReported(start, steps[..k]);
      hide Inv, Apply, Traced, Blank;
      TracedOn(db, step, steps[..k]);
      assert steps[..k] + [step] == steps;
    } else {
      NothingToTrace(start);
    }
  }

  lemma NothingToTrace(start: Db)
    requires Blank(start)
    ensures Traced(start, [])
  {
  }

  lemma TracedOn(db: Db, step: Step, steps: seq<Step>)
    requires Inv(db) && Traced(db, steps)
    ensures Traced(Apply(db, step), steps + [step])
  {
    hide Inv, Apply, InflightTraced, GroupsTraced, PaymentsTraced, ForCause, InflightFresh, NewRowsFresh, Units;
    StepKeeps(db, step);
    NothingWithoutCause(db, step);
    StepIsFresh(db, step);
    var n := Apply(db, step);
    InflightTracedOn(db, n, step, steps);
    GroupsTracedOn(db, n, step, steps);
    PaymentsTracedOn(db, n, step, steps);
  }
}
