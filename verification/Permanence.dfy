/** What can never be undone or made good: exact conditions over all further runs. */
module Permanence {
  import opened Outcome
  import opened Ledger
  import opened OrderLife
  import opened Shop
  import opened Invariant
  import opened Runs
  import opened Guarantees
  import opened WalletGuarantees
  import opened Frames
  import opened Fulfilment
  import P = Paying

  lemma RunOne(db: Db, step: Step)
    ensures Run(db, [step]) == Apply(db, step)
  {
    hide Apply;
    assert [step][..0] == [] && Run(db, []) == db;
  }

  lemma RunTwo(db: Db, a: Step, b: Step)
    ensures Run(db, [a, b]) == Apply(Apply(db, a), b)
  {
    hide Apply;
    RunOne(db, a);
    assert [a, b][..1] == [a];
  }

  lemma RunThree(db: Db, a: Step, b: Step, c: Step)
    ensures Run(db, [a, b, c]) == Apply(Apply(Apply(db, a), b), c)
  {
    hide Apply;
    RunTwo(db, a, b);
    assert [a, b, c][..2] == [a, b];
  }

  // ----- transfers -----

  predicate Handles(c: Receipt, r: nat) {
    c.reference == r
  }

  /** A handler is at work on the transfer. */
  ghost predicate UnderWay(receipts: seq<Receipt>, r: nat) {
    exists i :: 0 <= i < |receipts| && Handles(receipts[i], r)
  }

  /** Its row exists and says PAID, or no handler is left; and its wallet was never credited. */
  ghost predicate Lost(db: Db, r: nat) {
    && r in db.transfers && (db.transfers[r].status == Paid || !UnderWay(db.receipts, r))
    && Find(db.purse.entries, TransferCredit(r)).None?
  }

  lemma DropKeepsOthers(receipts: seq<Receipt>, i: nat, r: nat)
    requires i < |receipts| && UnderWay(Dropped(receipts, i), r)
    ensures UnderWay(receipts, r)
  {
    var rest := Dropped(receipts, i);
    var j :| 0 <= j < |rest| && Handles(rest[j], r);
    assert rest[j] == receipts[if j < i then j else j + 1];
  }

  lemma LostByArrival(db: Db, reference: nat, user: nat, amount: nat, r: nat)
    requires Lost(db, r) && ArriveTransfer(db, reference, user, amount).Ok?
    ensures Lost(ArriveTransfer(db, reference, user, amount).value, r)
  {
    hide Find;
    var after := db.receipts + [Receipt(reference, user, amount, false)];
    if UnderWay(after, r) {
      var i :| 0 <= i < |after| && Handles(after[i], r);
      assert Handles(db.receipts[i], r);
    }
  }

  lemma LostByRecord(db: Db, i: nat, r: nat)
    requires Lost(db, r) && RecordTransfer(db, i).Ok?
    ensures Lost(RecordTransfer(db, i).value, r)
  {
    hide Find;
    var after := RecordTransfer(db, i).value.receipts;
    if UnderWay(after, r) {
      var j :| 0 <= j < |after| && Handles(after[j], r);
      assert Handles(db.receipts[j], r);
    }
  }

  lemma LostByCredit(db: Db, i: nat, r: nat)
    requires Lost(db, r) && CreditTransfer(db, i).Ok?
    ensures Lost(CreditTransfer(db, i).value, r)
  {
    var c := db.receipts[i];
    FindAppend(db.purse.entries, Entry(c.user, Credit, c.amount, TransferCredit(c.reference)), TransferCredit(r));
    hide Find;
    assert Handles(c, r) ==> UnderWay(db.receipts, r);
    if UnderWay(Dropped(db.receipts, i), r) {
      DropKeepsOthers(db.receipts, i, r);
    }
  }

  lemma LostByDrop(db: Db, i: nat, r: nat)
    requires Lost(db, r) && DropTransfer(db, i).Ok?
    ensures Lost(DropTransfer(db, i).value, r)
  {
    hide Find;
    if UnderWay(Dropped(db.receipts, i), r) {
      DropKeepsOthers(db.receipts, i, r);
    }
  }

  lemma LostByTransferStep(db: Db, step: Step, r: nat)
    requires Lost(db, r) && Transfers(step) && Attempt(db, step).Ok?
    ensures Lost(Attempt(db, step).value, r)
  {
    hide Find;
    match step
    case TransferAgain(reference, reported, success) =>
    case TransferArrives(reference, user, amount) =>
      LostByArrival(db, reference, user, amount, r);
    case TransferSeen(i) =>
      LostByRecord(db, i, r);
    case TransferIn(i) =>
      LostByCredit(db, i, r);
    case TransferDropped(i) =>
      LostByDrop(db, i, r);
    case _ =>
  }

  lemma KeptTransfer(db: Db, step: Step)
    requires !Transfers(step)
    ensures TransfersKept(db, Apply(db, step))
  {
    hide Apply, Find;
    if step.HandOver? {
      HandOverKeeps(db, step);
    } else if Topups(step) {
      TopupStepKeeps(db, step);
    } else {
      StepIsQuiet(db, step);
    }
  }

  lemma LostByStep(db: Db, step: Step, r: nat)
    requires Lost(db, r)
    ensures Lost(Apply(db, step), r)
  {
    hide Find;
    if !Transfers(step) {
      KeptTransfer(db, step);
      hide Apply;
    } else {
      hide Attempt;
      if Attempt(db, step).Ok? {
        LostByTransferStep(db, step, r);
      }
    }
  }

  lemma {:induction false} LostForGood(db: Db, steps: seq<Step>, r: nat)
    requires Lost(db, r)
    ensures Lost(Run(db, steps), r)
  {
    hide Apply, Lost;
    if steps != [] {
      LostForGood(db, steps[..|steps| - 1], r);
      LostByStep(Run(db, steps[..|steps| - 1]), steps[|steps| - 1], r);
    }
  }

  /** A handler at work on an uncredited transfer that is not PAID can still credit it, to its own user. */
  lemma HandlerCredits(db: Db, i: nat)
    requires i < |db.receipts|
    requires var r := db.receipts[i].reference;
             && (r in db.transfers ==> db.transfers[r].status != Paid)
             && Find(db.purse.entries, TransferCredit(r)).None?
    ensures var c := db.receipts[i];
            Find(Run(db, [TransferSeen(i), TransferIn(i)]).purse.entries, TransferCredit(c.reference))
            == Some(Entry(c.user, Credit, c.amount, TransferCredit(c.reference)))
  {
    hide Find, Apply, Run, RecordTransfer, CreditTransfer;
    SeenAndCredited(db, i);
    HandlerApplied(db, i);
    RunTwo(db, TransferSeen(i), TransferIn(i));
  }

  lemma HandlerApplied(db: Db, i: nat)
    requires RecordTransfer(db, i).Ok? && CreditTransfer(RecordTransfer(db, i).value, i).Ok?
    ensures Apply(Apply(db, TransferSeen(i)), TransferIn(i)) == CreditTransfer(RecordTransfer(db, i).value, i).value
  {
    hide RecordTransfer, CreditTransfer;
  }

  lemma SeenAndCredited(db: Db, i: nat)
    requires i < |db.receipts|
    requires var r := db.receipts[i].reference;
             && (r in db.transfers ==> db.transfers[r].status != Paid)
             && Find(db.purse.entries, TransferCredit(r)).None?
    ensures var c, seen := db.receipts[i], RecordTransfer(db, i).value;
            && RecordTransfer(db, i).Ok? && CreditTransfer(seen, i).Ok?
            && Find(CreditTransfer(seen, i).value.purse.entries, TransferCredit(c.reference))
               == Some(Entry(c.user, Credit, c.amount, TransferCredit(c.reference)))
  {
    var c := db.receipts[i];
    FindAppend(db.purse.entries, Entry(c.user, Credit, c.amount, TransferCredit(c.reference)), TransferCredit(c.reference));
    hide Find;
  }

  /**
   An uncredited transfer is never credited, over every further run, exactly when it has a row and
   that row is PAID or no handler is at work on it any more.
   */
  lemma TransferIsLostExactly(db: Db, r: nat)
    requires Find(db.purse.entries, TransferCredit(r)).None?
    ensures (forall steps :: Find(Run(db, steps).purse.entries, TransferCredit(r)).None?)
       <==> r in db.transfers && (db.transfers[r].status == Paid || !UnderWay(db.receipts, r))
  {
    if Lost(db, r) {
      forall steps ensures Find(Run(db, steps).purse.entries, TransferCredit(r)).None? {
        LostForGood(db, steps, r);
      }
    } else {
      var steps := CanStillBeCredited(db, r);
    }
  }

  lemma CanStillBeCredited(db: Db, r: nat) returns (steps: seq<Step>)
    requires !Lost(db, r) && Find(db.purse.entries, TransferCredit(r)).None?
    ensures Find(Run(db, steps).purse.entries, TransferCredit(r)).Some?
  {
    if r in db.transfers {
      var i :| 0 <= i < |db.receipts| && Handles(db.receipts[i], r);
      steps := [TransferSeen(i), TransferIn(i)];
      HandlerCredits(db, i);
    } else {
      var i := |db.receipts|;
      var arrives := TransferArrives(r, 0, 1);
      steps := [arrives] + [TransferSeen(i), TransferIn(i)];
      var next := Apply(db, arrives);
      assert next.receipts[i] == Receipt(r, 0, 1, false) && next.purse == db.purse && next.transfers == db.transfers;
      hide Find, Apply;
      HandlerCredits(next, i);
      RunOne(db, arrives);
      RunSplits(db, [arrives], [TransferSeen(i), TransferIn(i)]);
    }
  }

  /** A handler that dies between its halves leaves a PENDING row that nobody will ever credit. */
  lemma CrashLosesTransfer(db: Db, r: nat, user: nat, amount: nat, steps: seq<Step>)
    requires Reachable(db) && amount > 0 && r !in db.transfers && !UnderWay(db.receipts, r)
    ensures var i := |db.receipts|;
            var n := Run(db, [TransferArrives(r, user, amount), TransferSeen(i), TransferDropped(i)]);
            && r in n.transfers && n.transfers[r] == Funding(user, amount, Pending) && n.purse == db.purse
            && Lost(Run(n, steps), r)
  {
    var i := |db.receipts|;
    ReachableIsOk(db);
    hide Reachable;
    assert Find(db.purse.entries, TransferCredit(r)).None?;
    hide Inv, Find;
    RunThree(db, TransferArrives(r, user, amount), TransferSeen(i), TransferDropped(i));
    CrashedHandler(db, r, user, amount);
    hide Apply, Run;
    LostForGood(Run(db, [TransferArrives(r, user, amount), TransferSeen(i), TransferDropped(i)]), steps, r);
  }

  lemma SeenTransfer(db: Db, r: nat, user: nat, amount: nat)
    requires amount > 0 && r !in db.transfers
    ensures var i := |db.receipts|;
            Apply(Apply(db, TransferArrives(r, user, amount)), TransferSeen(i))
            == db.(receipts := db.receipts + [Receipt(r, user, amount, true)],
                   transfers := db.transfers[r := Funding(user, amount, Pending)])
  {
    var i := |db.receipts|;
    var one := Apply(db, TransferArrives(r, user, amount));
    assert one == db.(receipts := db.receipts + [Receipt(r, user, amount, false)]);
    assert one.receipts[i := Receipt(r, user, amount, true)] == db.receipts + [Receipt(r, user, amount, true)];
  }

  lemma CrashedHandler(db: Db, r: nat, user: nat, amount: nat)
    requires amount > 0 && r !in db.transfers
    ensures var i := |db.receipts|;
            Apply(Apply(Apply(db, TransferArrives(r, user, amount)), TransferSeen(i)), TransferDropped(i))
            == db.(transfers := db.transfers[r := Funding(user, amount, Pending)])
  {
    var i := |db.receipts|;
    SeenTransfer(db, r, user, amount);
    assert Dropped(db.receipts + [Receipt(r, user, amount, true)], i) == db.receipts;
  }

  /**
   Nor does it take a crash: a second delivery of the webhook between the halves finds the row,
   marks it PAID through the checkout route and credits nobody, and the handler then declines.
   */
  lemma TransferCanBeLost(db: Db, r: nat, user: nat, amount: nat, steps: seq<Step>)
    requires Reachable(db) && amount > 0 && r !in db.transfers
    ensures var n := Run(db, [TransferArrives(r, user, amount), TransferSeen(|db.receipts|), TransferAgain(r, amount, true)]);
            && r in n.transfers && n.transfers[r].status == Paid && n.purse == db.purse && UnderWay(n.receipts, r)
            && Lost(Run(n, steps), r)
  {
    var i := |db.receipts|;
    ReachableIsOk(db);
    hide Reachable;
    assert Find(db.purse.entries, TransferCredit(r)).None?;
    hide Inv, Find;
    RunThree(db, TransferArrives(r, user, amount), TransferSeen(i), TransferAgain(r, amount, true));
    PaidBetween(db, r, user, amount);
    hide Apply, Run;
    LostForGood(Run(db, [TransferArrives(r, user, amount), TransferSeen(i), TransferAgain(r, amount, true)]), steps, r);
  }

  lemma PaidBetween(db: Db, r: nat, user: nat, amount: nat)
    requires amount > 0 && r !in db.transfers
    ensures var n := Apply(Apply(Apply(db, TransferArrives(r, user, amount)), TransferSeen(|db.receipts|)), TransferAgain(r, amount, true));
            && r in n.transfers && n.transfers[r].status == Paid && n.purse == db.purse && UnderWay(n.receipts, r)
  {
    SeenTransfer(db, r, user, amount);
    var receipts := db.receipts + [Receipt(r, user, amount, true)];
    assert Handles(receipts[|db.receipts|], r);
  }

  // ----- where the credits of transfers come from -----

  predicate IsArrival(step: Step, r: nat, user: nat, amount: nat) {
    step == TransferArrives(r, user, amount)
  }

  ghost predicate Arrived(steps: seq<Step>, r: nat, user: nat, amount: nat) {
    exists i :: 0 <= i < |steps| && IsArrival(steps[i], r, user, amount)
  }

  ghost predicate ReceiptsTraced(receipts: seq<Receipt>, steps: seq<Step>) {
    forall i :: 0 <= i < |receipts| ==> Arrived(steps, receipts[i].reference, receipts[i].user, receipts[i].amount)
  }

  ghost predicate CreditTraced(credit: Option<Entry<PurseRef>>, r: nat, steps: seq<Step>) {
    credit.Some? ==> credit.value.kind == Credit && Arrived(steps, r, credit.value.owner, credit.value.amount)
  }

  lemma ArrivedStays(steps: seq<Step>, step: Step, r: nat, user: nat, amount: nat)
    ensures Arrived(steps, r, user, amount) ==> Arrived(steps + [step], r, user, amount)
    ensures IsArrival(step, r, user, amount) ==> Arrived(steps + [step], r, user, amount)
  {
    var more := steps + [step];
    if Arrived(steps, r, user, amount) {
      var i :| 0 <= i < |steps| && IsArrival(steps[i], r, user, amount);
      assert IsArrival(more[i], r, user, amount);
    }
    if IsArrival(step, r, user, amount) {
      assert IsArrival(more[|steps|], r, user, amount);
    }
  }

  lemma ReceiptsTracedOn(db: Db, step: Step, steps: seq<Step>)
    requires ReceiptsTraced(db.receipts, steps)
    ensures ReceiptsTraced(Apply(db, step).receipts, steps + [step])
  {
    var n := Apply(db, step);
    if !Transfers(step) {
      KeptTransfer(db, step);
    }
    ReceiptsChange(db, step);
    hide Apply, Arrived, Find;
    forall i | 0 <= i < |n.receipts|
      ensures Arrived(steps + [step], n.receipts[i].reference, n.receipts[i].user, n.receipts[i].amount)
    {
      ArrivedStays(steps, step, n.receipts[i].reference, n.receipts[i].user, n.receipts[i].amount);
    }
  }

  /** Receipts are started by arrivals, and never change whom and how much they are for. */
  lemma ReceiptsChange(db: Db, step: Step)
    requires !Transfers(step) ==> Apply(db, step).receipts == db.receipts
    ensures forall i :: 0 <= i < |Apply(db, step).receipts| ==>
      var c := Apply(db, step).receipts[i];
      || IsArrival(step, c.reference, c.user, c.amount)
      || exists j :: 0 <= j < |db.receipts| && SameCase(db.receipts[j], c)
  {
    hide Find, Post, Open;
    var n := Apply(db, step);
    forall i | 0 <= i < |n.receipts|
      ensures var c := n.receipts[i];
              || IsArrival(step, c.reference, c.user, c.amount)
              || exists j :: 0 <= j < |db.receipts| && SameCase(db.receipts[j], c)
    {
      var c := n.receipts[i];
      if step.TransferArrives? && i == |db.receipts| {
        assert IsArrival(step, c.reference, c.user, c.amount);
      } else if (step.TransferIn? || step.TransferDropped?) && |n.receipts| < |db.receipts| {
        assert SameCase(db.receipts[if i < step.receipt then i else i + 1], c);
      } else {
        assert SameCase(db.receipts[i], c);
      }
    }
  }

  predicate SameCase(a: Receipt, b: Receipt) {
    a.reference == b.reference && a.user == b.user && a.amount == b.amount
  }

  lemma CreditTracedOn(db: Db, step: Step, steps: seq<Step>, r: nat)
    requires ReceiptsTraced(db.receipts, steps) && CreditTraced(Find(db.purse.entries, TransferCredit(r)), r, steps)
    ensures CreditTraced(Find(Apply(db, step).purse.entries, TransferCredit(r)), r, steps + [step])
  {
    var before, after := Find(db.purse.entries, TransferCredit(r)), Find(Apply(db, step).purse.entries, TransferCredit(r));
    CreditChange(db, step, r);
    hide Apply, Find, Arrived;
    if after.Some? {
      ArrivedStays(steps, step, r, after.value.owner, after.value.amount);
    }
  }

  /** A credit that is new pays the user and the amount of a handler at work on it. */
  lemma CreditChange(db: Db, step: Step, r: nat)
    ensures var after := Find(Apply(db, step).purse.entries, TransferCredit(r));
            || after == Find(db.purse.entries, TransferCredit(r))
            || exists i :: 0 <= i < |db.receipts| && Handles(db.receipts[i], r)
                 && after == Some(Entry(db.receipts[i].user, Credit, db.receipts[i].amount, TransferCredit(r)))
  {
    if !Transfers(step) {
      KeptTransfer(db, step);
    } else if step.TransferIn? && CreditTransfer(db, step.receipt).Ok? {
      var c := db.receipts[step.receipt];
      TransferIsCreditedOnce(db, step.receipt);
      FindAppend(db.purse.entries, Entry(c.user, Credit, c.amount, TransferCredit(c.reference)), TransferCredit(r));
      assert Apply(db, step) == CreditTransfer(db, step.receipt).value;
      hide CreditTransfer, Find;
      assert Handles(db.receipts[step.receipt], c.reference);
    }
  }

  /** Whoever was credited for a transfer, and by whatever amount, is what the provider reported when it arrived. */
  lemma {:induction false} CreditsComeFromArrivals(start: Db, steps: seq<Step>, r: nat)
    requires Blank(start)
    ensures ReceiptsTraced(Run(start, steps).receipts, steps)
    ensures CreditTraced(Find(Run(start, steps).purse.entries, TransferCredit(r)), r, steps)
  {
    if steps != [] {
      var k := |steps| - 1;
      CreditsComeFromArrivals(start, steps[..k], r);
      hide Apply, ReceiptsTraced, CreditTraced, Find;
      ReceiptsTracedOn(Run(start, steps[..k]), steps[k], steps[..k]);
      CreditTracedOn(Run(start, steps[..k]), steps[k], steps[..k], r);
      assert steps[..k] + [steps[k]] == steps;
    }
  }

  // ----- top-ups -----

  /** The wallet has the top-up and its row does not say PAID. */
  ghost predicate Unmarked(db: Db, t: nat) {
    t < |db.topups| && db.topups[t].status != Paid && Find(db.purse.entries, TopupCredit(t)).Some?
  }

  lemma KeptTopup(db: Db, step: Step)
    requires !Topups(step)
    ensures TopupsKept(db, Apply(db, step))
  {
    hide Apply, Find;
    if step.HandOver? {
      HandOverKeeps(db, step);
    } else if Transfers(step) {
      TransferStepKeeps(db, step);
    } else {
      StepIsQuiet(db, step);
    }
  }

  lemma UnmarkedByStep(db: Db, step: Step, t: nat)
    requires Unmarked(db, t)
    ensures Unmarked(Apply(db, step), t)
  {
    if !Topups(step) {
      KeptTopup(db, step);
      hide Apply, Find;
    } else if step.FinishTopup? && step.topup < |db.topups| {
      var f := db.topups[step.topup];
      FindAppend(db.purse.entries, Entry(f.user, Credit, f.amount, TopupCredit(step.topup)), TopupCredit(t));
      hide Find;
    }
  }

  lemma {:induction false} UnmarkedForGood(db: Db, steps: seq<Step>, t: nat)
    requires Unmarked(db, t)
    ensures Unmarked(Run(db, steps), t)
  {
    hide Apply, Unmarked;
    if steps != [] {
      UnmarkedForGood(db, steps[..|steps| - 1], t);
      UnmarkedByStep(Run(db, steps[..|steps| - 1]), steps[|steps| - 1], t);
    }
  }

  /** A top-up that is not PAID never will be, over every further run, exactly when its wallet already has it. */
  lemma TopupIsUnmarkedExactly(db: Db, t: nat)
    requires t < |db.topups| && db.topups[t].status != Paid
    ensures (forall steps :: t < |Run(db, steps).topups| && Run(db, steps).topups[t].status != Paid)
       <==> Find(db.purse.entries, TopupCredit(t)).Some?
  {
    if Unmarked(db, t) {
      forall steps ensures t < |Run(db, steps).topups| && Run(db, steps).topups[t].status != Paid {
        UnmarkedForGood(db, steps, t);
      }
    } else {
      var pays := FinishTopup(t, db.topups[t].amount, true);
      assert Apply(db, pays).topups[t].status == Paid;
      RunOne(db, pays);
    }
  }

  /** A failure reported after the success does that to it. */
  lemma CreditedTopupCanFail(db: Db, t: nat)
    requires t < |db.topups| && Find(db.purse.entries, TopupCredit(t)).Some?
    ensures Unmarked(Apply(db, FinishTopup(t, db.topups[t].amount, false)), t)
  {
    hide Find;
  }

  // ----- the rider's fee -----

  /** Only the confirmation of the customer's QR, by the assigned rider, hands a parcel over. */
  lemma OnlyQrHandsOver(db: Db, step: Step, o: nat)
    requires o < |db.orders| && o < |Apply(db, step).orders|
    requires HandedByQr(Apply(db, step).orders[o]) && !HandedByQr(db.orders[o])
    ensures step.HandOver? && step.order == o && step.credential
    ensures db.orders[o].status == OutForDelivery && HasRider(db.orders[o])
    ensures db.orders[o].delivery.value.rider == Some(step.rider)
  {
    if Transfers(step) {
      TransferStepKeeps(db, step);
    } else if Topups(step) {
      TopupStepKeeps(db, step);
    } else if !step.HandOver? {
      StepIsQuiet(db, step);
    } else {
      HandOverRows(db, step, o);
    }
  }

  lemma HandOverRows(db: Db, step: Step, o: nat)
    requires step.HandOver? && o < |db.orders|
    ensures |Apply(db, step).orders| == |db.orders|
    ensures Apply(db, step).orders[o] == db.orders[o] || (
      && step.order == o && step.credential && db.orders[o].status == OutForDelivery && HasRider(db.orders[o])
      && db.orders[o].delivery.value.rider == Some(step.rider))
  {
    hide Find, Post;
  }

  /** The rider's wallet gains the fee in that step and in no other. */
  lemma OnlyQrPaysTheRider(db: Db, step: Step, o: nat)
    requires Reachable(db) && o < |db.orders|
    requires Moved(Apply(db, step).purse.entries, FeeRelease(o)) != Moved(db.purse.entries, FeeRelease(o))
    ensures step.HandOver? && step.order == o && step.credential
    ensures HasRider(db.orders[o]) && db.orders[o].delivery.value.rider == Some(step.rider)
    ensures Moved(db.purse.entries, FeeRelease(o)) == 0
    ensures Moved(Apply(db, step).purse.entries, FeeRelease(o)) == db.orders[o].bill.shippingFee
  {
    ReachableIsOk(db);
    RiderIsPaidOnce(db, o);
    hide Reachable, Apply, Moved, Find, Walk;
    StepKeeps(db, step);
    var n := Apply(db, step);
    assert OrderEvolves(db.orders[o], n.orders[o]);
    PaidOnceIn(n, o);
    PaidStays(db, n, o);
    OnlyQrHandsOver(db, step, o);
  }

  lemma PaidOnceIn(db: Db, o: nat)
    requires Inv(db) && o < |db.orders|
    ensures FeePaidOnce(o, db.orders[o], db.purse.entries)
  {
    hide OrderOk, PursedOk, FeePaidOnce, Sound;
    RowPaysOnce(o, db.orders[o], ByWallet(db.orders[o], db.groups), db.purse);
  }

  lemma PaidStays(db: Db, n: Db, o: nat)
    requires Inv(db) && Inv(n) && o < |db.orders| && o < |n.orders| && OrderEvolves(db.orders[o], n.orders[o])
    ensures HandedByQr(db.orders[o]) && db.orders[o].bill.shippingFee > 0 ==> HandedByQr(n.orders[o])
  {
    assert OrderOk(db.orders[o]) && OrderOk(n.orders[o]);
  }

  lemma StrandedForGood(db: Db, steps: seq<Step>, o: nat)
    requires Inv(db) && o < |db.orders| && db.orders[o].status in {Delivered, Completed} && !HandedByQr(db.orders[o])
    ensures o < |Run(db, steps).orders| && Moved(Run(db, steps).purse.entries, FeeRelease(o)) == 0
  {
    hide Inv, Run, Moved, Find;
    RunKeeps(db, steps);
    var n := Run(db, steps);
    assert OrderEvolves(db.orders[o], n.orders[o]);
    PaidOnceIn(n, o);
  }

  /** An order on its way can be handed over, and then its rider is paid. */
  lemma HandOverPays(db: Db, rider: nat, o: nat)
    requires Inv(db) && o < |db.orders| && db.orders[o].status == OutForDelivery
    requires HasRider(db.orders[o]) && db.orders[o].delivery.value.rider == Some(rider)
    ensures Moved(Apply(db, HandOver(rider, o, true)).purse.entries, FeeRelease(o)) == db.orders[o].bill.shippingFee
  {
    hide ConfirmDelivery, Apply, Moved, Find, FeePaid, Inv, Evolves, Units, Rewarded, DeliveredRow;
    HandOverSucceeds(db, rider, o);
    DeliveryEffect(db, rider, o);
    HandOverApplied(db, rider, o);
    var n := Apply(db, HandOver(rider, o, true));
    RewardedRow(db, o, DeliveredRow(db.orders[o]), n.purse);
    StepKeeps(db, HandOver(rider, o, true));
    HandedOverRow(db.orders[o]);
    PaidOnceIn(n, o);
  }

  lemma HandOverApplied(db: Db, rider: nat, o: nat)
    requires ConfirmDelivery(db, rider, o, true).Ok?
    ensures Apply(db, HandOver(rider, o, true)) == ConfirmDelivery(db, rider, o, true).value
  {
    hide ConfirmDelivery;
  }

  lemma RewardedRow(db: Db, o: nat, row: Order, purse: Book<PurseRef>)
    requires o < |db.orders|
    ensures Rewarded(db, o, row, purse).orders == db.orders[o := row]
  {
  }

  lemma HandedOverRow(x: Order)
    requires x.delivery.Some?
    ensures HandedByQr(DeliveredRow(x)) && DeliveredRow(x).bill == x.bill
  {
  }

  lemma HandOverSucceeds(db: Db, rider: nat, o: nat)
    requires Inv(db) && o < |db.orders| && db.orders[o].status == OutForDelivery
    requires HasRider(db.orders[o]) && db.orders[o].delivery.value.rider == Some(rider)
    ensures ConfirmDelivery(db, rider, o, true).Ok?
  {
    var x := db.orders[o];
    assert OrderOk(x);
    assert PursedOk(o, x, ByWallet(x, db.groups), db.purse.entries);
    if x.earning.Some? {
      HolderHasWallet(db.purse, Entry(x.earning.value.rider, Hold, x.earning.value.amount, FeeHold(o)));
    }
    hide Inv, OrderOk, Find, Walk, CompleteOrder;
  }

  lemma HolderHasWallet(b: Book<PurseRef>, e: Entry<PurseRef>)
    requires Sound(b) && Find(b.entries, e.ref) == Some(e)
    ensures e.owner in b.balances
  {
  }

  /** Moves an order that a rider holds onto the road, where it can still be handed over. */
  lemma OntoTheRoad(db: Db, o: nat)
    requires Inv(db) && o < |db.orders| && HasRider(db.orders[o]) && db.orders[o].status in {RiderAssigned, PickedUp}
    ensures var n := Apply(db, AdminMove(o, OutForDelivery));
            && Inv(n) && o < |n.orders| && n.orders[o] == Move(db.orders[o], OutForDelivery)
  {
    hide Inv, Evolves, Units, Apply;
    assert OutForDelivery in ADMIN_MANAGED && CanTransition(db.orders[o].status, OutForDelivery);
    assert AdminSetStatus(db, o, OutForDelivery).Ok?;
    hide AdminSetStatus, CanTransition;
    AdminApplied(db, o, OutForDelivery);
    StepKeeps(db, AdminMove(o, OutForDelivery));
  }

  lemma AdminApplied(db: Db, o: nat, to: Status)
    ensures AdminSetStatus(db, o, to).Ok? ==>
      && o < |db.orders| && o < |Apply(db, AdminMove(o, to)).orders|
      && Apply(db, AdminMove(o, to)).orders[o] == Move(db.orders[o], to)
      && CanTransition(db.orders[o].status, to)
  {
    hide Move, CanTransition, Points, PointsFor;
  }

  lemma CanStillBePaid(db: Db, o: nat) returns (steps: seq<Step>)
    requires Inv(db) && o < |db.orders| && HasRider(db.orders[o]) && db.orders[o].status !in {Delivered, Completed}
    ensures Moved(Run(db, steps).purse.entries, FeeRelease(o)) == db.orders[o].bill.shippingFee
  {
    assert OrderOk(db.orders[o]);
    hide Inv, Apply, Run, Moved, OrderOk;
    var rider := db.orders[o].delivery.value.rider.value;
    if db.orders[o].status == OutForDelivery {
      steps := [HandOver(rider, o, true)];
      HandOverPays(db, rider, o);
      RunOne(db, HandOver(rider, o, true));
    } else {
      steps := [AdminMove(o, OutForDelivery), HandOver(rider, o, true)];
      OntoTheRoad(db, o);
      HandOverPays(Apply(db, AdminMove(o, OutForDelivery)), rider, o);
      RunTwo(db, AdminMove(o, OutForDelivery), HandOver(rider, o, true));
    }
  }

  /**
   A fee held for a rider and not yet paid is never paid, whatever happens, exactly when the order
   is already DELIVERED or COMPLETED, which then was not the customer's QR's doing.
   */
  lemma FeeIsStrandedExactly(db: Db, o: nat)
    requires Reachable(db) && o < |db.orders| && HasRider(db.orders[o]) && db.orders[o].bill.shippingFee > 0
    requires Moved(db.purse.entries, FeeRelease(o)) == 0
    ensures (forall steps :: Moved(Run(db, steps).purse.entries, FeeRelease(o)) == 0)
       <==> db.orders[o].status in {Delivered, Completed}
  {
    ReachableIsOk(db);
    RiderIsPaidOnce(db, o);
    hide Reachable, Inv, Run, Moved;
    if db.orders[o].status in {Delivered, Completed} {
      forall steps ensures Moved(Run(db, steps).purse.entries, FeeRelease(o)) == 0 {
        StrandedForGood(db, steps, o);
      }
    } else {
      var steps := CanStillBePaid(db, o);
    }
  }

  /**
   Staff may complete an order that was picked up or delivered; if a fee is held for its rider,
   which is so exactly when it has a rider and a fee, that completion strands it for good.
   */
  lemma StaffCompletionStrandsFee(db: Db, o: nat, steps: seq<Step>)
    requires Reachable(db) && AdminSetStatus(db, o, Completed).Ok?
    ensures o < |db.orders| && db.orders[o].status in {PickedUp, Delivered}
    ensures Find(db.purse.entries, FeeHold(o)).Some? <==> HasRider(db.orders[o]) && db.orders[o].bill.shippingFee > 0
    ensures Moved(Run(Apply(db, AdminMove(o, Completed)), steps).purse.entries, FeeRelease(o)) == 0
  {
    hide Reachable, Inv, Run, Apply, Moved, Find, Walk, AdminSetStatus, Evolves, Units;
    ReachableIsOk(db);
    AdminApplied(db, o, Completed);
    RiderIsPaidOnce(db, o);
    StepKeeps(db, AdminMove(o, Completed));
    StrandedForGood(Apply(db, AdminMove(o, Completed)), steps, o);
  }

  // ----- Klump -----

  /** A Klump payment that succeeds after its checkout was released is refused for good, and nothing is refunded. */
  lemma LateKlumpIsRefused(db: Db, v: Verification, steps: seq<Step>)
    requires Reachable(db) && VerificationOk(v, db.groups, db.payments) && v.answer == KlumpSuccess
    requires db.groups[v.groups[0]].status == Failed
    ensures var n := Run(db, steps);
            && VerifyKlump(n, v) == Err(Conflict)
            && forall o :: 0 <= o < |n.orders| && n.orders[o].key.group == v.groups[0] ==> n.orders[o].refund.None?
  {
    ReachableIsOk(db);
    hide Reachable, Inv, Run;
    RunKeeps(db, steps);
    var n := Run(db, steps);
    var g, p := v.groups[0], v.payment;
    P.PayerFacts(db, g, p);
    assert GroupEvolves(db.groups[g], n.groups[g]);
    assert n.payments[p].provider == db.payments[p].provider;
    KlumpReleased(n, g, p);
    hide Evolves;
  }

  lemma KlumpReleased(db: Db, g: nat, p: nat)
    requires Inv(db) && g < |db.groups| && db.groups[g].status == Failed && db.groups[g].payment == Some(p)
    requires p < |db.payments| && db.payments[p].provider == Klump
    ensures db.payments[p].status == Failed
    ensures forall o :: 0 <= o < |db.orders| && db.orders[o].key.group == g ==> db.orders[o].refund.None?
  {
    var row := db.groups[g];
    assert GroupOk(g, row, db.orders, db.payments);
    forall o | 0 <= o < |db.orders| && db.orders[o].key.group == g ensures db.orders[o].refund.None? {
      assert row.allocations[db.orders[o].key.slot].order == o;
    }
  }
}
