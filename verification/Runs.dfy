/** The shop as a whole: any step, in any order, any number of times. */
module Runs {
  import opened Outcome
  import opened OrderLife
  import opened Shop
  import opened Invariant
  import S = Settlement
  import P = Placement
  import Y = Paying
  import L = Fulfilment
  import C = Cancelling
  import W = WalletSteps

  /** One transaction, with the answers of providers, scanners and clocks as its arguments. */
  datatype Step =
    | Checkout(request: Request)
    | StartPaystack(user: nat, group: nat)
    | StartKlump(user: nat, group: nat)
    | ReadAnswer(payment: nat, reported: int, answer: Answer)
    | Verify(index: nat)
    | Recheck(payment: nat)
    | ReleaseCheckout(user: nat, group: nat)
    | CancelPaid(user: nat, order: nat)
    | WriteRefund(order: nat, refund: RefundStatus)
    | SyncPayment(order: nat)
    | StoreMove(order: nat, to: Status)
    | AdminMove(order: nat, to: Status)
    | Pack(order: nat, scanned: bool)
    | ClaimBy(rider: nat, order: nat)
    | Report(rider: nat, order: nat, delivery: DeliveryStatus)
    | PickUp(rider: nat, order: nat, credential: bool, scanned: bool)
    | HandOver(rider: nat, order: nat, credential: bool)
    | BeginTopup(user: nat, amount: nat)
    | FinishTopup(topup: nat, reported: int, success: bool)
    | TransferArrives(reference: nat, user: nat, amount: nat)
    | TransferSeen(receipt: nat)
    | TransferIn(receipt: nat)
    | TransferDropped(receipt: nat)
    | TransferAgain(reference: nat, reported: int, success: bool)
    | Charged(user: nat, amount: nat, id: nat)
    | Credited(user: nat, amount: nat, id: nat)
    | RiderPaid(user: nat, amount: nat, id: nat)
    | StorePaid(store: nat, amount: nat, id: nat)
    | BuyVoucher(user: nat, voucher: nat, cost: nat)
    | EditProduct(id: nat, product: Product)
    | EditRates(rates: S.Rates)

  function Attempt(db: Db, step: Step): Result<Db> {
    match step
    case Checkout(r) => var made :- CreateCheckout(db, r); Ok(made.0)
    case StartPaystack(user, g) => InitializePaystack(db, user, g)
    case StartKlump(user, g) => InitializeKlump(db, user, g)
    case ReadAnswer(p, reported, answer) => BeginVerify(db, p, reported, answer)
    case Verify(i) => FinishVerify(db, i)
    case Recheck(p) => RecheckPaid(db, p)
    case ReleaseCheckout(user, g) => CancelCheckout(db, user, g)
    case CancelPaid(user, o) => CancelOrder(db, user, o)
    case WriteRefund(o, status) => SetRefundStatus(db, o, status)
    case SyncPayment(o) => SyncAfterRefund(db, o)
    case StoreMove(o, to) => StoreSetStatus(db, o, to)
    case AdminMove(o, to) => AdminSetStatus(db, o, to)
    case Pack(o, scanned) => CompletePacking(db, o, scanned)
    case ClaimBy(rider, o) => ClaimDelivery(db, rider, o)
    case Report(rider, o, to) => RiderUpdate(db, rider, o, to)
    case PickUp(rider, o, credential, scanned) => ConfirmPickup(db, rider, o, credential, scanned)
    case HandOver(rider, o, credential) => ConfirmDelivery(db, rider, o, credential)
    case BeginTopup(user, amount) => StartTopup(db, user, amount)
    case FinishTopup(t, reported, success) => VerifyTopup(db, t, reported, success)
    case TransferArrives(r, user, amount) => ArriveTransfer(db, r, user, amount)
    case TransferSeen(i) => RecordTransfer(db, i)
    case TransferIn(i) => CreditTransfer(db, i)
    case TransferDropped(i) => DropTransfer(db, i)
    case TransferAgain(r, reported, success) => RedeliverTransfer(db, r, reported, success)
    case Charged(user, amount, id) => ChargeWallet(db, user, amount, id)
    case Credited(user, amount, id) => CreditWallet(db, user, amount, id)
    case RiderPaid(user, amount, id) => RiderWithdraw(db, user, amount, id)
    case StorePaid(store, amount, id) => StoreWithdraw(db, store, amount, id)
    case BuyVoucher(user, voucher, cost) => ClaimVoucher(db, user, voucher, cost)
    case EditProduct(p, product) =>
      if product.stock < 0 then Err(Invalid) else Ok(db.(products := db.products[p := product]))
    case EditRates(rates) => Ok(db.(rates := rates))
  }

  /** A refused step is rolled back. */
  function Apply(db: Db, step: Step): Db {
    var r := Attempt(db, step);
    if r.Ok? then r.value else db
  }

  function Run(db: Db, steps: seq<Step>): Db {
    if steps == [] then db else Apply(Run(db, steps[..|steps| - 1]), steps[|steps| - 1])
  }

  // ----- one step -----

  predicate Payments(step: Step) {
    || step.Checkout? || step.StartPaystack? || step.StartKlump? || step.ReadAnswer? || step.Verify?
    || step.Recheck? || step.ReleaseCheckout?
  }

  lemma PaymentStepKeeps(db: Db, step: Step)
    requires Inv(db) && Payments(step) && Attempt(db, step).Ok?
    ensures Y.Sane(db, Attempt(db, step).value)
  {
    hide Inv, CreateCheckout, InitializePaystack, InitializeKlump, BeginVerify, FinishVerify, RecheckPaid, CancelCheckout;
    match step
    case Checkout(r) =>
      P.CreateCheckoutKeeps(db, r);
    case StartPaystack(user, g) =>
      Y.InitializePaystackKeeps(db, user, g);
    case StartKlump(user, g) =>
      Y.InitializeKlumpKeeps(db, user, g);
    case ReadAnswer(p, reported, answer) =>
      Y.BeginVerifyKeeps(db, p, reported, answer);
    case Verify(i) =>
      Y.FinishVerifyKeeps(db, i);
    case Recheck(p) =>
      Y.RecheckChangesNothing(db, p);
      Y.NothingHappens(db);
    case ReleaseCheckout(user, g) =>
      Y.CancelCheckoutKeeps(db, user, g);
    case _ =>
  }

  predicate Orders(step: Step) {
    || step.CancelPaid? || step.WriteRefund? || step.SyncPayment? || step.StoreMove? || step.AdminMove?
    || step.Pack? || step.ClaimBy? || step.Report? || step.PickUp? || step.HandOver?
  }

  lemma OrderStepKeeps(db: Db, step: Step)
    requires Inv(db) && Orders(step) && Attempt(db, step).Ok?
    ensures Y.Sane(db, Attempt(db, step).value)
  {
    hide Inv, Y.Sane, CancelOrder, SetRefundStatus, SyncAfterRefund, StoreSetStatus, AdminSetStatus, CompletePacking;
    hide ClaimDelivery, RiderUpdate, ConfirmPickup, ConfirmDelivery;
    match step
    case CancelPaid(user, o) =>
      C.CancelOrderKeeps(db, user, o);
    case WriteRefund(o, status) =>
      C.SetRefundStatusKeeps(db, o, status);
    case SyncPayment(o) =>
      C.SyncAfterRefundKeeps(db, o);
    case StoreMove(o, to) =>
      L.StoreSetStatusKeeps(db, o, to);
    case AdminMove(o, to) =>
      L.AdminSetStatusKeeps(db, o, to);
    case Pack(o, scanned) =>
      L.PackingKeeps(db, o, scanned);
    case ClaimBy(rider, o) =>
      L.ClaimKeeps(db, rider, o);
    case Report(rider, o, to) =>
      L.RiderUpdateKeeps(db, rider, o, to);
    case PickUp(rider, o, credential, scanned) =>
      L.ConfirmPickupKeeps(db, rider, o, credential, scanned);
    case HandOver(rider, o, credential) =>
      L.ConfirmDeliveryKeeps(db, rider, o, credential);
    case _ =>
  }

  predicate Configures(step: Step) {
    step.EditProduct? || step.EditRates?
  }

  lemma WalletStepKeeps(db: Db, step: Step)
    requires Inv(db) && !Payments(step) && !Orders(step) && !Configures(step) && Attempt(db, step).Ok?
    ensures Y.Sane(db, Attempt(db, step).value)
  {
    hide Inv, Y.Sane, StartTopup, VerifyTopup, ArriveTransfer, RecordTransfer, CreditTransfer, DropTransfer;
    hide RedeliverTransfer, ChargeWallet;
    hide CreditWallet, RiderWithdraw, StoreWithdraw, ClaimVoucher;
    match step
    case BeginTopup(user, amount) =>
      W.StartTopupKeeps(db, user, amount);
    case FinishTopup(t, reported, success) =>
      W.VerifyTopupKeeps(db, t, reported, success);
    case TransferArrives(r, user, amount) =>
      W.ArriveTransferKeeps(db, r, user, amount);
    case TransferSeen(i) =>
      W.RecordTransferKeeps(db, i);
    case TransferIn(i) =>
      W.CreditTransferKeeps(db, i);
    case TransferDropped(i) =>
      W.DropTransferKeeps(db, i);
    case TransferAgain(r, reported, success) =>
      W.RedeliverTransferKeeps(db, r, reported, success);
    case Charged(user, amount, id) =>
      W.ChargeWalletKeeps(db, user, amount, id);
    case Credited(user, amount, id) =>
      W.CreditWalletKeeps(db, user, amount, id);
    case RiderPaid(user, amount, id) =>
      W.RiderWithdrawKeeps(db, user, amount, id);
    case StorePaid(store, amount, id) =>
      W.StoreWithdrawKeeps(db, store, amount, id);
    case BuyVoucher(user, voucher, cost) =>
      W.ClaimVoucherKeeps(db, user, voucher, cost);
    case _ =>
  }

  lemma EditKeeps(db: Db, step: Step)
    requires Inv(db) && Configures(step) && Attempt(db, step).Ok?
    ensures Inv(Attempt(db, step).value) && Evolves(db, Attempt(db, step).value)
  {
    var n := Attempt(db, step).value;
    if step.EditProduct? {
      RestockKeeps(db.orders, db.products, step.id, step.product);
    }
    hide Linked, OrdersOk, GroupsOk, Stocked, StoresOk, PurseOk, FundingOk, PointsOk, InflightOk, Owned;
    hide OnePayer, CartsApart;
    Y.PointwiseEvolves(db, n);
  }

  lemma RestockKeeps(orders: seq<Order>, products: map<nat, Product>, p: nat, row: Product)
    requires Stocked(orders, products) && row.stock >= 0
    ensures Stocked(orders, products[p := row])
  {
    var after := products[p := row];
    forall o | 0 <= o < |orders| ensures LinesKnown(orders[o].bill.lines, after) {
      assert LinesKnown(orders[o].bill.lines, products);
    }
  }

  /** Whatever is attempted, and whether or not it is refused. */
  lemma StepKeeps(db: Db, step: Step)
    requires Inv(db)
    ensures Inv(Apply(db, step)) && Evolves(db, Apply(db, step))
    ensures !step.EditProduct? ==> forall p :: Units(Apply(db, step), p) == Units(db, p)
  {
    hide Inv, Evolves, Attempt;
    if Attempt(db, step).Err? {
      Y.NothingHappens(db);
    } else if Payments(step) {
      PaymentStepKeeps(db, step);
    } else if Orders(step) {
      OrderStepKeeps(db, step);
    } else if Configures(step) {
      EditKeeps(db, step);
      RatesAreNoUnits(db, step);
    } else {
      WalletStepKeeps(db, step);
    }
  }

  lemma RatesAreNoUnits(db: Db, step: Step)
    ensures step.EditRates? ==> Attempt(db, step).Ok? && forall p :: Units(Attempt(db, step).value, p) == Units(db, p)
  {
    if step.EditRates? {
      UnitsFrame(db, Attempt(db, step).value);
    }
  }

  // ----- whole runs -----

  /** The invariant holds after every run of a shop that started blank. */
  lemma {:induction false} EveryRunIsConsistent(db: Db, steps: seq<Step>)
    requires Blank(db)
    ensures Inv(Run(db, steps))
  {
    if steps == [] {
      BlankIsOk(db);
    } else {
      EveryRunIsConsistent(db, steps[..|steps| - 1]);
      StepKeeps(Run(db, steps[..|steps| - 1]), steps[|steps| - 1]);
    }
  }

  lemma {:induction false} RunKeeps(db: Db, steps: seq<Step>)
    requires Inv(db)
    ensures Inv(Run(db, steps)) && Evolves(db, Run(db, steps))
  {
    hide Inv, Evolves, Apply;
    if steps == [] {
      Y.NothingHappens(db);
    } else {
      var before := Run(db, steps[..|steps| - 1]);
      RunKeeps(db, steps[..|steps| - 1]);
      StepKeeps(before, steps[|steps| - 1]);
      EvolvesTransitive(db, before, Run(db, steps));
    }
  }

  lemma {:induction false} RunSplits(db: Db, first: seq<Step>, rest: seq<Step>)
    ensures Run(db, first + rest) == Run(Run(db, first), rest)
  {
    hide Apply;
    if rest == [] {
      assert first + rest == first;
    } else {
      var k := |rest| - 1;
      RunSplits(db, first, rest[..k]);
      assert (first + rest)[..|first + rest| - 1] == first + rest[..k];
    }
  }

  /** From any point of a run to any later point: final things stayed final, ledgers only grew. */
  lemma EveryRunEvolves(db: Db, first: seq<Step>, rest: seq<Step>)
    requires Blank(db)
    ensures Evolves(Run(db, first), Run(db, first + rest))
  {
    EveryRunIsConsistent(db, first);
    RunKeeps(Run(db, first), rest);
    RunSplits(db, first, rest);
  }

  /** Stock and held units together never change while no vendor edits a product. */
  lemma {:induction false} UnitsAreConserved(db: Db, steps: seq<Step>, p: nat)
    requires Inv(db)
    requires forall i :: 0 <= i < |steps| ==> !steps[i].EditProduct?
    ensures Units(Run(db, steps), p) == Units(db, p)
  {
    hide Inv, Evolves, Apply, Units;
    if steps != [] {
      var k := |steps| - 1;
      UnitsAreConserved(db, steps[..k], p);
      RunKeeps(db, steps[..k]);
      StepKeeps(Run(db, steps[..k]), steps[k]);
    }
  }
}
