/**
 The rows of the shop and what each database transaction does to them. Automatic ids are
 positions in a sequence; the rows that belong to at most one order (refund, delivery, rider
 earning) are fields of it. A transaction is a function that returns the new state, or an
 error and then no state at all.
 */
module Shop {
  import opened Outcome
  import opened Ledger
  import opened OrderLife
  import S = Settlement
  import Q = Quote
  import F = Fingerprint

  // ----- rows -----

  datatype PayStatus = Pending | Processing | Paid | Failed | Refunded | PartiallyRefunded

  datatype Method = Card | BankTransfer | Opay | Wallet | KlumpBnpl | Financed

  datatype Provider = Paystack | Manual | Klump

  datatype RefundStatus = Requested | Underway | Succeeded | Rejected | NeedsAttention | ManualReview

  datatype DeliveryStatus =
    | Unassigned | Offered | Assigned | Collected | InTransit | OnTheWay | Arrived
    | HandedOver | DeliveryFailed | DeliveryCancelled

  /** An order's allocation row, named by its group and its place in the group. */
  datatype Key = Key(group: nat, slot: nat)

  datatype Allocation = Allocation(order: nat, amount: nat)

  /** What never changes after the order was placed. */
  datatype Bill = Bill(
    user: nat, store: nat, lines: seq<Q.Line>, subtotal: nat, shippingFee: nat,
    discount: nat, shippingDiscount: nat, total: nat)

  datatype Delivery = Delivery(rider: Option<nat>, status: DeliveryStatus)

  datatype Earning = Earning(rider: nat, amount: nat, released: bool)

  datatype Refund = Refund(payment: nat, amount: nat, provider: Provider, status: RefundStatus)

  datatype Order = Order(
    key: Key, bill: Bill, status: Status, history: seq<Row>,
    delivery: Option<Delivery>, earning: Option<Earning>, refund: Option<Refund>)

  datatype Group = Group(
    user: nat, cart: nat, activeCart: Option<nat>, input: F.Json, via: Method, total: nat,
    status: PayStatus, payment: Option<nat>, allocations: seq<Allocation>)

  datatype Payment = Payment(amount: nat, provider: Provider, status: PayStatus)

  /** `price` is the price in force: the discount price when there is one. */
  datatype Product = Product(stock: int, sellable: bool, price: nat)

  datatype StoreRef = Settled(order: nat) | Reversed(order: nat) | StoreWithdrawal(id: nat)

  datatype PurseRef =
    | CheckoutDebit(group: nat) | OrderCancel(order: nat)
    | TopupCredit(topup: nat) | TransferCredit(reference: nat)
    | FeeHold(order: nat) | FeeRelease(order: nat)
    | Unique(id: nat)

  datatype Funding = Funding(user: nat, amount: nat, status: PayStatus)

  /** A webhook handler at work on a bank transfer whose payment row it did not find. */
  datatype Receipt = Receipt(reference: nat, user: nat, amount: nat, recorded: bool)

  datatype Claim = Claim(user: nat, voucher: nat, cost: nat)

  datatype Answer = Success | Failure | KlumpSuccess

  /** A verification whose provider answer has arrived and whose transaction has not run yet. */
  datatype Verification = Verification(payment: nat, groups: seq<nat>, answer: Answer)

  datatype Db = Db(
    orders: seq<Order>, groups: seq<Group>, payments: seq<Payment>, products: map<nat, Product>,
    stores: Book<StoreRef>, purse: Book<PurseRef>, points: map<nat, int>, claims: seq<Claim>,
    topups: seq<Funding>, transfers: map<nat, Funding>, receipts: seq<Receipt>, rates: S.Rates,
    inflight: seq<Verification>)

  // ----- stock -----

  /** The conditional update: it matches only a row that is on sale, stocked and priced as quoted. */
  function ReserveLine(ps: map<nat, Product>, l: Q.Line): Result<map<nat, Product>> {
    if l.product in ps && ps[l.product].sellable && l.quantity <= ps[l.product].stock
       && ps[l.product].price == l.unitPrice
    then Ok(ps[l.product := ps[l.product].(stock := ps[l.product].stock - l.quantity)])
    else Err(Conflict)
  }

  function ReserveLines(ps: map<nat, Product>, ls: seq<Q.Line>): Result<map<nat, Product>> {
    if ls == [] then Ok(ps)
    else
      var next :- ReserveLine(ps, ls[0]);
      ReserveLines(next, ls[1..])
  }

  function ReturnLine(ps: map<nat, Product>, l: Q.Line): Result<map<nat, Product>> {
    if l.product in ps then Ok(ps[l.product := ps[l.product].(stock := ps[l.product].stock + l.quantity)])
    else Err(NotFound)
  }

  function ReturnLines(ps: map<nat, Product>, ls: seq<Q.Line>): Result<map<nat, Product>> {
    if ls == [] then Ok(ps)
    else
      var next :- ReturnLine(ps, ls[0]);
      ReturnLines(next, ls[1..])
  }

  // ----- order rows -----

  /** A status change writes the status and its history row together. */
  function Move(o: Order, to: Status): Order {
    o.(status := to, history := o.history + [Row(Some(o.status), to)])
  }

  function CloseDelivery(d: Option<Delivery>): Option<Delivery> {
    if d.Some? then Some(d.value.(status := DeliveryCancelled)) else None
  }

  function CallOff(o: Order): Order {
    Move(o, Cancelled).(delivery := CloseDelivery(o.delivery))
  }

  function SetOrder(db: Db, o: nat, row: Order): Db
    requires o < |db.orders|
  {
    db.(orders := db.orders[o := row])
  }

  function SetGroup(db: Db, g: nat, row: Group): Db
    requires g < |db.groups|
  {
    db.(groups := db.groups[g := row])
  }

  function SetPayment(db: Db, p: nat, status: PayStatus): Db
    requires p < |db.payments|
  {
    db.(payments := db.payments[p := db.payments[p].(status := status)])
  }

  // ----- settlement of a confirmed order -----

  predicate Funded(db: Db, o: nat)
    requires o < |db.orders|
  {
    var g := db.orders[o].key.group;
    && g < |db.groups|
    && (|| db.groups[g].status == Paid
        || (&& db.groups[g].payment.Some? && db.groups[g].payment.value < |db.payments|
            && db.payments[db.groups[g].payment.value].status == Paid))
  }

  predicate HasRider(o: Order) {
    o.delivery.Some? && o.delivery.value.rider.Some?
  }

  function HoldEarning(db: Db, o: nat): Result<Db>
    requires o < |db.orders|
  {
    var row := db.orders[o];
    if !HasRider(row) || row.bill.shippingFee == 0 || !Funded(db, o) || row.earning.Some? then Ok(db)
    else
      var rider, fee := row.delivery.value.rider.value, row.bill.shippingFee;
      var purse :- Post(Open(db.purse, rider), Entry(rider, Hold, fee, FeeHold(o)));
      Ok(SetOrder(db, o, row.(earning := Some(Earning(rider, fee, false)))).(purse := purse))
  }

  function SettleOrder(db: Db, o: nat): Result<Db>
    requires o < |db.orders|
  {
    if Find(db.stores.entries, Settled(o)).Some? then Ok(db)
    else
      var bill := db.orders[o].bill;
      var shares :- S.Split(bill.subtotal, db.rates);
      var stores :- Post(db.stores, Entry(bill.store, Credit, shares.store, Settled(o)));
      HoldEarning(db.(stores := stores), o)
  }

  // ----- completing and releasing a payment group -----

  function ConfirmOrder(db: Db, o: nat): Result<Db> {
    if o >= |db.orders| then Err(NotFound)
    else if db.orders[o].status == OrderReceived then
      SettleOrder(SetOrder(db, o, Move(db.orders[o], Confirmed)), o)
    else if db.orders[o].status == Cancelled then Err(Conflict)
    else Ok(db)
  }

  function ConfirmAll(db: Db, allocations: seq<Allocation>): Result<Db>
    decreases |allocations|
  {
    if allocations == [] then Ok(db)
    else
      var next :- ConfirmOrder(db, allocations[0].order);
      ConfirmAll(next, allocations[1..])
  }

  predicate Resolved(g: Group) {
    g.status == Paid || g.status == Failed
  }

  function CompleteGroup(db: Db, g: nat): Result<Db> {
    if g >= |db.groups| then Err(NotFound)
    else
      var row := db.groups[g];
      if row.status == Paid && row.activeCart.None? then Ok(db)
      else if row.status == Failed then Err(Conflict)
      else
        var next :- ConfirmAll(db, row.allocations);
        if g >= |next.groups| then Err(NotFound)
        else Ok(SetGroup(next, g, row.(status := Paid, activeCart := None)))
  }

  function CompleteGroups(db: Db, gs: seq<nat>): Result<Db>
    decreases |gs|
  {
    if gs == [] then Ok(db)
    else
      var next :- CompleteGroup(db, gs[0]);
      CompleteGroups(next, gs[1..])
  }

  function ReleaseOrder(db: Db, o: nat): Result<Db> {
    if o >= |db.orders| then Err(NotFound)
    else if db.orders[o].status != OrderReceived then Err(Conflict)
    else
      var products :- ReturnLines(db.products, db.orders[o].bill.lines);
      Ok(SetOrder(db, o, CallOff(db.orders[o])).(products := products))
  }

  function ReleaseAll(db: Db, allocations: seq<Allocation>): Result<Db>
    decreases |allocations|
  {
    if allocations == [] then Ok(db)
    else
      var next :- ReleaseOrder(db, allocations[0].order);
      ReleaseAll(next, allocations[1..])
  }

  function FailGroup(db: Db, g: nat): Result<Db> {
    if g >= |db.groups| then Err(NotFound)
    else
      var row := db.groups[g];
      if row.status == Failed then Ok(db)
      else if row.status == Paid then Err(Conflict)
      else
        var next :- ReleaseAll(db, row.allocations);
        if g >= |next.groups| then Err(NotFound)
        else Ok(SetGroup(next, g, row.(status := Failed, activeCart := None)))
  }

  function FailGroups(db: Db, gs: seq<nat>): Result<Db>
    decreases |gs|
  {
    if gs == [] then Ok(db)
    else
      var next :- FailGroup(db, gs[0]);
      FailGroups(next, gs[1..])
  }

  // ----- checkout -----

  datatype Request = Request(
    user: nat, cart: nat, input: F.Json, rows: seq<Q.CartRow>, terms: Q.Terms,
    via: Method, quoteUnchanged: bool)

  /** The unpaid checkout that occupies a cart. */
  function ActiveGroup(groups: seq<Group>, cart: nat): (r: Option<nat>)
    ensures r.Some? ==> r.value < |groups| && groups[r.value].activeCart == Some(cart)
    ensures r.None? ==> forall g :: 0 <= g < |groups| ==> groups[g].activeCart != Some(cart)
  {
    if groups == [] then None
    else
      var last := |groups| - 1;
      if groups[last].activeCart == Some(cart) then Some(last) else ActiveGroup(groups[..last], cart)
  }

  function NewOrder(key: Key, user: nat, o: Q.StoreOrder, delivery: bool): Order {
    Order(
      key,
      Bill(user, o.store, o.items, o.subtotal, o.shippingFee, o.discount, o.shippingDiscount, o.total),
      OrderReceived, OPENING,
      if delivery then Some(Delivery(None, Unassigned)) else None, None, None)
  }

  /** Reserves the lines of each store order, then creates it. */
  function PlaceOrders(db: Db, g: nat, user: nat, delivery: bool, os: seq<Q.StoreOrder>, slot: nat): Result<Db>
    decreases |os|
  {
    if os == [] then Ok(db)
    else
      var products :- ReserveLines(db.products, os[0].items);
      var row := NewOrder(Key(g, slot), user, os[0], delivery);
      PlaceOrders(db.(products := products, orders := db.orders + [row]), g, user, delivery, os[1..], slot + 1)
  }

  function Allocate(first: nat, os: seq<Q.StoreOrder>): (a: seq<Allocation>)
    ensures |a| == |os|
    ensures forall i :: 0 <= i < |os| ==> a[i] == Allocation(first + i, os[i].total)
  {
    seq(|os|, i requires 0 <= i < |os| => Allocation(first + i, os[i].total))
  }

  /** A wallet or financed checkout is paid within the transaction that creates it. */
  function PayAtOnce(db: Db, g: nat): Result<Db>
    requires g < |db.groups|
  {
    var p := |db.payments|;
    var paid := db.(payments := db.payments + [Payment(db.groups[g].total, Manual, Paid)]);
    CompleteGroup(SetGroup(paid, g, db.groups[g].(payment := Some(p))), g)
  }

  function GroupRow(first: nat, r: Request, quote: Q.Quote): Group {
    Group(r.user, r.cart, Some(r.cart), r.input, r.via, quote.total, Pending, None, Allocate(first, quote.orders))
  }

  /** Orders, their stock and their group; no payment yet. */
  function OpenGroup(db: Db, r: Request, quote: Q.Quote): Result<Db> {
    var placed :- PlaceOrders(db, |db.groups|, r.user, r.terms.delivery, quote.orders, 0);
    Ok(placed.(groups := db.groups + [GroupRow(|db.orders|, r, quote)]))
  }

  function DebitWallet(db: Db, r: Request, quote: Q.Quote, g: nat): Result<Db> {
    if r.via == Wallet then
      var purse :- Charge(db.purse, r.user, quote.total, CheckoutDebit(g));
      Ok(db.(purse := purse))
    else Ok(db)
  }

  function PlaceQuoted(db: Db, r: Request, quote: Q.Quote): Result<Db> {
    var created :- OpenGroup(db, r, quote);
    if r.via != Wallet && r.via != Financed then Ok(created)
    else
      var ready :- DebitWallet(created, r, quote, |db.groups|);
      if |db.groups| < |ready.groups| then PayAtOnce(ready, |db.groups|) else Err(NotFound)
  }

  /** The group that answers the request, existing or new. */
  function CreateCheckout(db: Db, r: Request): Result<(Db, nat)> {
    match ActiveGroup(db.groups, r.cart)
    case Some(g) =>
      if r.via == Financed || F.Canonical(db.groups[g].input) != F.Canonical(r.input) then Err(Conflict)
      else Ok((db, g))
    case None =>
      var quote :- Q.QuoteCart(r.rows, r.terms);
      if r.via == Financed && !r.quoteUnchanged then Err(Conflict)
      else
        var placed :- PlaceQuoted(db, r, quote);
        Ok((placed, |db.groups|))
  }

  // ----- paying through a provider -----

  function AttachPayment(db: Db, g: nat, provider: Provider): Db
    requires g < |db.groups|
  {
    var p := |db.payments|;
    SetGroup(db.(payments := db.payments + [Payment(db.groups[g].total, provider, Pending)]), g,
             db.groups[g].(payment := Some(p), status := Processing))
  }

  function InitializePaystack(db: Db, user: nat, g: nat): Result<Db> {
    if g >= |db.groups| || db.groups[g].user != user then Err(NotFound)
    else if db.groups[g].status == Failed then Err(Conflict)
    else if db.groups[g].payment.Some? then Ok(db)
    else if db.groups[g].via !in {Card, BankTransfer, Opay} then Err(Invalid)
    else Ok(AttachPayment(db, g, Paystack))
  }

  const MAX_SAFE := 9007199254740991

  /** Klump takes whole positive naira. */
  predicate WholeNaira(kobo: nat) {
    kobo % 100 == 0 && 0 < kobo / 100 <= MAX_SAFE
  }

  function SumNaira(orders: seq<Order>, allocations: seq<Allocation>): nat
    requires forall a :: a in allocations ==> a.order < |orders|
  {
    if allocations == [] then 0
    else orders[allocations[0].order].bill.total / 100 + SumNaira(orders, allocations[1..])
  }

  function InitializeKlump(db: Db, user: nat, g: nat): Result<Db> {
    if g >= |db.groups| || db.groups[g].user != user then Err(NotFound)
    else
      var row := db.groups[g];
      if row.via != KlumpBnpl || row.status == Failed then Err(Conflict)
      else if row.payment.Some? then
        if row.payment.value < |db.payments| && db.payments[row.payment.value].provider == Klump then Ok(db)
        else Err(Conflict)
      else if exists a :: a in row.allocations && a.order >= |db.orders| then Err(NotFound)
      else if !WholeNaira(row.total)
           || (exists a :: a in row.allocations && !WholeNaira(db.orders[a.order].bill.total))
           || SumNaira(db.orders, row.allocations) != row.total / 100
      then Err(Invalid)
      else Ok(AttachPayment(db, g, Klump))
  }

  /** The groups that point at a payment. */
  function GroupsOf(groups: seq<Group>, p: nat): seq<nat> {
    if groups == [] then []
    else
      var last := |groups| - 1;
      GroupsOf(groups[..last], p) + if groups[last].payment == Some(p) then [last] else []
  }

  /** Reads the payment and its groups, and keeps the provider's answer for the transaction. */
  function BeginVerify(db: Db, p: nat, reported: int, answer: Answer): Result<Db> {
    if p >= |db.payments| then Err(NotFound)
    else
      var pay := db.payments[p];
      if reported != pay.amount then Err(Invalid)
      else
        var v := Verification(p, GroupsOf(db.groups, p), answer);
        if answer == KlumpSuccess then
          if pay.provider != Klump then Err(NotFound) else Ok(db.(inflight := db.inflight + [v]))
        else if pay.provider != Paystack then Err(NotFound)
        else if pay.status in {Refunded, PartiallyRefunded, Paid} then Ok(db)
        else Ok(db.(inflight := db.inflight + [v]))
  }

  function IssueRefund(db: Db, p: nat, a: Allocation): Result<Db> {
    if a.order >= |db.orders| then Err(NotFound)
    else
      var row := db.orders[a.order];
      if row.refund.Some? then Ok(db)
      else Ok(SetOrder(db, a.order, row.(refund := Some(Refund(p, a.amount, Paystack, Requested)))))
  }

  function IssueRefunds(db: Db, p: nat, allocations: seq<Allocation>): Result<Db>
    decreases |allocations|
  {
    if allocations == [] then Ok(db)
    else
      var next :- IssueRefund(db, p, allocations[0]);
      IssueRefunds(next, p, allocations[1..])
  }

  function RefundGroups(db: Db, p: nat, gs: seq<nat>): Result<Db>
    decreases |gs|
  {
    if gs == [] then Ok(db)
    else if gs[0] >= |db.groups| then Err(NotFound)
    else
      var next :- IssueRefunds(db, p, db.groups[gs[0]].allocations);
      RefundGroups(next, p, gs[1..])
  }

  /** The transaction re-reads the payment: the answer may be stale by now. */
  function VerifyPaystack(db: Db, v: Verification): Result<Db> {
    if v.payment >= |db.payments| then Err(NotFound)
    else
      var p := v.payment;
      var current := db.payments[p].status;
      if current == Paid then Ok(db)
      else if current == Failed && v.answer == Success then
        RefundGroups(SetPayment(db, p, Paid), p, GroupsOf(db.groups, p))
      else if current == Failed then Ok(db)
      else if v.answer == Success then CompleteGroups(SetPayment(db, p, Paid), v.groups)
      else FailGroups(SetPayment(db, p, Failed), v.groups)
  }

  function VerifyKlump(db: Db, v: Verification): Result<Db> {
    if v.payment >= |db.payments| then Err(NotFound)
    else
      var current := db.payments[v.payment].status;
      if current == Failed then Err(Conflict)
      else if current == Paid then Ok(db)
      else CompleteGroups(SetPayment(db, v.payment, Paid), v.groups)
  }

  function FinishVerify(db: Db, i: nat): Result<Db> {
    if i >= |db.inflight| then Err(NotFound)
    else
      var v := db.inflight[i];
      var rest := db.(inflight := db.inflight[..i] + db.inflight[i + 1..]);
      if v.answer == KlumpSuccess then VerifyKlump(rest, v) else VerifyPaystack(rest, v)
  }

  /** A payment already PAID is only checked for groups left incomplete. */
  function RecheckPaid(db: Db, p: nat): Result<Db> {
    if p >= |db.payments| || db.payments[p].provider != Paystack || db.payments[p].status != Paid then Err(NotFound)
    else CompleteGroups(db, GroupsOf(db.groups, p))
  }

  function CancelCheckout(db: Db, user: nat, g: nat): Result<Db> {
    if g >= |db.groups| || db.groups[g].user != user then Err(NotFound)
    else
      var row := db.groups[g];
      if row.status == Paid then Err(Conflict)
      else if row.payment.None? then
        if row.status == Failed then Ok(db) else FailGroup(db, g)
      else if row.payment.value >= |db.payments| then Err(NotFound)
      else if db.payments[row.payment.value].status == Paid then Err(Conflict)
      else if row.status == Failed then Ok(db)
      else FailGroup(SetPayment(db, row.payment.value, Failed), g)
  }

  // ----- cancelling an order, refunds -----

  function RefundedSum(orders: seq<Order>, p: nat): nat {
    if orders == [] then 0
    else
      var o := orders[|orders| - 1];
      RefundedSum(orders[..|orders| - 1], p)
      + if o.refund.Some? && o.refund.value.payment == p && o.refund.value.status == Succeeded
        then o.refund.value.amount else 0
  }

  /** A payment is refunded once the successful refunds cover it. */
  function SyncRefund(db: Db, p: nat): Result<Db> {
    if p >= |db.payments| then Err(NotFound)
    else
      Ok(SetPayment(db, p, if RefundedSum(db.orders, p) >= db.payments[p].amount then Refunded else PartiallyRefunded))
  }

  function RefundRow(g: Group, p: nat, provider: Provider, amount: nat): Refund {
    if g.via == Wallet then Refund(p, amount, Manual, Succeeded)
    else if provider == Klump then Refund(p, amount, Klump, ManualReview)
    else Refund(p, amount, Paystack, Requested)
  }

  function CreditBack(purse: Book<PurseRef>, g: Group, user: nat, o: nat, total: nat): Result<Book<PurseRef>> {
    if g.via == Wallet then Post(purse, Entry(user, Credit, total, OrderCancel(o))) else Ok(purse)
  }

  /** Takes back exactly what the store was credited for the order, if anything. */
  function ReverseSettlement(stores: Book<StoreRef>, o: nat, store: nat): Result<Book<StoreRef>> {
    var settled := Find(stores.entries, Settled(o));
    if store in stores.balances && settled.Some?
    then Post(stores, Entry(store, Debit, settled.value.amount, Reversed(o)))
    else Ok(stores)
  }

  function CancelOrder(db: Db, user: nat, o: nat): Result<Db> {
    if o >= |db.orders| || db.orders[o].bill.user != user then Err(NotFound)
    else
      var row := db.orders[o];
      if row.status != Confirmed && row.status != Preparing then Err(Invalid)
      else
        var products :- ReturnLines(db.products, row.bill.lines);
        var k := row.key;
        if k.group >= |db.groups| || k.slot >= |db.groups[k.group].allocations|
           || db.groups[k.group].payment.None? || db.groups[k.group].payment.value >= |db.payments|
        then Err(Conflict)
        else
          var group := db.groups[k.group];
          var p := group.payment.value;
          var purse :- CreditBack(db.purse, group, user, o, row.bill.total);
          var refund :=
            if row.refund.Some? then row.refund.value
            else RefundRow(group, p, db.payments[p].provider, group.allocations[k.slot].amount);
          var next := SetOrder(db, o, CallOff(row).(refund := Some(refund)))
                      .(products := products, purse := purse);
          var synced :- if refund.status == Succeeded then SyncRefund(next, p) else Ok(next);
          var stores :- ReverseSettlement(synced.stores, o, row.bill.store);
          Ok(synced.(stores := stores))
  }

  /** Any writer of refund statuses: the provider's calls and webhooks, retries, manual review. */
  function SetRefundStatus(db: Db, o: nat, status: RefundStatus): Result<Db> {
    if o >= |db.orders| || db.orders[o].refund.None? then Err(NotFound)
    else
      var row := db.orders[o];
      Ok(SetOrder(db, o, row.(refund := Some(row.refund.value.(status := status)))))
  }

  /** Synchronisation follows a successful refund, so it concerns a payment with a refund row. */
  function SyncAfterRefund(db: Db, o: nat): Result<Db> {
    if o >= |db.orders| || db.orders[o].refund.None? then Err(NotFound)
    else SyncRefund(db, db.orders[o].refund.value.payment)
  }

  // ----- fulfilment -----

  /** 1 point per 1000 naira of a completed order. */
  function PointsFor(total: nat): nat {
    total / 100000
  }

  function Points(points: map<nat, int>, user: nat): int {
    if user in points then points[user] else 0
  }

  /** Completion writes the status and the history row and adds the reward points. */
  function CompleteOrder(db: Db, o: nat): Db
    requires o < |db.orders|
  {
    var row := db.orders[o];
    var user := row.bill.user;
    SetOrder(db, o, Move(row, Completed))
    .(points := db.points[user := Points(db.points, user) + PointsFor(row.bill.total)])
  }

  function StoreSetStatus(db: Db, o: nat, to: Status): Result<Db> {
    if o >= |db.orders| then Err(NotFound)
    else
      var row := db.orders[o];
      if row.status == OrderReceived then Err(Invalid)
      else if to !in STORE_MANAGED then Err(Forbidden)
      else if !CanTransition(row.status, to) then Err(Invalid)
      else Ok(SetOrder(db, o, Move(row, to)))
  }

  function AdminSetStatus(db: Db, o: nat, to: Status): Result<Db> {
    if o >= |db.orders| then Err(NotFound)
    else
      var row := db.orders[o];
      if to !in ADMIN_MANAGED || !CanTransition(row.status, to) then Err(Invalid)
      else if to == Completed then Ok(CompleteOrder(db, o))
      else Ok(SetOrder(db, o, Move(row, to)))
  }

  function CompletePacking(db: Db, o: nat, allScanned: bool): Result<Db> {
    if o >= |db.orders| then Err(NotFound)
    else if !allScanned then Err(Conflict)
    else if db.orders[o].status !in {Confirmed, Preparing} then Err(Invalid)
    else Ok(SetOrder(db, o, Move(db.orders[o], ReadyForPickup)))
  }

  /** The compare-and-set claim: it matches only an unassigned delivery of a ready order. */
  function ClaimDelivery(db: Db, rider: nat, o: nat): Result<Db> {
    if o >= |db.orders| || db.orders[o].delivery.None? then Err(NotFound)
    else
      var row := db.orders[o];
      var d := row.delivery.value;
      if d.rider.Some? || d.status !in {Unassigned, Offered} then Err(Conflict)
      else if row.status != ReadyForPickup then Err(Invalid)
      else
        var claimed := Move(row, RiderAssigned).(delivery := Some(Delivery(Some(rider), Assigned)));
        HoldEarning(SetOrder(db, o, claimed), o)
  }

  function DeliveryMoves(s: DeliveryStatus): set<DeliveryStatus> {
    match s
    case Unassigned => {Offered, Assigned, DeliveryCancelled}
    case Offered => {Assigned, DeliveryCancelled}
    case Assigned => {Collected, DeliveryCancelled}
    case Collected => {InTransit, OnTheWay, Arrived, DeliveryFailed}
    case InTransit => {OnTheWay, Arrived, HandedOver, DeliveryFailed}
    case OnTheWay => {Arrived, HandedOver, DeliveryFailed}
    case Arrived => {HandedOver, DeliveryFailed}
    case HandedOver => {}
    case DeliveryFailed => {}
    case DeliveryCancelled => {}
  }

  function RiderUpdate(db: Db, rider: nat, o: nat, to: DeliveryStatus): Result<Db> {
    if o >= |db.orders| || db.orders[o].delivery.None? then Err(NotFound)
    else
      var row := db.orders[o];
      var d := row.delivery.value;
      if d.rider != Some(rider) then Err(Forbidden)
      else if to !in DeliveryMoves(d.status) || to == Collected || to == HandedOver then Err(Invalid)
      else
        var moved := row.(delivery := Some(d.(status := to)));
        if to !in {InTransit, OnTheWay, Arrived} || row.status == OutForDelivery then Ok(SetOrder(db, o, moved))
        else if !CanTransition(row.status, OutForDelivery) then Err(Invalid)
        else Ok(SetOrder(db, o, Move(moved, OutForDelivery)))
  }

  function ConfirmPickup(db: Db, rider: nat, o: nat, credential: bool, allScanned: bool): Result<Db> {
    if o >= |db.orders| || db.orders[o].delivery.None? || db.orders[o].delivery.value.rider != Some(rider)
    then Err(Forbidden)
    else if !credential then Err(Forbidden)
    else if !allScanned then Err(Conflict)
    else
      var row := db.orders[o];
      if row.status !in {ReadyForPickup, RiderAssigned} then Err(Invalid)
      else Ok(SetOrder(db, o, Move(row, PickedUp).(delivery := Some(row.delivery.value.(status := Collected)))))
  }

  /** Pays the held fee out, once. */
  function ReleaseEarning(db: Db, o: nat): Result<Db>
    requires o < |db.orders|
  {
    var row := db.orders[o];
    if row.earning.None? || row.earning.value.released then Ok(db)
    else if row.earning.value.rider !in db.purse.balances then Err(NotFound)
    else
      var e := row.earning.value;
      var purse :- Post(db.purse, Entry(e.rider, Release, e.amount, FeeRelease(o)));
      Ok(SetOrder(db, o, row.(earning := Some(e.(released := true)))).(purse := purse))
  }

  function ConfirmDelivery(db: Db, rider: nat, o: nat, credential: bool): Result<Db> {
    if o >= |db.orders| || db.orders[o].delivery.None? || db.orders[o].delivery.value.rider != Some(rider)
    then Err(Forbidden)
    else if !credential then Err(Forbidden)
    else
      var row := db.orders[o];
      if row.status != OutForDelivery then Err(Invalid)
      else
        var handed := Move(row, Delivered).(delivery := Some(row.delivery.value.(status := HandedOver)));
        var released :- ReleaseEarning(SetOrder(db, o, handed), o);
        if o >= |released.orders| then Err(NotFound) else Ok(CompleteOrder(released, o))
  }

  // ----- wallets -----

  function StartTopup(db: Db, user: nat, amount: nat): Result<Db> {
    Ok(db.(topups := db.topups + [Funding(user, amount, Pending)]))
  }

  /** Card and bank-transfer top-ups; a failure is written whatever the row says by now. */
  function VerifyTopup(db: Db, t: nat, reported: int, success: bool): Result<Db> {
    if t >= |db.topups| then Err(NotFound)
    else
      var f := db.topups[t];
      if reported != f.amount then Err(Invalid)
      else if !success then Ok(db.(topups := db.topups[t := f.(status := Failed)]))
      else if f.status == Paid then Ok(db)
      else
        var purse :- Post(db.purse, Entry(f.user, Credit, f.amount, TopupCredit(t)));
        Ok(db.(topups := db.topups[t := f.(status := Paid)], purse := purse))
  }

  /** A transfer into a dedicated account arrives; a handler starts only while there is no payment row. */
  function ArriveTransfer(db: Db, reference: nat, user: nat, amount: nat): Result<Db> {
    if amount == 0 then Err(Invalid)
    else if reference in db.transfers then Err(Conflict)
    else Ok(db.(receipts := db.receipts + [Receipt(reference, user, amount, false)]))
  }

  function Dropped(receipts: seq<Receipt>, i: nat): seq<Receipt>
    requires i < |receipts|
  {
    receipts[..i] + receipts[i + 1..]
  }

  /** The first half of the handler: the payment row, if there is none by now. */
  function RecordTransfer(db: Db, i: nat): Result<Db> {
    if i >= |db.receipts| then Err(NotFound)
    else
      var c := db.receipts[i];
      var transfers :=
        if c.reference in db.transfers then db.transfers
        else db.transfers[c.reference := Funding(c.user, c.amount, Pending)];
      Ok(db.(receipts := db.receipts[i := c.(recorded := true)], transfers := transfers))
  }

  /** The second half: the handler's wallet is credited unless the row or the ledger says it was. */
  function CreditTransfer(db: Db, i: nat): Result<Db> {
    if i >= |db.receipts| || !db.receipts[i].recorded || db.receipts[i].reference !in db.transfers then Err(NotFound)
    else
      var c := db.receipts[i];
      var f := db.transfers[c.reference];
      var rest := db.(receipts := Dropped(db.receipts, i));
      if f.status == Paid then Ok(rest)
      else
        var paid := rest.(transfers := db.transfers[c.reference := f.(status := Paid)], purse := Open(db.purse, c.user));
        if Find(db.purse.entries, TransferCredit(c.reference)).Some? then Ok(paid)
        else
          var purse :- Post(paid.purse, Entry(c.user, Credit, c.amount, TransferCredit(c.reference)));
          Ok(paid.(purse := purse))
  }

  /** The handler dies: a crash, a timeout, an exception. */
  function DropTransfer(db: Db, i: nat): Result<Db> {
    if i >= |db.receipts| then Err(NotFound) else Ok(db.(receipts := Dropped(db.receipts, i)))
  }

  /** A redelivery finds the row and takes the route of a checkout payment that has no groups. */
  function RedeliverTransfer(db: Db, reference: nat, reported: int, success: bool): Result<Db> {
    if reference !in db.transfers then Err(NotFound)
    else
      var f := db.transfers[reference];
      if f.status == Paid then Ok(db)
      else if reported != f.amount then Err(Invalid)
      else if f.status == Failed && !success then Ok(db)
      else Ok(db.(transfers := db.transfers[reference := f.(status := if success then Paid else Failed)]))
  }

  /** Withdrawals of customers and BNPL repayments from the wallet. */
  function ChargeWallet(db: Db, user: nat, amount: nat, id: nat): Result<Db> {
    var purse :- Charge(db.purse, user, amount, Unique(id));
    Ok(db.(purse := purse))
  }

  /** Cashback redemptions and referral rewards. */
  function CreditWallet(db: Db, user: nat, amount: nat, id: nat): Result<Db> {
    var purse :- Post(db.purse, Entry(user, Credit, amount, Unique(id)));
    Ok(db.(purse := purse))
  }

  /** A rider's withdrawal checks the balance before its transaction, not within it. */
  function RiderWithdraw(db: Db, user: nat, amount: nat, id: nat): Result<Db> {
    if user !in db.purse.balances then Err(NotFound)
    else
      var purse :- Post(db.purse, Entry(user, Debit, amount, Unique(id)));
      Ok(db.(purse := purse))
  }

  function StoreWithdraw(db: Db, store: nat, amount: nat, id: nat): Result<Db> {
    if store !in db.stores.balances then Err(Invalid)
    else
      var stores :- Post(db.stores, Entry(store, Debit, amount, StoreWithdrawal(id)));
      Ok(db.(stores := stores))
  }

  /** A voucher is claimed once per user and paid for with points. */
  function ClaimVoucher(db: Db, user: nat, voucher: nat, cost: nat): Result<Db> {
    if exists i :: 0 <= i < |db.claims| && db.claims[i].user == user && db.claims[i].voucher == voucher then Ok(db)
    else if Points(db.points, user) < cost then Err(Insufficient)
    else Ok(db.(points := db.points[user := Points(db.points, user) - cost],
                claims := db.claims + [Claim(user, voucher, cost)]))
  }
}
