/** What holds in every reachable state of the shop, row by row. */
module Invariant {
  import opened Outcome
  import opened Ledger
  import opened OrderLife
  import opened Shop
  import Q = Quote

  // ----- one order -----

  predicate Active(s: Status) {
    s != OrderReceived && s != Cancelled
  }

  /** The figures of an order agree with its lines, which are all its store's. */
  predicate BillOk(b: Bill) {
    && b.subtotal == Q.SumLines(b.lines)
    && b.total == b.subtotal + b.shippingFee - b.discount - b.shippingDiscount
    && (forall i :: 0 <= i < |b.lines| ==> b.lines[i].store == b.store)
  }

  /** A rider only ever holds an order from the claim on, so never a cancelled one. */
  ghost predicate OrderOk(o: Order) {
    && Walk(o.history, o.status) && BillOk(o.bill)
    && (o.refund.Some? ==> o.status == Cancelled && o.refund.value.amount == o.bill.total)
    && (HasRider(o) ==> o.status in {RiderAssigned, OutForDelivery, PickedUp, Delivered, Completed})
    && (o.earning.Some? <==> HasRider(o) && o.bill.shippingFee > 0)
    && (o.earning.Some? ==>
      && o.earning.value.rider == o.delivery.value.rider.value
      && o.earning.value.amount == o.bill.shippingFee
      && (o.earning.value.released <==> HandedByQr(o)))
    && (HandedByQr(o) ==> o.status == Completed && HasRider(o))
    && (o.status == Cancelled && o.delivery.Some? ==> o.delivery.value.status == DeliveryCancelled)
  }

  /** The delivery status that only the customer's QR code brings about. */
  predicate HandedByQr(o: Order) {
    o.delivery.Some? && o.delivery.value.status == HandedOver
  }

  ghost predicate OrdersOk(orders: seq<Order>) {
    forall o :: 0 <= o < |orders| ==> OrderOk(orders[o])
  }

  /** Every order is reached from its allocation row. */
  ghost predicate Linked(orders: seq<Order>, groups: seq<Group>) {
    forall o :: 0 <= o < |orders| ==>
      var k := orders[o].key;
      k.group < |groups| && k.slot < |groups[k.group].allocations| && groups[k.group].allocations[k.slot].order == o
  }

  // ----- one payment group -----

  function SumAmounts(allocations: seq<Allocation>): nat {
    if allocations == [] then 0 else allocations[0].amount + SumAmounts(allocations[1..])
  }

  ghost predicate MembersOk(g: nat, row: Group, orders: seq<Order>) {
    && row.allocations != []
    && (forall k :: 0 <= k < |row.allocations| ==>
      var a := row.allocations[k];
      && a.order < |orders| && orders[a.order].key == Key(g, k)
      && orders[a.order].bill.total == a.amount && orders[a.order].bill.user == row.user)
    && row.total == SumAmounts(row.allocations)
  }

  ghost predicate AllAre(row: Group, orders: seq<Order>, s: Status)
    requires forall a :: a in row.allocations ==> a.order < |orders|
  {
    forall k :: 0 <= k < |row.allocations| ==> orders[row.allocations[k].order].status == s
  }

  ghost predicate AllRefunded(row: Group, orders: seq<Order>)
    requires forall a :: a in row.allocations ==> a.order < |orders|
  {
    forall k :: 0 <= k < |row.allocations| ==> orders[row.allocations[k].order].refund.Some?
  }

  ghost predicate NoneRefunded(row: Group, orders: seq<Order>)
    requires forall a :: a in row.allocations ==> a.order < |orders|
  {
    forall k :: 0 <= k < |row.allocations| ==> orders[row.allocations[k].order].refund.None?
  }

  ghost predicate NoneConfirmed(row: Group, orders: seq<Order>)
    requires forall a :: a in row.allocations ==> a.order < |orders|
  {
    forall k :: 0 <= k < |row.allocations| ==> !WasConfirmed(orders[row.allocations[k].order].history)
  }

  predicate FitsMethod(via: Method, provider: Provider) {
    match via
    case Wallet => provider == Manual
    case Financed => provider == Manual
    case KlumpBnpl => provider == Klump
    case _ => provider == Paystack
  }

  /** A payment carries the amount of its group and comes from the provider of its method. */
  ghost predicate PaymentFits(row: Group, payments: seq<Payment>) {
    row.payment.Some? ==>
      && row.payment.value < |payments|
      && payments[row.payment.value].amount == row.total
      && FitsMethod(row.via, payments[row.payment.value].provider)
  }

  ghost predicate StatusOk(row: Group, orders: seq<Order>, payments: seq<Payment>)
    requires forall a :: a in row.allocations ==> a.order < |orders|
    requires PaymentFits(row, payments)
  {
    match row.status
    case Pending =>
      && row.activeCart == Some(row.cart) && row.payment.None? && AllAre(row, orders, OrderReceived)
      && row.via !in {Wallet, Financed}
    case Processing =>
      && row.activeCart == Some(row.cart) && row.payment.Some? && AllAre(row, orders, OrderReceived)
      && payments[row.payment.value].status == Pending
      && row.via !in {Wallet, Financed}
    case Paid =>
      && row.activeCart.None? && row.payment.Some?
      && payments[row.payment.value].status in {Paid, Refunded, PartiallyRefunded}
      && (forall k :: 0 <= k < |row.allocations| ==>
        var o := orders[row.allocations[k].order];
        o.status != OrderReceived && (o.status == Cancelled ==> o.refund.Some?))
    case Failed =>
      && row.activeCart.None? && AllAre(row, orders, Cancelled) && NoneConfirmed(row, orders)
      && row.via !in {Wallet, Financed}
      && (AllRefunded(row, orders) || NoneRefunded(row, orders))
      && (row.payment.Some? && (payments[row.payment.value].status != Failed || AllRefunded(row, orders)) ==>
        payments[row.payment.value].provider == Paystack && AllRefunded(row, orders))
    case _ => false
  }

  /** Refunds of a group's orders are drawn on the group's own payment. */
  ghost predicate RefundsDrawn(row: Group, orders: seq<Order>)
    requires forall a :: a in row.allocations ==> a.order < |orders|
  {
    forall k :: 0 <= k < |row.allocations| ==>
      var r := orders[row.allocations[k].order].refund;
      r.Some? ==> row.payment == Some(r.value.payment)
  }

  ghost predicate GroupOk(g: nat, row: Group, orders: seq<Order>, payments: seq<Payment>) {
    && MembersOk(g, row, orders)
    && PaymentFits(row, payments)
    && StatusOk(row, orders, payments)
    && RefundsDrawn(row, orders)
  }

  ghost predicate GroupsOk(orders: seq<Order>, groups: seq<Group>, payments: seq<Payment>) {
    forall g :: 0 <= g < |groups| ==> GroupOk(g, groups[g], orders, payments)
  }

  /** No two groups share a payment, no two unpaid groups share a cart. */
  ghost predicate OnePayer(groups: seq<Group>) {
    forall g, h :: 0 <= g < h < |groups| && groups[g].payment.Some? ==> groups[g].payment != groups[h].payment
  }

  ghost predicate CartsApart(groups: seq<Group>) {
    forall g, h :: 0 <= g < h < |groups| && groups[g].activeCart.Some? ==> groups[g].activeCart != groups[h].activeCart
  }

  // ----- stock -----

  function LineQuantity(lines: seq<Q.Line>, p: nat): nat {
    if lines == [] then 0
    else (if lines[0].product == p then lines[0].quantity else 0) + LineQuantity(lines[1..], p)
  }

  /** Units of a product that orders not cancelled hold. */
  function Held(orders: seq<Order>, p: nat): nat {
    if orders == [] then 0
    else
      var o := orders[|orders| - 1];
      Held(orders[..|orders| - 1], p) + if o.status == Cancelled then 0 else LineQuantity(o.bill.lines, p)
  }

  function Stock(products: map<nat, Product>, p: nat): int {
    if p in products then products[p].stock else 0
  }

  /** Everything there is of a product: on the shelf or held by an order. */
  function Units(db: Db, p: nat): int {
    Stock(db.products, p) + Held(db.orders, p)
  }

  ghost predicate LinesKnown(lines: seq<Q.Line>, products: map<nat, Product>) {
    forall i :: 0 <= i < |lines| ==> lines[i].product in products
  }

  ghost predicate Stocked(orders: seq<Order>, products: map<nat, Product>) {
    && (forall p :: p in products ==> products[p].stock >= 0)
    && (forall o :: 0 <= o < |orders| ==> LinesKnown(orders[o].bill.lines, products))
  }

  // ----- the store wallets -----

  /** A confirmed order credited its store once; a cancellation took exactly that back, once. */
  ghost predicate SettledOk(o: nat, row: Order, entries: seq<Entry<StoreRef>>) {
    var s, r := Find(entries, Settled(o)), Find(entries, Reversed(o));
    && (s.Some? ==> s.value.owner == row.bill.store && s.value.kind == Credit)
    && (s.Some? <==> WasConfirmed(row.history))
    && (r.Some? ==> s.Some? && r.value == Entry(row.bill.store, Debit, s.value.amount, Reversed(o)))
    && (row.status == OrderReceived ==> s.None?)
    && (row.status == Cancelled ==> (s.Some? <==> r.Some?))
    && (Active(row.status) ==> s.Some? && r.None?)
  }

  ghost predicate StoresOk(orders: seq<Order>, stores: Book<StoreRef>) {
    && Sound(stores)
    && (forall o :: 0 <= o < |orders| ==> SettledOk(o, orders[o], stores.entries))
    && (forall o: nat :: |orders| <= o ==>
      Find(stores.entries, Settled(o)).None? && Find(stores.entries, Reversed(o)).None?)
  }

  // ----- the customer and rider wallets -----

  predicate ByWallet(row: Order, groups: seq<Group>) {
    row.key.group < |groups| && groups[row.key.group].via == Wallet
  }

  /** The only wallet entries an order causes: its wallet refund, the rider's hold and release. */
  ghost predicate PursedOk(o: nat, row: Order, wallet: bool, entries: seq<Entry<PurseRef>>) {
    && Find(entries, OrderCancel(o))
       == (if wallet && row.status == Cancelled
           then Some(Entry(row.bill.user, Credit, row.bill.total, OrderCancel(o))) else None)
    && Find(entries, FeeHold(o))
       == (if row.earning.Some?
           then Some(Entry(row.earning.value.rider, Hold, row.earning.value.amount, FeeHold(o))) else None)
    && Find(entries, FeeRelease(o))
       == (if row.earning.Some? && row.earning.value.released
           then Some(Entry(row.earning.value.rider, Release, row.earning.value.amount, FeeRelease(o))) else None)
  }

  ghost predicate DebitedOk(g: nat, row: Group, entries: seq<Entry<PurseRef>>) {
    Find(entries, CheckoutDebit(g))
    == if row.via == Wallet then Some(Entry(row.user, Debit, row.total, CheckoutDebit(g))) else None
  }

  ghost predicate PurseOk(orders: seq<Order>, groups: seq<Group>, purse: Book<PurseRef>) {
    && Sound(purse)
    && (forall g :: 0 <= g < |groups| ==> DebitedOk(g, groups[g], purse.entries))
    && (forall g: nat :: |groups| <= g ==> Find(purse.entries, CheckoutDebit(g)).None?)
    && (forall o :: 0 <= o < |orders| ==> PursedOk(o, orders[o], ByWallet(orders[o], groups), purse.entries))
    && (forall o: nat :: |orders| <= o ==>
      && Find(purse.entries, OrderCancel(o)).None?
      && Find(purse.entries, FeeHold(o)).None? && Find(purse.entries, FeeRelease(o)).None?)
  }

  // ----- top-ups and bank transfers -----

  /** A top-up is credited by its own amount or not at all, and certainly once it is PAID. */
  ghost predicate FundedOk(t: nat, f: Funding, entries: seq<Entry<PurseRef>>) {
    var c := Find(entries, TopupCredit(t));
    && (c.Some? ==> c.value == Entry(f.user, Credit, f.amount, TopupCredit(t)))
    && (f.status == Paid ==> c.Some?)
  }

  ghost predicate FundingOk(topups: seq<Funding>, transfers: map<nat, Funding>, purse: Book<PurseRef>) {
    && (forall t :: 0 <= t < |topups| ==> FundedOk(t, topups[t], purse.entries))
    && (forall t: nat :: |topups| <= t ==> Find(purse.entries, TopupCredit(t)).None?)
    && (forall r: nat :: Find(purse.entries, TransferCredit(r)).Some? ==>
      r in transfers && Find(purse.entries, TransferCredit(r)).value.kind == Credit)
  }

  // ----- reward points -----

  function Earned(orders: seq<Order>, user: nat): nat {
    if orders == [] then 0
    else
      var o := orders[|orders| - 1];
      Earned(orders[..|orders| - 1], user)
      + if o.status == Completed && o.bill.user == user then PointsFor(o.bill.total) else 0
  }

  function Spent(claims: seq<Claim>, user: nat): nat {
    if claims == [] then 0
    else
      var c := claims[|claims| - 1];
      Spent(claims[..|claims| - 1], user) + if c.user == user then c.cost else 0
  }

  ghost predicate PointsOk(orders: seq<Order>, points: map<nat, int>, claims: seq<Claim>) {
    forall user: nat :: Points(points, user) == Earned(orders, user) - Spent(claims, user) && Points(points, user) >= 0
  }

  // ----- verifications under way -----

  ghost predicate VerificationOk(v: Verification, groups: seq<Group>, payments: seq<Payment>) {
    && v.payment < |payments|
    && payments[v.payment].provider == (if v.answer == KlumpSuccess then Klump else Paystack)
    && |v.groups| == 1 && v.groups[0] < |groups| && groups[v.groups[0]].payment == Some(v.payment)
  }

  ghost predicate InflightOk(inflight: seq<Verification>, groups: seq<Group>, payments: seq<Payment>) {
    forall i :: 0 <= i < |inflight| ==> VerificationOk(inflight[i], groups, payments)
  }

  predicate PaidBy(row: Group, p: nat) {
    row.payment == Some(p)
  }

  ghost predicate HasPayer(groups: seq<Group>, p: nat) {
    exists g :: 0 <= g < |groups| && PaidBy(groups[g], p)
  }

  /** Each payment row was created for a group. */
  ghost predicate Owned(groups: seq<Group>, payments: seq<Payment>) {
    forall p :: 0 <= p < |payments| ==> HasPayer(groups, p)
  }

  ghost predicate Inv(db: Db) {
    && Linked(db.orders, db.groups)
    && OrdersOk(db.orders)
    && GroupsOk(db.orders, db.groups, db.payments)
    && OnePayer(db.groups)
    && Owned(db.groups, db.payments)
    && CartsApart(db.groups)
    && Stocked(db.orders, db.products)
    && StoresOk(db.orders, db.stores)
    && PurseOk(db.orders, db.groups, db.purse)
    && FundingOk(db.topups, db.transfers, db.purse)
    && PointsOk(db.orders, db.points, db.claims)
    && InflightOk(db.inflight, db.groups, db.payments)
  }

  /** A shop without orders, wallets and rewards, whatever it sells and at whatever rates. */
  ghost predicate Blank(db: Db) {
    && db.orders == [] && db.groups == [] && db.payments == []
    && db.stores.entries == [] && db.stores.balances == map[] && db.purse.entries == [] && db.purse.balances == map[]
    && db.points == map[] && db.claims == [] && db.topups == [] && db.transfers == map[] && db.receipts == [] && db.inflight == []
    && (forall p :: p in db.products ==> db.products[p].stock >= 0)
  }

  lemma BlankIsOk(db: Db)
    requires Blank(db)
    ensures Inv(db)
  {
    NewBookIsSound<StoreRef>();
    NewBookIsSound<PurseRef>();
    assert PurseOk(db.orders, db.groups, db.purse);
    assert StoresOk(db.orders, db.stores);
    assert FundingOk(db.topups, db.transfers, db.purse);
    assert PointsOk(db.orders, db.points, db.claims);
  }

  lemma NewBookIsSound<Ref>()
    ensures Sound(Book<Ref>.Book(map[], []))
  {
  }

  // ----- how rows evolve over any number of steps -----

  predicate Terminal(s: Status) {
    s == Completed || s == Cancelled
  }

  /** History only grows, a terminal status stays, and what was fixed stays fixed. */
  ghost predicate OrderEvolves(x: Order, y: Order) {
    && y.key == x.key && y.bill == x.bill
    && x.history <= y.history
    && (Terminal(x.status) ==> y.status == x.status && y.history == x.history)
    && (x.status == Delivered ==> y.status in {Delivered, Completed})
    && (HandedByQr(y) && !HandedByQr(x) ==> x.status !in {Delivered, Completed})
    && (HasRider(x) ==> HasRider(y) && y.delivery.value.rider == x.delivery.value.rider)
    && (x.earning.Some? ==>
      && y.earning.Some? && y.earning.value.rider == x.earning.value.rider
      && y.earning.value.amount == x.earning.value.amount && (x.earning.value.released ==> y.earning.value.released))
    && (x.refund.Some? ==>
      && y.refund.Some? && y.refund.value.amount == x.refund.value.amount
      && y.refund.value.payment == x.refund.value.payment && y.refund.value.provider == x.refund.value.provider)
  }

  /** PAID and FAILED are final, and a group keeps its payment. */
  ghost predicate GroupEvolves(x: Group, y: Group) {
    && y.user == x.user && y.cart == x.cart && y.input == x.input && y.via == x.via && y.total == x.total
    && y.allocations == x.allocations
    && (Resolved(x) ==> y.status == x.status)
    && (x.payment.Some? ==> y.payment == x.payment)
  }

  ghost predicate OrdersEvolve(a: seq<Order>, b: seq<Order>) {
    |a| <= |b| && forall o :: 0 <= o < |a| ==> OrderEvolves(a[o], b[o])
  }

  ghost predicate GroupsEvolve(a: seq<Group>, b: seq<Group>) {
    |a| <= |b| && forall g :: 0 <= g < |a| ==> GroupEvolves(a[g], b[g])
  }

  ghost predicate PaymentsEvolve(a: seq<Payment>, b: seq<Payment>) {
    |a| <= |b| && forall p :: 0 <= p < |a| ==> b[p].amount == a[p].amount && b[p].provider == a[p].provider
  }

  /** Ledgers are append-only. */
  ghost predicate Evolves(a: Db, b: Db) {
    && OrdersEvolve(a.orders, b.orders) && GroupsEvolve(a.groups, b.groups) && PaymentsEvolve(a.payments, b.payments)
    && a.stores.entries <= b.stores.entries && a.purse.entries <= b.purse.entries
  }

  lemma EvolvesTransitive(a: Db, b: Db, c: Db)
    requires Evolves(a, b) && Evolves(b, c)
    ensures Evolves(a, c)
  {
    forall o | 0 <= o < |a.orders| ensures OrderEvolves(a.orders[o], c.orders[o]) {
      assert OrderEvolves(a.orders[o], b.orders[o]) && OrderEvolves(b.orders[o], c.orders[o]);
    }
    forall g | 0 <= g < |a.groups| ensures GroupEvolves(a.groups[g], c.groups[g]) {
      assert GroupEvolves(a.groups[g], b.groups[g]) && GroupEvolves(b.groups[g], c.groups[g]);
    }
  }

  // ----- replacing one order -----

  lemma HeldReplace(orders: seq<Order>, o: nat, row: Order, p: nat)
    requires o < |orders|
    ensures Held(orders[o := row], p) == Held(orders, p)
      - (if orders[o].status == Cancelled then 0 else LineQuantity(orders[o].bill.lines, p))
      + (if row.status == Cancelled then 0 else LineQuantity(row.bill.lines, p))
  {
    var last := |orders| - 1;
    if o < last {
      assert orders[o := row][..last] == orders[..last][o := row];
      HeldReplace(orders[..last], o, row, p);
    } else {
      assert orders[o := row][..last] == orders[..last];
    }
  }

  lemma UnitsFrame(db: Db, n: Db)
    requires n.orders == db.orders && n.products == db.products
    ensures forall p :: Units(n, p) == Units(db, p)
  {
    forall p ensures Units(n, p) == Units(db, p) {
    }
  }

  lemma UnitsReplace(db: Db, n: Db, o: nat, row: Order)
    requires o < |db.orders| && n.orders == db.orders[o := row] && n.products == db.products
    requires row.bill == db.orders[o].bill && (row.status == Cancelled <==> db.orders[o].status == Cancelled)
    ensures forall p :: Units(n, p) == Units(db, p)
  {
    forall p ensures Units(n, p) == Units(db, p) {
      HeldReplace(db.orders, o, row, p);
    }
  }

  lemma EarnedReplace(orders: seq<Order>, o: nat, row: Order, user: nat)
    requires o < |orders|
    ensures Earned(orders[o := row], user) == Earned(orders, user)
      - (if orders[o].status == Completed && orders[o].bill.user == user then PointsFor(orders[o].bill.total) else 0)
      + (if row.status == Completed && row.bill.user == user then PointsFor(row.bill.total) else 0)
  {
    var last := |orders| - 1;
    if o < last {
      assert orders[o := row][..last] == orders[..last][o := row];
      EarnedReplace(orders[..last], o, row, user);
    } else {
      assert orders[o := row][..last] == orders[..last];
    }
  }

  lemma HeldAppend(orders: seq<Order>, row: Order, p: nat)
    ensures Held(orders + [row], p) == Held(orders, p)
      + if row.status == Cancelled then 0 else LineQuantity(row.bill.lines, p)
  {
    assert (orders + [row])[..|orders|] == orders;
  }

  lemma EarnedAppend(orders: seq<Order>, row: Order, user: nat)
    ensures Earned(orders + [row], user) == Earned(orders, user)
      + if row.status == Completed && row.bill.user == user then PointsFor(row.bill.total) else 0
  {
    assert (orders + [row])[..|orders|] == orders;
  }

  lemma LinkedReplace(orders: seq<Order>, groups: seq<Group>, o: nat, row: Order)
    requires Linked(orders, groups) && o < |orders| && row.key == orders[o].key
    ensures Linked(orders[o := row], groups)
  {
  }

  lemma StockedReplace(orders: seq<Order>, products: map<nat, Product>, o: nat, row: Order)
    requires Stocked(orders, products) && o < |orders| && row.bill == orders[o].bill
    ensures Stocked(orders[o := row], products)
  {
  }

  lemma PointsReplace(orders: seq<Order>, points: map<nat, int>, claims: seq<Claim>, o: nat, row: Order)
    requires PointsOk(orders, points, claims) && o < |orders| && row.bill == orders[o].bill
    requires row.status == Completed <==> orders[o].status == Completed
    ensures PointsOk(orders[o := row], points, claims)
  {
    forall user: nat ensures Points(points, user) == Earned(orders[o := row], user) - Spent(claims, user) {
      EarnedReplace(orders, o, row, user);
    }
  }

  lemma PurseReplace(orders: seq<Order>, groups: seq<Group>, purse: Book<PurseRef>, o: nat, row: Order)
    requires PurseOk(orders, groups, purse) && o < |orders|
    requires row.key == orders[o].key && row.bill == orders[o].bill && row.earning == orders[o].earning
    requires row.status == Cancelled <==> orders[o].status == Cancelled
    ensures PurseOk(orders[o := row], groups, purse)
  {
    assert PursedOk(o, orders[o], ByWallet(orders[o], groups), purse.entries);
  }

  /** Whose entry it is: the order's own, or nobody else's among the orders. */
  predicate About(ref: PurseRef, o: nat) {
    ref == OrderCancel(o) || ref == FeeHold(o) || ref == FeeRelease(o)
  }

  lemma PursedFrame(i: nat, row: Order, wallet: bool, entries: seq<Entry<PurseRef>>, e: Entry<PurseRef>)
    requires PursedOk(i, row, wallet, entries) && !About(e.ref, i)
    ensures PursedOk(i, row, wallet, entries + [e])
  {
    FindAppend(entries, e, OrderCancel(i));
    FindAppend(entries, e, FeeHold(i));
    FindAppend(entries, e, FeeRelease(i));
  }

  lemma DebitedFrame(g: nat, row: Group, entries: seq<Entry<PurseRef>>, e: Entry<PurseRef>)
    requires DebitedOk(g, row, entries) && e.ref != CheckoutDebit(g)
    ensures DebitedOk(g, row, entries + [e])
  {
    FindAppend(entries, e, CheckoutDebit(g));
  }

  /** An entry about one order concerns that order's row only. */
  lemma PursePost(orders: seq<Order>, groups: seq<Group>, purse: Book<PurseRef>, after: Book<PurseRef>, o: nat, row: Order, e: Entry<PurseRef>)
    requires PurseOk(orders, groups, purse) && o < |orders| && About(e.ref, o)
    requires Sound(after) && after.entries == purse.entries + [e]
    requires PursedOk(o, row, ByWallet(row, groups), after.entries)
    ensures PurseOk(orders[o := row], groups, after)
  {
    hide Sound, Find;
    forall g | 0 <= g < |groups| ensures DebitedOk(g, groups[g], after.entries) {
      assert DebitedOk(g, groups[g], purse.entries);
      hide DebitedOk;
      DebitedFrame(g, groups[g], purse.entries, e);
    }
    forall i | 0 <= i < |orders| && i != o ensures PursedOk(i, orders[i], ByWallet(orders[i], groups), after.entries) {
      assert PursedOk(i, orders[i], ByWallet(orders[i], groups), purse.entries);
      hide PursedOk;
      PursedFrame(i, orders[i], ByWallet(orders[i], groups), purse.entries, e);
    }
    hide PursedOk, DebitedOk;
    FindAppendAll(purse.entries, e);
  }

  lemma SettledFrame(i: nat, row: Order, entries: seq<Entry<StoreRef>>, e: Entry<StoreRef>)
    requires SettledOk(i, row, entries) && e.ref != Settled(i) && e.ref != Reversed(i)
    ensures SettledOk(i, row, entries + [e])
  {
    FindAppend(entries, e, Settled(i));
    FindAppend(entries, e, Reversed(i));
  }

  lemma StoresPost(orders: seq<Order>, stores: Book<StoreRef>, after: Book<StoreRef>, o: nat, row: Order, e: Entry<StoreRef>)
    requires StoresOk(orders, stores) && o < |orders| && (e.ref == Settled(o) || e.ref == Reversed(o))
    requires Sound(after) && after.entries == stores.entries + [e]
    requires SettledOk(o, row, after.entries)
    ensures StoresOk(orders[o := row], after)
  {
    hide Sound, Find;
    forall i | 0 <= i < |orders| && i != o ensures SettledOk(i, orders[i], after.entries) {
      assert SettledOk(i, orders[i], stores.entries);
      hide SettledOk;
      SettledFrame(i, orders[i], stores.entries, e);
    }
    hide SettledOk;
    FindAppendAll(stores.entries, e);
  }

  lemma StoresReplace(orders: seq<Order>, stores: Book<StoreRef>, o: nat, row: Order)
    requires StoresOk(orders, stores) && o < |orders| && row.bill == orders[o].bill
    requires row.status == Cancelled <==> orders[o].status == Cancelled
    requires row.status == OrderReceived <==> orders[o].status == OrderReceived
    requires orders[o].history <= row.history && (row.status == Cancelled ==> row.history == orders[o].history)
    requires |orders[o].history| > 1 || row.history == orders[o].history
    ensures StoresOk(orders[o := row], stores)
  {
    assert SettledOk(o, orders[o], stores.entries);
  }

  /** Orders of other groups may change freely as far as one group is concerned. */
  lemma GroupFrame(g: nat, row: Group, orders: seq<Order>, after: seq<Order>, payments: seq<Payment>, now: seq<Payment>)
    requires GroupOk(g, row, orders, payments)
    requires |orders| <= |after|
    requires forall o :: 0 <= o < |orders| && orders[o].key.group == g ==> after[o] == orders[o]
    requires row.payment.Some? ==> row.payment.value < |now| && now[row.payment.value] == payments[row.payment.value]
    ensures GroupOk(g, row, after, now)
  {
    assert forall k :: 0 <= k < |row.allocations| ==> orders[row.allocations[k].order].key.group == g;
  }

  /** An order that keeps its place in life keeps its group consistent. */
  lemma GroupsReplace(orders: seq<Order>, groups: seq<Group>, payments: seq<Payment>, o: nat, row: Order)
    requires GroupsOk(orders, groups, payments) && o < |orders|
    requires row.key == orders[o].key && row.bill == orders[o].bill
    requires row.status == Cancelled <==> orders[o].status == Cancelled
    requires row.status == OrderReceived <==> orders[o].status == OrderReceived
    requires orders[o].history <= row.history && (row.status == Cancelled ==> row.history == orders[o].history)
    requires row.refund.Some? <==> orders[o].refund.Some?
    requires row.refund.Some? ==> row.refund.value.payment == orders[o].refund.value.payment
    ensures GroupsOk(orders[o := row], groups, payments)
  {
    forall g | 0 <= g < |groups| ensures GroupOk(g, groups[g], orders[o := row], payments) {
      GroupReplace(g, groups[g], orders, payments, o, row);
    }
  }

  lemma GroupReplace(g: nat, group: Group, orders: seq<Order>, payments: seq<Payment>, o: nat, row: Order)
    requires GroupOk(g, group, orders, payments) && o < |orders|
    requires row.key == orders[o].key && row.bill == orders[o].bill
    requires row.status == Cancelled <==> orders[o].status == Cancelled
    requires row.status == OrderReceived <==> orders[o].status == OrderReceived
    requires orders[o].history <= row.history && (row.status == Cancelled ==> row.history == orders[o].history)
    requires row.refund.Some? <==> orders[o].refund.Some?
    requires row.refund.Some? ==> row.refund.value.payment == orders[o].refund.value.payment
    ensures GroupOk(g, group, orders[o := row], payments)
  {
    var after := orders[o := row];
    forall k | 0 <= k < |group.allocations|
      ensures
        var x, y := orders[group.allocations[k].order], after[group.allocations[k].order];
        && y.key == x.key && y.bill == x.bill
        && (y.status == Cancelled <==> x.status == Cancelled)
        && (y.status == OrderReceived <==> x.status == OrderReceived)
        && (y.status == Cancelled ==> y.history == x.history)
        && (y.refund.Some? <==> x.refund.Some?)
        && (y.refund.Some? ==> y.refund.value.payment == x.refund.value.payment)
    {
    }
  }
}
