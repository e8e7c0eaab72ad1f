/**
 The services at work on the tables: rows are written one after another, in loops over groups,
 allocations and order lines, inside transactions that are rolled back when anything is refused.
 Every transaction is proved to be the corresponding step of the machine.
 */
module Database {
  import opened Outcome
  import opened Ledger
  import opened OrderLife
  import opened Shop
  import opened Invariant
  import opened Runs
  import Q = Quote
  import S = Settlement
  import F = Fingerprint

  /** What a piece of work inside a transaction did, as its specification says. */
  ghost predicate Did(spec: Result<Db>, r: Result<()>, now: Db) {
    if spec.Ok? then r.Ok? && now == spec.value else r == Err(spec.error)
  }

  /** A whole transaction: done as specified, or refused and without a trace. */
  ghost predicate Committed(spec: Result<Db>, r: Result<()>, before: Db, now: Db) {
    Did(spec, r, now) && (r.Err? ==> now == before)
  }

  lemma Whole(s: Db)
    ensures s == Db(s.orders, s.groups, s.payments, s.products, s.stores, s.purse, s.points, s.claims, s.topups,
                    s.transfers, s.receipts, s.rates, s.inflight)
  {
  }

  class Tables {
    var orders: seq<Order>
    var groups: seq<Group>
    var payments: seq<Payment>
    var products: map<nat, Product>
    var stores: Book<StoreRef>
    var purse: Book<PurseRef>
    var points: map<nat, int>
    var claims: seq<Claim>
    var topups: seq<Funding>
    var transfers: map<nat, Funding>
    var receipts: seq<Receipt>
    var rates: S.Rates
    var inflight: seq<Verification>

    ghost function Snapshot(): Db
      reads this
    {
      Db(orders, groups, payments, products, stores, purse, points, claims, topups, transfers, receipts, rates, inflight)
    }

    constructor (products: map<nat, Product>, rates: S.Rates)
      requires forall p :: p in products ==> products[p].stock >= 0
      ensures Blank(Snapshot()) && Inv(Snapshot())
      ensures this.products == products && this.rates == rates
    {
      this.products, this.rates := products, rates;
      orders, groups, payments, claims, topups, inflight := [], [], [], [], [], [];
      stores, purse := Book(map[], []), Book(map[], []);
      points, transfers, receipts := map[], map[], [];
      new;
      BlankIsOk(Snapshot());
    }

    method Save() returns (s: Db)
      ensures s == Snapshot()
    {
      s := Db(orders, groups, payments, products, stores, purse, points, claims, topups, transfers, receipts, rates, inflight);
    }

    method RestoreBooks(s: Db)
      modifies this`stores, this`purse, this`points, this`claims, this`topups, this`transfers, this`receipts
      ensures stores == s.stores && purse == s.purse && points == s.points && claims == s.claims
      ensures topups == s.topups && transfers == s.transfers && receipts == s.receipts
    {
      stores, purse, points, claims := s.stores, s.purse, s.points, s.claims;
      topups, transfers, receipts := s.topups, s.transfers, s.receipts;
    }

    method Rollback(s: Db)
      modifies this
      ensures Snapshot() == s
    {
      RestoreBooks(s);
      orders, groups, payments, products, rates, inflight := s.orders, s.groups, s.payments, s.products, s.rates, s.inflight;
      Whole(s);
    }

    // ----- stock -----

    /** Decrements each line's product, or stops at the first that is short, off sale or repriced. */
    method ReserveItems(lines: seq<Q.Line>) returns (ok: bool)
      modifies this`products
      ensures ReserveLines(old(products), lines) == if ok then Ok(products) else Err(Conflict)
    {
      var i := 0;
      assert lines[0..] == lines;
      while i < |lines|
        invariant i <= |lines| && ReserveLines(products, lines[i..]) == ReserveLines(old(products), lines)
      {
        var l := lines[i];
        assert lines[i..][0] == l && lines[i..][1..] == lines[i + 1..];
        if l.product !in products || !products[l.product].sellable || products[l.product].stock < l.quantity
           || products[l.product].price != l.unitPrice
        {
          return false;
        }
        var row := products[l.product];
        products := products[l.product := row.(stock := row.stock - l.quantity)];
        i := i + 1;
      }
      ok := true;
    }

    method ReturnItems(lines: seq<Q.Line>) returns (ok: bool)
      modifies this`products
      ensures ReturnLines(old(products), lines) == if ok then Ok(products) else Err(NotFound)
    {
      var i := 0;
      assert lines[0..] == lines;
      while i < |lines|
        invariant i <= |lines| && ReturnLines(products, lines[i..]) == ReturnLines(old(products), lines)
      {
        var l := lines[i];
        assert lines[i..][0] == l && lines[i..][1..] == lines[i + 1..];
        if l.product !in products {
          return false;
        }
        var row := products[l.product];
        products := products[l.product := row.(stock := row.stock + l.quantity)];
        i := i + 1;
      }
      ok := true;
    }

    // ----- settlement -----

    /** Holds the rider's fee when there is a rider, a fee, a paid order and no earning yet. */
    method HoldRiderEarning(o: nat) returns (r: Result<()>)
      requires o < |orders|
      modifies this`orders, this`purse
      ensures Did(HoldEarning(old(Snapshot()), o), r, Snapshot())
    {
      var row := orders[o];
      var k := row.key.group;
      if !HasRider(row) || row.bill.shippingFee == 0 || row.earning.Some? {
        return Ok(());
      }
      if k >= |groups| {
        return Ok(());
      }
      if groups[k].status != Paid
         && (groups[k].payment.None? || groups[k].payment.value >= |payments|
             || payments[groups[k].payment.value].status != Paid)
      {
        return Ok(());
      }
      var rider, fee := row.delivery.value.rider.value, row.bill.shippingFee;
      var posted := Post(Open(purse, rider), Entry(rider, Hold, fee, FeeHold(o)));
      if posted.Err? {
        return Err(posted.error);
      }
      purse := posted.value;
      orders := orders[o := row.(earning := Some(Earning(rider, fee, false)))];
      return Ok(());
    }

    method SettleStore(o: nat) returns (r: Result<()>)
      requires o < |orders|
      modifies this`orders, this`purse, this`stores
      ensures Did(SettleOrder(old(Snapshot()), o), r, Snapshot())
    {
      hide HoldEarning, Post, S.Split;
      if Find(stores.entries, Settled(o)).Some? {
        return Ok(());
      }
      var bill := orders[o].bill;
      var shares := S.Split(bill.subtotal, rates);
      if shares.Err? {
        return Err(shares.error);
      }
      var posted := Post(stores, Entry(bill.store, Credit, shares.value.store, Settled(o)));
      stores := posted.value;
      r := HoldRiderEarning(o);
    }

    // ----- completing a group -----

    method Confirm(o: nat) returns (r: Result<()>)
      modifies this`orders, this`purse, this`stores
      ensures Did(ConfirmOrder(old(Snapshot()), o), r, Snapshot())
    {
      hide SettleOrder;
      if o >= |orders| {
        return Err(NotFound);
      }
      if orders[o].status == Cancelled {
        return Err(Conflict);
      }
      if orders[o].status != OrderReceived {
        return Ok(());
      }
      orders := orders[o := Move(orders[o], Confirmed)];
      r := SettleStore(o);
    }

    /** Confirms and settles the orders of a group and closes it as PAID. */
    method Complete(g: nat) returns (r: Result<()>)
      modifies this`orders, this`purse, this`stores, this`groups
      ensures Did(CompleteGroup(old(Snapshot()), g), r, Snapshot())
    {
      hide ConfirmOrder;
      if g >= |groups| {
        return Err(NotFound);
      }
      var row := groups[g];
      if row.status == Paid && row.activeCart.None? {
        return Ok(());
      }
      if row.status == Failed {
        return Err(Conflict);
      }
      var all := row.allocations;
      var i := 0;
      assert all[0..] == all;
      while i < |all|
        invariant i <= |all| && groups == old(groups)
        invariant ConfirmAll(Snapshot(), all[i..]) == ConfirmAll(old(Snapshot()), all)
      {
        assert all[i..][0] == all[i] && all[i..][1..] == all[i + 1..];
        r := Confirm(all[i].order);
        if r.Err? {
          return;
        }
        i := i + 1;
      }
      assert all[i..] == [];
      groups := groups[g := row.(status := Paid, activeCart := None)];
      r := Ok(());
    }

    method CompleteAllGroups(gs: seq<nat>) returns (r: Result<()>)
      modifies this`orders, this`purse, this`stores, this`groups
      ensures Did(CompleteGroups(old(Snapshot()), gs), r, Snapshot())
    {
      hide CompleteGroup;
      var i := 0;
      assert gs[0..] == gs;
      while i < |gs|
        invariant i <= |gs| && CompleteGroups(Snapshot(), gs[i..]) == CompleteGroups(old(Snapshot()), gs)
      {
        assert gs[i..][0] == gs[i] && gs[i..][1..] == gs[i + 1..];
        r := Complete(gs[i]);
        if r.Err? {
          return;
        }
        i := i + 1;
      }
      r := Ok(());
    }

    // ----- releasing a group -----

    method ReleaseOne(o: nat) returns (r: Result<()>)
      modifies this`orders, this`products
      ensures Did(ReleaseOrder(old(Snapshot()), o), r, Snapshot())
    {
      hide ReturnLines;
      if o >= |orders| {
        return Err(NotFound);
      }
      if orders[o].status != OrderReceived {
        return Err(Conflict);
      }
      var known := ReturnItems(orders[o].bill.lines);
      if !known {
        return Err(NotFound);
      }
      orders := orders[o := CallOff(orders[o])];
      r := Ok(());
    }

    /** Returns the stock of a group's orders, cancels them and closes the group as FAILED. */
    method FailOne(g: nat) returns (r: Result<()>)
      modifies this`orders, this`products, this`groups
      ensures Did(FailGroup(old(Snapshot()), g), r, Snapshot())
    {
      hide ReleaseOrder;
      if g >= |groups| {
        return Err(NotFound);
      }
      var row := groups[g];
      if row.status == Failed {
        return Ok(());
      }
      if row.status == Paid {
        return Err(Conflict);
      }
      var all := row.allocations;
      var i := 0;
      assert all[0..] == all;
      while i < |all|
        invariant i <= |all| && groups == old(groups)
        invariant ReleaseAll(Snapshot(), all[i..]) == ReleaseAll(old(Snapshot()), all)
      {
        assert all[i..][0] == all[i] && all[i..][1..] == all[i + 1..];
        r := ReleaseOne(all[i].order);
        if r.Err? {
          return;
        }
        i := i + 1;
      }
      assert all[i..] == [];
      groups := groups[g := row.(status := Failed, activeCart := None)];
      r := Ok(());
    }

    method FailAllGroups(gs: seq<nat>) returns (r: Result<()>)
      modifies this`orders, this`products, this`groups
      ensures Did(FailGroups(old(Snapshot()), gs), r, Snapshot())
    {
      hide FailGroup;
      var i := 0;
      assert gs[0..] == gs;
      while i < |gs|
        invariant i <= |gs| && FailGroups(Snapshot(), gs[i..]) == FailGroups(old(Snapshot()), gs)
      {
        assert gs[i..][0] == gs[i] && gs[i..][1..] == gs[i + 1..];
        r := FailOne(gs[i]);
        if r.Err? {
          return;
        }
        i := i + 1;
      }
      r := Ok(());
    }

    // ----- refunds for a late payment -----

    method RefundAllocations(p: nat, all: seq<Allocation>) returns (r: Result<()>)
      modifies this`orders
      ensures Did(IssueRefunds(old(Snapshot()), p, all), r, Snapshot())
    {
      var i := 0;
      assert all[0..] == all;
      while i < |all|
        invariant i <= |all| && IssueRefunds(Snapshot(), p, all[i..]) == IssueRefunds(old(Snapshot()), p, all)
      {
        var a := all[i];
        assert all[i..][0] == a && all[i..][1..] == all[i + 1..];
        if a.order >= |orders| {
          return Err(NotFound);
        }
        if orders[a.order].refund.None? {
          orders := orders[a.order := orders[a.order].(refund := Some(Refund(p, a.amount, Paystack, Requested)))];
        }
        i := i + 1;
      }
      r := Ok(());
    }

    method RefundAllGroups(p: nat, gs: seq<nat>) returns (r: Result<()>)
      modifies this`orders
      ensures Did(RefundGroups(old(Snapshot()), p, gs), r, Snapshot())
    {
      hide IssueRefunds;
      var i := 0;
      assert gs[0..] == gs;
      while i < |gs|
        invariant i <= |gs| && RefundGroups(Snapshot(), p, gs[i..]) == RefundGroups(old(Snapshot()), p, gs)
      {
        assert gs[i..][0] == gs[i] && gs[i..][1..] == gs[i + 1..];
        if gs[i] >= |groups| {
          return Err(NotFound);
        }
        r := RefundAllocations(p, groups[gs[i]].allocations);
        if r.Err? {
          return;
        }
        i := i + 1;
      }
      r := Ok(());
    }

    method WritePayment(p: nat, status: PayStatus)
      requires p < |payments|
      modifies this`payments
      ensures Snapshot() == SetPayment(old(Snapshot()), p, status)
    {
      payments := payments[p := payments[p].(status := status)];
    }

    // ----- starting a payment -----

    method Attach(g: nat, provider: Provider)
      requires g < |groups|
      modifies this`groups, this`payments
      ensures Snapshot() == AttachPayment(old(Snapshot()), g, provider)
    {
      var p := |payments|;
      payments := payments + [Payment(groups[g].total, provider, Pending)];
      groups := groups[g := groups[g].(payment := Some(p), status := Processing)];
    }

    method BeginPaystack(user: nat, g: nat) returns (r: Result<()>)
      modifies this`groups, this`payments
      ensures Committed(Attempt(old(Snapshot()), StartPaystack(user, g)), r, old(Snapshot()), Snapshot())
    {
      hide AttachPayment;
      if g >= |groups| || groups[g].user != user {
        return Err(NotFound);
      }
      if groups[g].status == Failed {
        return Err(Conflict);
      }
      if groups[g].payment.Some? {
        return Ok(());
      }
      if groups[g].via !in {Card, BankTransfer, Opay} {
        return Err(Invalid);
      }
      Attach(g, Paystack);
      r := Ok(());
    }

    /** Klump takes the orders as items in whole naira that must add up to the checkout. */
    method NairaItems(all: seq<Allocation>) returns (ok: bool, sum: nat)
      requires forall a :: a in all ==> a.order < |orders|
      ensures ok <==> forall a :: a in all ==> WholeNaira(orders[a.order].bill.total)
      ensures ok ==> sum == SumNaira(orders, all)
    {
      sum := 0;
      var i := 0;
      assert all[0..] == all;
      while i < |all|
        invariant i <= |all| && sum + SumNaira(orders, all[i..]) == SumNaira(orders, all)
        invariant forall a :: a in all[..i] ==> WholeNaira(orders[a.order].bill.total)
      {
        assert all[i] in all && all[i..][0] == all[i] && all[i..][1..] == all[i + 1..];
        var total := orders[all[i].order].bill.total;
        if !WholeNaira(total) {
          return false, sum;
        }
        assert all[..i + 1] == all[..i] + [all[i]];
        sum := sum + total / 100;
        i := i + 1;
      }
      assert all[..i] == all;
      ok := true;
    }

    method BeginKlump(user: nat, g: nat) returns (r: Result<()>)
      modifies this`groups, this`payments
      ensures Committed(Attempt(old(Snapshot()), StartKlump(user, g)), r, old(Snapshot()), Snapshot())
    {
      hide AttachPayment, WholeNaira, SumNaira;
      if g >= |groups| || groups[g].user != user {
        return Err(NotFound);
      }
      var row := groups[g];
      if row.via != KlumpBnpl || row.status == Failed {
        return Err(Conflict);
      }
      if row.payment.Some? {
        if row.payment.value < |payments| && payments[row.payment.value].provider == Klump {
          return Ok(());
        }
        return Err(Conflict);
      }
      if exists a :: a in row.allocations && a.order >= |orders| {
        return Err(NotFound);
      }
      var ok, sum := NairaItems(row.allocations);
      if !WholeNaira(row.total) || !ok || sum != row.total / 100 {
        return Err(Invalid);
      }
      Attach(g, Klump);
      r := Ok(());
    }

    /** Reads the payment and its groups once the provider has answered. */
    method ReadProvider(p: nat, reported: int, answer: Answer) returns (r: Result<()>)
      modifies this`inflight
      ensures Committed(Attempt(old(Snapshot()), ReadAnswer(p, reported, answer)), r, old(Snapshot()), Snapshot())
    {
      hide GroupsOf;
      if p >= |payments| {
        return Err(NotFound);
      }
      if reported != payments[p].amount {
        return Err(Invalid);
      }
      if payments[p].provider != (if answer == KlumpSuccess then Klump else Paystack) {
        return Err(NotFound);
      }
      if answer != KlumpSuccess && payments[p].status in {Refunded, PartiallyRefunded, Paid} {
        return Ok(());
      }
      var gs := FindGroups(p);
      inflight := inflight + [Verification(p, gs, answer)];
      r := Ok(());
    }

    // ----- verification -----

    /** The groups that point at a payment, in order. */
    method FindGroups(p: nat) returns (gs: seq<nat>)
      ensures gs == GroupsOf(groups, p)
    {
      gs := [];
      var i := 0;
      while i < |groups|
        invariant i <= |groups| && gs == GroupsOf(groups[..i], p)
      {
        assert groups[..i + 1][..i] == groups[..i];
        if groups[i].payment == Some(p) {
          gs := gs + [i];
        }
        i := i + 1;
      }
      assert groups[..i] == groups;
    }

    /** The transaction of a Paystack verification: the payment is read again before anything is written. */
    method SettlePaystack(v: Verification) returns (r: Result<()>)
      modifies this
      ensures Did(VerifyPaystack(old(Snapshot()), v), r, Snapshot())
    {
      hide RefundGroups, CompleteGroups, FailGroups, GroupsOf;
      if v.payment >= |payments| {
        return Err(NotFound);
      }
      var p := v.payment;
      var current := payments[p].status;
      if current == Paid || (current == Failed && v.answer != Success) {
        return Ok(());
      }
      if current == Failed {
        var gs := FindGroups(p);
        WritePayment(p, Paid);
        r := RefundAllGroups(p, gs);
      } else if v.answer == Success {
        WritePayment(p, Paid);
        r := CompleteAllGroups(v.groups);
      } else {
        WritePayment(p, Failed);
        r := FailAllGroups(v.groups);
      }
    }

    method SettleKlump(v: Verification) returns (r: Result<()>)
      modifies this
      ensures Did(VerifyKlump(old(Snapshot()), v), r, Snapshot())
    {
      hide CompleteGroups;
      if v.payment >= |payments| {
        return Err(NotFound);
      }
      var current := payments[v.payment].status;
      if current == Failed {
        return Err(Conflict);
      }
      if current == Paid {
        return Ok(());
      }
      WritePayment(v.payment, Paid);
      r := CompleteAllGroups(v.groups);
    }

    /** Finishes the verification at position `i` of those whose answers have arrived. */
    method FinishVerification(i: nat) returns (r: Result<()>)
      modifies this
      ensures Committed(Attempt(old(Snapshot()), Verify(i)), r, old(Snapshot()), Snapshot())
    {
      hide VerifyPaystack, VerifyKlump;
      var saved := Save();
      if i >= |inflight| {
        return Err(NotFound);
      }
      var v := inflight[i];
      inflight := inflight[..i] + inflight[i + 1..];
      if v.answer == KlumpSuccess {
        r := SettleKlump(v);
      } else {
        r := SettlePaystack(v);
      }
      if r.Err? {
        Rollback(saved);
      }
    }

    /** The customer gives up an unpaid checkout. */
    method CancelUnpaid(user: nat, g: nat) returns (r: Result<()>)
      modifies this
      ensures Committed(Attempt(old(Snapshot()), ReleaseCheckout(user, g)), r, old(Snapshot()), Snapshot())
    {
      hide FailGroup;
      var saved := Save();
      if g >= |groups| || groups[g].user != user {
        return Err(NotFound);
      }
      var row := groups[g];
      if row.status == Paid {
        return Err(Conflict);
      }
      if row.payment.Some? {
        var p := row.payment.value;
        if p >= |payments| {
          return Err(NotFound);
        }
        if payments[p].status == Paid {
          return Err(Conflict);
        }
        if row.status != Failed {
          WritePayment(p, Failed);
        }
      }
      if row.status == Failed {
        return Ok(());
      }
      r := FailOne(g);
      if r.Err? {
        Rollback(saved);
      }
    }

    // ----- checkout -----

    /** Reserves the items of each store's order and creates the order with its opening history row. */
    method CreateOrders(g: nat, user: nat, delivery: bool, os: seq<Q.StoreOrder>) returns (r: Result<()>)
      modifies this`products, this`orders
      ensures Did(PlaceOrders(old(Snapshot()), g, user, delivery, os, 0), r, Snapshot())
    {
      hide ReserveLines, NewOrder;
      var i := 0;
      assert os[0..] == os;
      while i < |os|
        invariant i <= |os|
        invariant PlaceOrders(Snapshot(), g, user, delivery, os[i..], i) == PlaceOrders(old(Snapshot()), g, user, delivery, os, 0)
      {
        assert os[i..][0] == os[i] && os[i..][1..] == os[i + 1..];
        var reserved := ReserveItems(os[i].items);
        if !reserved {
          return Err(Conflict);
        }
        orders := orders + [NewOrder(Key(g, i), user, os[i], delivery)];
        i := i + 1;
      }
      r := Ok(());
    }

    /** Orders, stock and the group with one allocation per order. */
    method CreateGroup(req: Request, quote: Q.Quote) returns (r: Result<()>)
      modifies this`products, this`orders, this`groups
      ensures Did(OpenGroup(old(Snapshot()), req, quote), r, Snapshot())
    {
      hide PlaceOrders, GroupRow;
      var first, g := |orders|, |groups|;
      r := CreateOrders(g, req.user, req.terms.delivery, quote.orders);
      if r.Err? {
        return;
      }
      groups := groups + [GroupRow(first, req, quote)];
    }

    method PayNow(g: nat) returns (r: Result<()>)
      requires g < |groups|
      modifies this`orders, this`purse, this`stores, this`groups, this`payments
      ensures Did(PayAtOnce(old(Snapshot()), g), r, Snapshot())
    {
      hide CompleteGroup;
      var p := |payments|;
      payments := payments + [Payment(groups[g].total, Manual, Paid)];
      groups := groups[g := groups[g].(payment := Some(p))];
      r := Complete(g);
    }

    method PlaceCheckout(req: Request, quote: Q.Quote) returns (r: Result<()>)
      modifies this
      ensures Did(PlaceQuoted(old(Snapshot()), req, quote), r, Snapshot())
    {
      hide OpenGroup, PayAtOnce, Charge;
      var g := |groups|;
      r := CreateGroup(req, quote);
      if r.Err? || (req.via != Wallet && req.via != Financed) {
        return;
      }
      if req.via == Wallet {
        var charged := Charge(purse, req.user, quote.total, CheckoutDebit(g));
        if charged.Err? {
          return Err(charged.error);
        }
        purse := charged.value;
      }
      if g >= |groups| {
        return Err(NotFound);
      }
      r := PayNow(g);
    }

    /** The checkout of a cart: the one already under way for the same input, or a new one. */
    method SubmitCheckout(req: Request) returns (r: Result<()>)
      modifies this
      ensures Committed(Attempt(old(Snapshot()), Checkout(req)), r, old(Snapshot()), Snapshot())
    {
      hide PlaceQuoted, Q.QuoteCart, F.Canonical;
      var active := ActiveGroup(groups, req.cart);
      if active.Some? {
        if req.via == Financed || F.Canonical(groups[active.value].input) != F.Canonical(req.input) {
          return Err(Conflict);
        }
        return Ok(());
      }
      var quote := Q.QuoteCart(req.rows, req.terms);
      if quote.Err? {
        return Err(quote.error);
      }
      if req.via == Financed && !req.quoteUnchanged {
        return Err(Conflict);
      }
      var saved := Save();
      r := PlaceCheckout(req, quote.value);
      if r.Err? {
        Rollback(saved);
      }
    }

    // ----- cancelling a paid order -----

    /** Adds up the successful refunds of a payment. */
    method SumRefunds(p: nat) returns (sum: nat)
      ensures sum == RefundedSum(orders, p)
    {
      sum := 0;
      var i := 0;
      while i < |orders|
        invariant i <= |orders| && sum == RefundedSum(orders[..i], p)
      {
        assert orders[..i + 1][..i] == orders[..i];
        var refund := orders[i].refund;
        if refund.Some? && refund.value.payment == p && refund.value.status == Succeeded {
          sum := sum + refund.value.amount;
        }
        i := i + 1;
      }
      assert orders[..i] == orders;
    }

    method SyncRefundStatus(p: nat) returns (r: Result<()>)
      modifies this`payments
      ensures Did(SyncRefund(old(Snapshot()), p), r, Snapshot())
    {
      if p >= |payments| {
        return Err(NotFound);
      }
      var sum := SumRefunds(p);
      hide RefundedSum;
      WritePayment(p, if sum >= payments[p].amount then Refunded else PartiallyRefunded);
      r := Ok(());
    }

    method Reverse(o: nat, store: nat) returns (r: Result<()>)
      modifies this`stores
      ensures var spec := ReverseSettlement(old(stores), o, store);
              if spec.Ok? then r.Ok? && stores == spec.value else r == Err(spec.error)
    {
      var settled := Find(stores.entries, Settled(o));
      if store in stores.balances && settled.Some? {
        var posted := Post(stores, Entry(store, Debit, settled.value.amount, Reversed(o)));
        if posted.Err? {
          return Err(posted.error);
        }
        stores := posted.value;
      }
      r := Ok(());
    }

    /** Stock back, wallet or provider refund, payment status and reversal, all or nothing. */
    method WorkCancellation(user: nat, o: nat) returns (r: Result<()>)
      modifies this
      ensures Did(CancelOrder(old(Snapshot()), user, o), r, Snapshot())
    {
      hide ReturnLines, CreditBack, RefundRow, SyncRefund, ReverseSettlement, CallOff;
      if o >= |orders| || orders[o].bill.user != user {
        return Err(NotFound);
      }
      var row := orders[o];
      if row.status != Confirmed && row.status != Preparing {
        return Err(Invalid);
      }
      var known := ReturnItems(row.bill.lines);
      if !known {
        return Err(NotFound);
      }
      var k := row.key;
      if k.group >= |groups| || k.slot >= |groups[k.group].allocations|
         || groups[k.group].payment.None? || groups[k.group].payment.value >= |payments|
      {
        return Err(Conflict);
      }
      var group := groups[k.group];
      var p := group.payment.value;
      var credited := CreditBack(purse, group, user, o, row.bill.total);
      if credited.Err? {
        return Err(credited.error);
      }
      purse := credited.value;
      var refund := if row.refund.Some? then row.refund.value
                    else RefundRow(group, p, payments[p].provider, group.allocations[k.slot].amount);
      orders := orders[o := CallOff(row).(refund := Some(refund))];
      if refund.status == Succeeded {
        r := SyncRefundStatus(p);
        if r.Err? {
          return;
        }
      }
      r := Reverse(o, row.bill.store);
    }

    method CancelPaidOrder(user: nat, o: nat) returns (r: Result<()>)
      modifies this
      ensures Committed(Attempt(old(Snapshot()), CancelPaid(user, o)), r, old(Snapshot()), Snapshot())
    {
      hide CancelOrder;
      var saved := Save();
      r := WorkCancellation(user, o);
      if r.Err? {
        Rollback(saved);
      }
    }

    // ----- wallet funding -----

    /** A top-up confirmed by the provider is credited unless its row is already PAID. */
    method ConfirmTopup(t: nat, reported: int, success: bool) returns (r: Result<()>)
      modifies this`topups, this`purse
      ensures Committed(Attempt(old(Snapshot()), FinishTopup(t, reported, success)), r, old(Snapshot()), Snapshot())
    {
      hide Post;
      if t >= |topups| {
        return Err(NotFound);
      }
      var f := topups[t];
      if reported != f.amount {
        return Err(Invalid);
      }
      if !success {
        topups := topups[t := f.(status := Failed)];
        return Ok(());
      }
      if f.status == Paid {
        return Ok(());
      }
      var posted := Post(purse, Entry(f.user, Credit, f.amount, TopupCredit(t)));
      if posted.Err? {
        return Err(posted.error);
      }
      purse := posted.value;
      topups := topups[t := f.(status := Paid)];
      r := Ok(());
    }

    /** A transfer into a dedicated account: the row and the ledger both guard against a second credit. */
    method WorkTransfer(i: nat) returns (r: Result<()>)
      modifies this`transfers, this`purse, this`receipts
      ensures Did(CreditTransfer(old(Snapshot()), i), r, Snapshot()) && (r.Err? ==> Snapshot() == old(Snapshot()))
    {
      hide Find, Dropped;
      if i >= |receipts| || !receipts[i].recorded || receipts[i].reference !in transfers {
        return Err(NotFound);
      }
      var c := receipts[i];
      var f := transfers[c.reference];
      receipts := Dropped(receipts, i);
      if f.status == Paid {
        return Ok(());
      }
      var prior := Find(purse.entries, TransferCredit(c.reference));
      purse := Open(purse, c.user);
      if prior.None? {
        purse := Post(purse, Entry(c.user, Credit, c.amount, TransferCredit(c.reference))).value;
      }
      transfers := transfers[c.reference := f.(status := Paid)];
      r := Ok(());
    }

    method ReceiveTransfer(i: nat) returns (r: Result<()>)
      modifies this`transfers, this`purse, this`receipts
      ensures Committed(Attempt(old(Snapshot()), TransferIn(i)), r, old(Snapshot()), Snapshot())
    {
      hide CreditTransfer;
      r := WorkTransfer(i);
    }

    // ----- fulfilment -----

    method SetStoreStatus(o: nat, to: Status) returns (r: Result<()>)
      modifies this`orders
      ensures Committed(Attempt(old(Snapshot()), StoreMove(o, to)), r, old(Snapshot()), Snapshot())
    {
      if o >= |orders| {
        return Err(NotFound);
      }
      if orders[o].status == OrderReceived {
        return Err(Invalid);
      }
      if to !in STORE_MANAGED {
        return Err(Forbidden);
      }
      if !CanTransition(orders[o].status, to) {
        return Err(Invalid);
      }
      orders := orders[o := Move(orders[o], to)];
      r := Ok(());
    }

    method FinishOrder(o: nat)
      requires o < |orders|
      modifies this`orders, this`points
      ensures Snapshot() == CompleteOrder(old(Snapshot()), o)
    {
      var row := orders[o];
      var user := row.bill.user;
      orders := orders[o := Move(row, Completed)];
      points := points[user := Points(points, user) + PointsFor(row.bill.total)];
    }

    method SetAdminStatus(o: nat, to: Status) returns (r: Result<()>)
      modifies this`orders, this`points
      ensures Committed(Attempt(old(Snapshot()), AdminMove(o, to)), r, old(Snapshot()), Snapshot())
    {
      hide CompleteOrder;
      if o >= |orders| {
        return Err(NotFound);
      }
      if to !in ADMIN_MANAGED || !CanTransition(orders[o].status, to) {
        return Err(Invalid);
      }
      if to == Completed {
        FinishOrder(o);
      } else {
        orders := orders[o := Move(orders[o], to)];
      }
      r := Ok(());
    }

    method PackOrder(o: nat, allScanned: bool) returns (r: Result<()>)
      modifies this`orders
      ensures Committed(Attempt(old(Snapshot()), Pack(o, allScanned)), r, old(Snapshot()), Snapshot())
    {
      if o >= |orders| {
        return Err(NotFound);
      }
      if !allScanned {
        return Err(Conflict);
      }
      if orders[o].status !in {Confirmed, Preparing} {
        return Err(Invalid);
      }
      orders := orders[o := Move(orders[o], ReadyForPickup)];
      r := Ok(());
    }

    method UpdateDelivery(rider: nat, o: nat, to: DeliveryStatus) returns (r: Result<()>)
      modifies this`orders
      ensures Committed(Attempt(old(Snapshot()), Report(rider, o, to)), r, old(Snapshot()), Snapshot())
    {
      hide Move, CanTransition;
      if o >= |orders| || orders[o].delivery.None? {
        return Err(NotFound);
      }
      var row := orders[o];
      var d := row.delivery.value;
      if d.rider != Some(rider) {
        return Err(Forbidden);
      }
      if to !in DeliveryMoves(d.status) || to == Collected || to == HandedOver {
        return Err(Invalid);
      }
      var moved := row.(delivery := Some(d.(status := to)));
      if to in {InTransit, OnTheWay, Arrived} && row.status != OutForDelivery {
        if !CanTransition(row.status, OutForDelivery) {
          return Err(Invalid);
        }
        moved := Move(moved, OutForDelivery);
      }
      orders := orders[o := moved];
      r := Ok(());
    }

    method CollectOrder(rider: nat, o: nat, credential: bool, allScanned: bool) returns (r: Result<()>)
      modifies this`orders
      ensures Committed(Attempt(old(Snapshot()), PickUp(rider, o, credential, allScanned)), r, old(Snapshot()), Snapshot())
    {
      hide Move;
      if o >= |orders| || orders[o].delivery.None? || orders[o].delivery.value.rider != Some(rider) || !credential {
        return Err(Forbidden);
      }
      if !allScanned {
        return Err(Conflict);
      }
      var row := orders[o];
      if row.status !in {ReadyForPickup, RiderAssigned} {
        return Err(Invalid);
      }
      orders := orders[o := Move(row, PickedUp).(delivery := Some(row.delivery.value.(status := Collected)))];
      r := Ok(());
    }

    /** The rider's compare-and-set claim. */
    method WorkClaim(rider: nat, o: nat) returns (r: Result<()>)
      modifies this`orders, this`purse
      ensures Did(ClaimDelivery(old(Snapshot()), rider, o), r, Snapshot())
    {
      hide HoldEarning, Move;
      if o >= |orders| || orders[o].delivery.None? {
        return Err(NotFound);
      }
      var row := orders[o];
      var d := row.delivery.value;
      if d.rider.Some? || d.status !in {Unassigned, Offered} {
        return Err(Conflict);
      }
      if row.status != ReadyForPickup {
        return Err(Invalid);
      }
      orders := orders[o := Move(row, RiderAssigned).(delivery := Some(Delivery(Some(rider), Assigned)))];
      r := HoldRiderEarning(o);
    }

    method Claim(rider: nat, o: nat) returns (r: Result<()>)
      modifies this
      ensures Committed(Attempt(old(Snapshot()), ClaimBy(rider, o)), r, old(Snapshot()), Snapshot())
    {
      hide ClaimDelivery;
      var saved := Save();
      r := WorkClaim(rider, o);
      if r.Err? {
        Rollback(saved);
      }
    }

    method ReleaseRiderEarning(o: nat) returns (r: Result<()>)
      requires o < |orders|
      modifies this`orders, this`purse
      ensures Did(ReleaseEarning(old(Snapshot()), o), r, Snapshot())
      ensures |orders| == |old(orders)|
    {
      var row := orders[o];
      if row.earning.None? || row.earning.value.released {
        return Ok(());
      }
      var e := row.earning.value;
      if e.rider !in purse.balances {
        return Err(NotFound);
      }
      var posted := Post(purse, Entry(e.rider, Release, e.amount, FeeRelease(o)));
      if posted.Err? {
        return Err(posted.error);
      }
      purse := posted.value;
      orders := orders[o := row.(earning := Some(e.(released := true)))];
      r := Ok(());
    }

    /** The customer's QR code: delivered, fee released, completed, points added. */
    method WorkDelivery(rider: nat, o: nat, credential: bool) returns (r: Result<()>)
      modifies this`orders, this`purse, this`points
      ensures Did(ConfirmDelivery(old(Snapshot()), rider, o, credential), r, Snapshot())
    {
      hide ReleaseEarning, CompleteOrder, Move;
      if o >= |orders| || orders[o].delivery.None? || orders[o].delivery.value.rider != Some(rider) || !credential {
        return Err(Forbidden);
      }
      var row := orders[o];
      if row.status != OutForDelivery {
        return Err(Invalid);
      }
      orders := orders[o := Move(row, Delivered).(delivery := Some(row.delivery.value.(status := HandedOver)))];
      r := ReleaseRiderEarning(o);
      if r.Ok? {
        FinishOrder(o);
      }
    }

    method Deliver(rider: nat, o: nat, credential: bool) returns (r: Result<()>)
      modifies this
      ensures Committed(Attempt(old(Snapshot()), HandOver(rider, o, credential)), r, old(Snapshot()), Snapshot())
    {
      hide ConfirmDelivery;
      var saved := Save();
      r := WorkDelivery(rider, o, credential);
      if r.Err? {
        Rollback(saved);
      }
    }
  }

  /** Any transaction of the tables leaves them consistent. */
  lemma CommittedKeeps(before: Db, step: Step, r: Result<()>, now: Db)
    requires Inv(before) && Committed(Attempt(before, step), r, before, now)
    ensures now == Apply(before, step) && Inv(now) && Evolves(before, now)
  {
    hide Inv, Evolves, Attempt;
    StepKeeps(before, step);
  }
}
