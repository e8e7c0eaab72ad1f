/** Creating a checkout: reservation, orders, allocations, and immediate payment by wallet or credit. */
module Placement {
  import opened Outcome
  import opened Ledger
  import opened OrderLife
  import opened Shop
  import opened Invariant
  import opened StockMoves
  import opened Resolution
  import Q = Quote
  import F = Fingerprint

  // ----- the orders placed -----

  /** The rows that placing store orders appends, from slot `slot` on. */
  ghost predicate Placed(before: seq<Order>, after: seq<Order>, g: nat, user: nat, delivery: bool, os: seq<Q.StoreOrder>, slot: nat) {
    && |after| == |before| + |os| && after[..|before|] == before
    && (forall i :: 0 <= i < |os| ==> after[|before| + i] == NewOrder(Key(g, slot + i), user, os[i], delivery))
  }

  /** Stock taken and stock held by the new orders are the same units. */
  lemma {:induction false} PlacedEffect(db: Db, g: nat, user: nat, delivery: bool, os: seq<Q.StoreOrder>, slot: nat)
    requires PlaceOrders(db, g, user, delivery, os, slot).Ok?
    requires Stocked(db.orders, db.products)
    ensures var n := PlaceOrders(db, g, user, delivery, os, slot).value;
            && n == db.(products := n.products, orders := n.orders)
            && Placed(db.orders, n.orders, g, user, delivery, os, slot)
            && Stocked(n.orders, n.products)
            && (forall p :: Units(n, p) == Units(db, p))
    decreases |os|
  {
    if os != [] {
      var row := NewOrder(Key(g, slot), user, os[0], delivery);
      var products := ReserveLines(db.products, os[0].items).value;
      var next := db.(products := products, orders := db.orders + [row]);
      StockedReserved(db.orders, db.products, row);
      forall p ensures Units(next, p) == Units(db, p) {
        UnitsReserved(db.orders, db.products, row, p);
      }
      PlacedEffect(next, g, user, delivery, os[1..], slot + 1);
      hide Units, Stocked;
      var n := PlaceOrders(db, g, user, delivery, os, slot).value;
      assert Placed(next.orders, n.orders, g, user, delivery, os[1..], slot + 1);
      PlacedOneMore(db.orders, n.orders, g, user, delivery, os, slot);
    }
  }

  lemma PlacedOneMore(before: seq<Order>, after: seq<Order>, g: nat, user: nat, delivery: bool, os: seq<Q.StoreOrder>, slot: nat)
    requires os != []
    requires Placed(before + [NewOrder(Key(g, slot), user, os[0], delivery)], after, g, user, delivery, os[1..], slot + 1)
    ensures Placed(before, after, g, user, delivery, os, slot)
  {
    var mid := before + [NewOrder(Key(g, slot), user, os[0], delivery)];
    assert after[..|before|] == after[..|mid|][..|before|] == before;
    forall i | 0 <= i < |os| ensures after[|before| + i] == NewOrder(Key(g, slot + i), user, os[i], delivery) {
      if i == 0 {
        assert after[|before|] == after[..|mid|][|before|];
      } else {
        assert after[|mid| + (i - 1)] == NewOrder(Key(g, slot + 1 + (i - 1)), user, os[1..][i - 1], delivery);
      }
    }
  }

  lemma StockedReserved(orders: seq<Order>, ps: map<nat, Product>, row: Order)
    requires Stocked(orders, ps) && ReserveLines(ps, row.bill.lines).Ok?
    ensures Stocked(orders + [row], ReserveLines(ps, row.bill.lines).value)
  {
    ReserveLinesEffect(ps, row.bill.lines);
  }

  lemma UnitsReserved(orders: seq<Order>, ps: map<nat, Product>, row: Order, p: nat)
    requires ReserveLines(ps, row.bill.lines).Ok? && row.status == OrderReceived
    ensures Stock(ReserveLines(ps, row.bill.lines).value, p) + Held(orders + [row], p)
         == Stock(ps, p) + Held(orders, p)
  {
    ReserveLinesEffect(ps, row.bill.lines);
    HeldAppend(orders, row, p);
    if p !in ps {
      UnknownHasNoLines(row.bill.lines, ps, p);
    }
  }

  lemma {:induction false} EarnedNothing(orders: seq<Order>, news: seq<Order>, user: nat)
    requires forall i :: 0 <= i < |news| ==> news[i].status == OrderReceived
    ensures Earned(orders + news, user) == Earned(orders, user)
  {
    if news == [] {
      assert orders + news == orders;
    } else {
      var last := |news| - 1;
      EarnedNothing(orders, news[..last], user);
      EarnedAppend(orders + news[..last], news[last], user);
      assert orders + news == (orders + news[..last]) + [news[last]];
    }
  }

  // ----- conjunct by conjunct -----

  /** A new group with its new orders, ready to be appended. */
  ghost predicate Batch(first: nat, g: nat, row: Group, news: seq<Order>) {
    && |row.allocations| == |news| > 0
    && row.payment.None? && row.status == Pending && row.activeCart == Some(row.cart)
    && row.total == SumAmounts(row.allocations)
    && (forall i :: 0 <= i < |news| ==>
      && row.allocations[i] == Allocation(first + i, news[i].bill.total)
      && news[i].key == Key(g, i) && news[i].bill.user == row.user && BillOk(news[i].bill)
      && news[i].status == OrderReceived && news[i].history == OPENING
      && news[i].earning.None? && news[i].refund.None? && !HasRider(news[i]) && !HandedByQr(news[i]))
  }

  lemma BatchLinked(orders: seq<Order>, groups: seq<Group>, row: Group, news: seq<Order>)
    requires Linked(orders, groups) && Batch(|orders|, |groups|, row, news)
    ensures Linked(orders + news, groups + [row])
  {
    var all := orders + news;
    forall o | 0 <= o < |all|
      ensures
        var k := all[o].key;
        && k.group < |groups| + 1 && k.slot < |(groups + [row])[k.group].allocations|
        && (groups + [row])[k.group].allocations[k.slot].order == o
    {
      if o >= |orders| {
        assert all[o] == news[o - |orders|];
      }
    }
  }

  lemma BatchOrders(orders: seq<Order>, g: nat, row: Group, news: seq<Order>)
    requires OrdersOk(orders) && Batch(|orders|, g, row, news)
    ensures OrdersOk(orders + news)
    ensures MembersOk(g, row, orders + news) && AllAre(row, orders + news, OrderReceived)
  {
    var all := orders + news;
    forall o | 0 <= o < |all| ensures OrderOk(all[o]) {
      if o >= |orders| {
        assert all[o] == news[o - |orders|];
      }
    }
    forall k | 0 <= k < |row.allocations| ensures all[row.allocations[k].order] == news[k] {
    }
  }

  lemma BatchOthers(orders: seq<Order>, groups: seq<Group>, payments: seq<Payment>, row: Group, news: seq<Order>)
    requires GroupsOk(orders, groups, payments)
    ensures OthersOk(orders + news, groups + [row], payments, |groups|)
  {
    var after := groups + [row];
    forall h | 0 <= h < |after| && h != |groups| ensures GroupOk(h, after[h], orders + news, payments) {
      GroupFrame(h, groups[h], orders, orders + news, payments, payments);
    }
  }

  lemma BatchGroups(groups: seq<Group>, payments: seq<Payment>, inflight: seq<Verification>, row: Group)
    requires OnePayer(groups) && Owned(groups, payments) && CartsApart(groups) && InflightOk(inflight, groups, payments)
    requires row.payment.None?
    requires forall g :: 0 <= g < |groups| && row.activeCart.Some? ==> groups[g].activeCart != row.activeCart
    ensures OnePayer(groups + [row]) && Owned(groups + [row], payments) && CartsApart(groups + [row])
    ensures InflightOk(inflight, groups + [row], payments)
  {
    var after := groups + [row];
    forall p | 0 <= p < |payments| ensures HasPayer(after, p) {
      assert HasPayer(groups, p);
      var h :| 0 <= h < |groups| && PaidBy(groups[h], p);
      assert PaidBy(after[h], p);
    }
    forall i | 0 <= i < |inflight| ensures VerificationOk(inflight[i], after, payments) {
      assert VerificationOk(inflight[i], groups, payments);
    }
  }

  lemma BatchStores(orders: seq<Order>, stores: Book<StoreRef>, news: seq<Order>)
    requires StoresOk(orders, stores)
    requires forall i :: 0 <= i < |news| ==> news[i].status == OrderReceived && news[i].history == OPENING
    ensures StoresOk(orders + news, stores)
  {
    var all := orders + news;
    forall o | 0 <= o < |all| ensures SettledOk(o, all[o], stores.entries) {
      if o < |orders| {
        assert SettledOk(o, orders[o], stores.entries);
      }
    }
  }

  lemma BatchPoints(orders: seq<Order>, points: map<nat, int>, claims: seq<Claim>, news: seq<Order>)
    requires PointsOk(orders, points, claims) && forall i :: 0 <= i < |news| ==> news[i].status == OrderReceived
    ensures PointsOk(orders + news, points, claims)
  {
    forall user: nat ensures Points(points, user) == Earned(orders + news, user) - Spent(claims, user) {
      EarnedNothing(orders, news, user);
    }
  }

  /** The wallet book of a new group: debited when it pays by wallet, untouched otherwise. */
  ghost predicate PaidFrom(purse: Book<PurseRef>, after: Book<PurseRef>, g: nat, row: Group) {
    if row.via == Wallet then
      Sound(after) && after.entries == purse.entries + [Entry(row.user, Debit, row.total, CheckoutDebit(g))]
    else after == purse
  }

  lemma BatchPurse(
    orders: seq<Order>, groups: seq<Group>, purse: Book<PurseRef>, after: Book<PurseRef>, row: Group, news: seq<Order>)
    requires PurseOk(orders, groups, purse) && Linked(orders, groups)
    requires Batch(|orders|, |groups|, row, news) && PaidFrom(purse, after, |groups|, row)
    ensures PurseOk(orders + news, groups + [row], after)
  {
    hide Sound, Find;
    var all, every := orders + news, groups + [row];
    FindAppendAll(purse.entries, Entry(row.user, Debit, row.total, CheckoutDebit(|groups|)));
    forall g | 0 <= g < |every| ensures DebitedOk(g, every[g], after.entries) {
      if g < |groups| {
        assert DebitedOk(g, groups[g], purse.entries);
      }
    }
    forall o | 0 <= o < |all| ensures PursedOk(o, all[o], ByWallet(all[o], every), after.entries) {
      if o < |orders| {
        assert PursedOk(o, orders[o], ByWallet(orders[o], groups), purse.entries);
        assert orders[o].key.group < |groups|;
      } else {
        assert all[o] == news[o - |orders|];
      }
    }
  }

  lemma FundingUntouched(topups: seq<Funding>, transfers: map<nat, Funding>, purse: Book<PurseRef>, after: Book<PurseRef>, e: Entry<PurseRef>)
    requires FundingOk(topups, transfers, purse) && after.entries == purse.entries + [e]
    requires !e.ref.TopupCredit? && !e.ref.TransferCredit?
    ensures FundingOk(topups, transfers, after)
  {
    FindAppendAll(purse.entries, e);
    forall t | 0 <= t < |topups| ensures FundedOk(t, topups[t], after.entries) {
      assert FundedOk(t, topups[t], purse.entries);
    }
  }

  /** Appending the batch keeps everything but, perhaps, the status rule of the new group. */
  lemma BatchKeeps(db: Db, n: Db, row: Group, news: seq<Order>)
    requires Inv(db) && Batch(|db.orders|, |db.groups|, row, news)
    requires n == db.(orders := db.orders + news, groups := db.groups + [row], products := n.products, purse := n.purse)
    requires Stocked(n.orders, n.products) && PaidFrom(db.purse, n.purse, |db.groups|, row)
    requires forall g :: 0 <= g < |db.groups| ==> db.groups[g].activeCart != Some(row.cart)
    ensures InvBut(n, |db.groups|) && AllAre(row, n.orders, OrderReceived)
  {
    var g := |db.groups|;
    BatchLinked(db.orders, db.groups, row, news);
    BatchOrders(db.orders, g, row, news);
    BatchOthers(db.orders, db.groups, db.payments, row, news);
    BatchGroups(db.groups, db.payments, db.inflight, row);
    BatchStores(db.orders, db.stores, news);
    BatchPoints(db.orders, db.points, db.claims, news);
    BatchPurse(db.orders, db.groups, db.purse, n.purse, row, news);
    if row.via == Wallet {
      FundingUntouched(db.topups, db.transfers, db.purse, n.purse, Entry(row.user, Debit, row.total, CheckoutDebit(g)));
    }
  }

  // ----- a payment for the group -----

  /** Group `g` gets the next payment row. */
  function WithPayment(db: Db, g: nat, pay: Payment, status: PayStatus): Db
    requires g < |db.groups|
  {
    db.(payments := db.payments + [pay],
        groups := db.groups[g := db.groups[g].(payment := Some(|db.payments|), status := status)])
  }

  lemma NewPaymentGroups(db: Db, g: nat, pay: Payment, status: PayStatus)
    requires InvBut(db, g) && db.groups[g].payment.None?
    ensures var n := WithPayment(db, g, pay, status);
            && OthersOk(n.orders, n.groups, n.payments, g) && OnePayer(n.groups) && CartsApart(n.groups)
  {
    var n := WithPayment(db, g, pay, status);
    forall h | 0 <= h < |n.groups| && h != g ensures GroupOk(h, n.groups[h], n.orders, n.payments) {
      GroupFrame(h, db.groups[h], db.orders, db.orders, db.payments, n.payments);
    }
    assert forall h :: 0 <= h < |db.groups| && h != g && db.groups[h].payment.Some? ==>
      PaymentFits(db.groups[h], db.payments);
  }

  lemma NewPaymentOwned(db: Db, g: nat, pay: Payment, status: PayStatus)
    requires InvBut(db, g) && db.groups[g].payment.None?
    ensures var n := WithPayment(db, g, pay, status);
            && Owned(n.groups, n.payments) && InflightOk(n.inflight, n.groups, n.payments)
  {
    var n := WithPayment(db, g, pay, status);
    forall p | 0 <= p < |n.payments| ensures HasPayer(n.groups, p) {
      if p < |db.payments| {
        assert HasPayer(db.groups, p);
        var h :| 0 <= h < |db.groups| && PaidBy(db.groups[h], p);
        assert PaidBy(n.groups[h], p);
      } else {
        assert PaidBy(n.groups[g], p);
      }
    }
    forall i | 0 <= i < |n.inflight| ensures VerificationOk(n.inflight[i], n.groups, n.payments) {
      assert VerificationOk(db.inflight[i], db.groups, db.payments);
    }
  }

  lemma NewPaymentKeeps(db: Db, g: nat, pay: Payment, status: PayStatus)
    requires InvBut(db, g) && db.groups[g].payment.None?
    ensures InvBut(WithPayment(db, g, pay, status), g)
  {
    var n := WithPayment(db, g, pay, status);
    NewPaymentGroups(db, g, pay, status);
    NewPaymentOwned(db, g, pay, status);
    PurseRegroup(db.orders, db.groups, db.purse, g, n.groups[g]);
  }

  /** All groups but one and that one: the whole invariant. */
  lemma InvFromBut(db: Db, g: nat)
    requires InvBut(db, g) && GroupOk(g, db.groups[g], db.orders, db.payments)
    ensures Inv(db)
  {
  }

  lemma InvToBut(db: Db, g: nat)
    requires Inv(db) && g < |db.groups|
    ensures InvBut(db, g)
  {
    assert GroupOk(g, db.groups[g], db.orders, db.payments);
  }

  lemma AttachIsWith(db: Db, g: nat, provider: Provider)
    requires g < |db.groups|
    ensures AttachPayment(db, g, provider) == WithPayment(db, g, Payment(db.groups[g].total, provider, Pending), Processing)
  {
  }

  lemma AttachedIsOk(db: Db, g: nat, provider: Provider)
    requires g < |db.groups| && GroupOk(g, db.groups[g], db.orders, db.payments)
    requires db.groups[g].status != Failed && db.groups[g].payment.None? && FitsMethod(db.groups[g].via, provider)
    ensures var n := WithPayment(db, g, Payment(db.groups[g].total, provider, Pending), Processing);
            && GroupOk(g, n.groups[g], n.orders, n.payments) && Evolves(db, n)
  {
  }

  /** An unpaid group without a payment gets one and is PROCESSING; nothing else moves. */
  lemma AttachPaymentKeeps(db: Db, g: nat, provider: Provider)
    requires Inv(db) && g < |db.groups| && db.groups[g].status != Failed && db.groups[g].payment.None?
    requires FitsMethod(db.groups[g].via, provider)
    ensures Inv(AttachPayment(db, g, provider)) && Evolves(db, AttachPayment(db, g, provider))
  {
    assert GroupOk(g, db.groups[g], db.orders, db.payments);
    hide Inv, InvBut, GroupOk, Evolves, AttachPayment;
    var pay := Payment(db.groups[g].total, provider, Pending);
    InvToBut(db, g);
    NewPaymentKeeps(db, g, pay, Processing);
    AttachIsWith(db, g, provider);
    AttachedIsOk(db, g, provider);
    InvFromBut(WithPayment(db, g, pay, Processing), g);
  }

  lemma PayIsComplete(db: Db, g: nat)
    requires g < |db.groups| && db.groups[g].status == Pending
    ensures PayAtOnce(db, g) == CompleteGroup(WithPayment(db, g, Payment(db.groups[g].total, Manual, Paid), Pending), g)
  {
    hide CompleteGroup;
  }

  lemma ReadyAtOnce(db: Db, g: nat)
    requires InvBut(db, g) && db.groups[g].status == Pending && db.groups[g].payment.None?
    requires db.groups[g].via in {Wallet, Financed} && AllAre(db.groups[g], db.orders, OrderReceived)
    ensures ReadyToComplete(WithPayment(db, g, Payment(db.groups[g].total, Manual, Paid), Pending), g)
  {
    NewPaymentKeeps(db, g, Payment(db.groups[g].total, Manual, Paid), Pending);
  }

  lemma PayAtOnceRestores(db: Db, g: nat)
    requires InvBut(db, g) && db.groups[g].status == Pending && db.groups[g].payment.None?
    requires db.groups[g].via in {Wallet, Financed} && AllAre(db.groups[g], db.orders, OrderReceived)
    requires PayAtOnce(db, g).Ok?
    ensures var n := PayAtOnce(db, g).value;
            && Inv(n) && n.purse == db.purse && |n.groups| == |db.groups| && |n.orders| == |db.orders|
            && n.groups[g].status == Paid && n.inflight == db.inflight
            && (forall p :: Units(n, p) == Units(db, p))
            && n.groups[..g] == db.groups[..g] && n.payments == db.payments + [Payment(db.groups[g].total, Manual, Paid)]
            && db.stores.entries <= n.stores.entries
            && n.groups == db.groups[g := db.groups[g].(payment := Some(|db.payments|), status := Paid, activeCart := None)]
            && (forall o :: 0 <= o < |db.orders| ==>
              n.orders[o] == if db.orders[o].key.group == g then Move(db.orders[o], Confirmed) else db.orders[o])
  {
    var pay := Payment(db.groups[g].total, Manual, Paid);
    var paid := WithPayment(db, g, pay, Pending);
    PayIsComplete(db, g);
    ReadyAtOnce(db, g);
    hide InvBut, Inv, PayAtOnce, CompleteGroup, ReadyToComplete, Units;
    CompleteGroupRestores(paid, g);
    UnitsFrame(db, paid);
  }

  // ----- the whole transaction -----

  lemma {:induction false} AllocatedSum(first: nat, os: seq<Q.StoreOrder>)
    ensures SumAmounts(Allocate(first, os)) == Q.SumTotals(os)
    decreases |os|
  {
    if os != [] {
      AllocatedSum(first + 1, os[1..]);
      assert Allocate(first, os)[1..] == Allocate(first + 1, os[1..]);
    }
  }

  /** A store order whose figures agree with its items, which are all its store's. */
  ghost predicate FiguresAgree(o: Q.StoreOrder) {
    && Q.Priced(o) && o.subtotal == Q.SumLines(o.items)
    && (forall i :: 0 <= i < |o.items| ==> o.items[i].store == o.store)
  }

  /** What the machine needs to know of a quote: it has orders and its total is theirs. */
  ghost predicate Consistent(quote: Q.Quote) {
    && quote.orders != [] && quote.total == Q.SumTotals(quote.orders)
    && (forall i :: 0 <= i < |quote.orders| ==> FiguresAgree(quote.orders[i]))
  }

  lemma OpenGroupIsBatch(db: Db, r: Request, quote: Q.Quote)
    requires Stocked(db.orders, db.products) && Consistent(quote) && OpenGroup(db, r, quote).Ok?
    ensures var n, row := OpenGroup(db, r, quote).value, GroupRow(|db.orders|, r, quote);
            && |db.orders| <= |n.orders|
            && Batch(|db.orders|, |db.groups|, row, n.orders[|db.orders|..])
            && n == db.(orders := db.orders + n.orders[|db.orders|..], groups := db.groups + [row], products := n.products)
            && Stocked(n.orders, n.products)
            && (forall p :: Units(n, p) == Units(db, p))
  {
    AllocatedSum(|db.orders|, quote.orders);
    PlacedEffect(db, |db.groups|, r.user, r.terms.delivery, quote.orders, 0);
    var placed := PlaceOrders(db, |db.groups|, r.user, r.terms.delivery, quote.orders, 0).value;
    var n := OpenGroup(db, r, quote).value;
    UnitsFrame(placed, n);
    assert n == placed.(groups := db.groups + [GroupRow(|db.orders|, r, quote)]);
    hide PlaceOrders, OpenGroup, Units, Stocked;
    assert n.orders == db.orders + n.orders[|db.orders|..];
    PlacedIsBatch(db.orders, n.orders, |db.groups|, r, quote);
    hide Batch, Placed, Consistent, GroupRow;
  }

  lemma PlacedIsBatch(before: seq<Order>, after: seq<Order>, g: nat, r: Request, quote: Q.Quote)
    requires Consistent(quote) && Placed(before, after, g, r.user, r.terms.delivery, quote.orders, 0)
    requires SumAmounts(Allocate(|before|, quote.orders)) == Q.SumTotals(quote.orders)
    ensures |before| <= |after| && Batch(|before|, g, GroupRow(|before|, r, quote), after[|before|..])
  {
  }

  /** The created state, with the wallet debited if the wallet pays. */
  lemma OpenGroupKeeps(db: Db, r: Request, quote: Q.Quote, ready: Db)
    requires Inv(db) && Consistent(quote) && OpenGroup(db, r, quote).Ok?
    requires DebitWallet(OpenGroup(db, r, quote).value, r, quote, |db.groups|) == Ok(ready)
    requires forall g :: 0 <= g < |db.groups| ==> db.groups[g].activeCart != Some(r.cart)
    ensures InvBut(ready, |db.groups|) && AllAre(ready.groups[|db.groups|], ready.orders, OrderReceived)
    ensures forall p :: Units(ready, p) == Units(db, p)
    ensures var n := OpenGroup(db, r, quote).value;
            ready == n.(purse := ready.purse) && db.purse.entries <= ready.purse.entries
    ensures |db.orders| <= |ready.orders| && ready == db.(products := ready.products, purse := ready.purse,
              orders := db.orders + ready.orders[|db.orders|..], groups := db.groups + [GroupRow(|db.orders|, r, quote)])
  {
    OpenGroupIsBatch(db, r, quote);
    var made, row := OpenGroup(db, r, quote).value, GroupRow(|db.orders|, r, quote);
    if r.via == Wallet {
      ChargeCovered(db.purse, r.user, row.total, CheckoutDebit(|db.groups|));
    }
    UnitsFrame(made, ready);
    assert ready == made.(purse := ready.purse) && PaidFrom(db.purse, ready.purse, |db.groups|, row);
    hide OpenGroup, DebitWallet, Charge, Units, Inv, InvBut, Batch, Stocked, PaidFrom;
    BatchKeeps(db, ready, row, made.orders[|db.orders|..]);
  }

  lemma BatchIsPending(orders: seq<Order>, g: nat, row: Group, news: seq<Order>, payments: seq<Payment>)
    requires Batch(|orders|, g, row, news) && MembersOk(g, row, orders + news) && row.via !in {Wallet, Financed}
    ensures GroupOk(g, row, orders + news, payments)
  {
    assert forall k :: 0 <= k < |row.allocations| ==> (orders + news)[row.allocations[k].order] == news[k];
  }

  /** A checkout that waits for a provider. */
  lemma PlaceUnpaidKeeps(db: Db, r: Request, quote: Q.Quote)
    requires Inv(db) && Consistent(quote) && PlaceQuoted(db, r, quote).Ok? && r.via !in {Wallet, Financed}
    requires forall g :: 0 <= g < |db.groups| ==> db.groups[g].activeCart != Some(r.cart)
    ensures var n := PlaceQuoted(db, r, quote).value;
            (forall p :: Units(n, p) == Units(db, p)) && Inv(n) && Evolves(db, n)
  {
    var n := PlaceQuoted(db, r, quote).value;
    assert OpenGroup(db, r, quote) == DebitWallet(n, r, quote, |db.groups|) == Ok(n);
    hide PlaceQuoted, OpenGroup, DebitWallet, OrdersOk, GroupsOk, StoresOk, PurseOk, FundingOk, Linked;
    hide PointsOk, InflightOk, Owned, OnePayer, CartsApart, Stocked, OthersOk, Units;
    OpenGroupKeeps(db, r, quote, n);
    OpenGroupIsBatch(db, r, quote);
    hide Batch, MembersOk, Consistent, Evolves;
    var row, news := GroupRow(|db.orders|, r, quote), n.orders[|db.orders|..];
    BatchIsPending(db.orders, |db.groups|, row, news, n.payments);
    InvFromBut(n, |db.groups|);
    CreatedEvolves(db, n, n, row, news);
  }

  /** A checkout paid within its transaction, by wallet or by approved financing. */
  lemma PlacePaidKeeps(db: Db, r: Request, quote: Q.Quote)
    requires Inv(db) && Consistent(quote) && PlaceQuoted(db, r, quote).Ok? && r.via in {Wallet, Financed}
    requires forall g :: 0 <= g < |db.groups| ==> db.groups[g].activeCart != Some(r.cart)
    ensures var n := PlaceQuoted(db, r, quote).value;
            (forall p :: Units(n, p) == Units(db, p)) && Inv(n) && Evolves(db, n)
  {
    var g := |db.groups|;
    var ready := DebitWallet(OpenGroup(db, r, quote).value, r, quote, g).value;
    var n := PlaceQuoted(db, r, quote).value;
    assert PayAtOnce(ready, g) == Ok(n);
    hide PlaceQuoted, OpenGroup, DebitWallet, PayAtOnce, OrdersOk, GroupsOk, OthersOk, StoresOk, PurseOk, FundingOk;
    hide PointsOk, InflightOk, Owned, OnePayer, CartsApart, Stocked, Units, Evolves;
    OpenGroupKeeps(db, r, quote, ready);
    PayAtOnceRestores(ready, g);
    CreatedEvolves(db, ready, n, ready.groups[g], ready.orders[|db.orders|..]);
  }

  lemma CreatedEvolves(db: Db, ready: Db, n: Db, row: Group, news: seq<Order>)
    requires Linked(db.orders, db.groups)
    requires ready.orders == db.orders + news && ready.groups == db.groups + [row]
    requires ready.payments == db.payments && ready.stores == db.stores && db.purse.entries <= ready.purse.entries
    requires |n.groups| == |ready.groups| && n.groups[..|db.groups|] == ready.groups[..|db.groups|]
    requires |n.orders| == |ready.orders|
    requires forall o :: 0 <= o < |ready.orders| && ready.orders[o].key.group != |db.groups| ==> n.orders[o] == ready.orders[o]
    requires ready.payments <= n.payments && ready.stores.entries <= n.stores.entries && n.purse == ready.purse
    ensures Evolves(db, n) && n.groups[..|db.groups|] == db.groups
  {
    assert ready.groups[..|db.groups|] == db.groups;
    forall o | 0 <= o < |db.orders| ensures n.orders[o] == db.orders[o] {
      assert ready.orders[o] == db.orders[o] && db.orders[o].key.group < |db.groups|;
    }
    forall g | 0 <= g < |db.groups| ensures n.groups[g] == db.groups[g] {
      assert n.groups[g] == n.groups[..|db.groups|][g];
    }
    forall p | 0 <= p < |db.payments| ensures n.payments[p] == db.payments[p] {
    }
  }

  /** A submitted checkout keeps the invariant and all the units there are, whatever happens to it. */
  lemma CreateCheckoutKeeps(db: Db, r: Request)
    requires Inv(db) && CreateCheckout(db, r).Ok?
    ensures var n := CreateCheckout(db, r).value.0;
            Inv(n) && Evolves(db, n) && forall p :: Units(n, p) == Units(db, p)
  {
    hide Inv, Units, PlaceQuoted, Q.QuoteCart, F.Canonical;
    if ActiveGroup(db.groups, r.cart).None? {
      var quote := Q.QuoteCart(r.rows, r.terms).value;
      QuoteIsConsistent(r.rows, r.terms);
      hide Evolves, Consistent;
      if r.via in {Wallet, Financed} {
        PlacePaidKeeps(db, r, quote);
      } else {
        PlaceUnpaidKeeps(db, r, quote);
      }
    }
  }

  lemma QuoteIsConsistent(rows: seq<Q.CartRow>, terms: Q.Terms)
    requires Q.QuoteCart(rows, terms).Ok?
    ensures Consistent(Q.QuoteCart(rows, terms).value)
  {
    Q.QuoteIsSound(rows, terms);
    var quote, lines := Q.QuoteCart(rows, terms).value, Q.PriceRows(rows).value;
    forall i | 0 <= i < |quote.orders| ensures FiguresAgree(quote.orders[i]) {
      LinesOfStore(lines, quote.orders[i].store);
    }
  }

  lemma {:induction false} LinesOfStore(lines: seq<Q.Line>, store: nat)
    ensures forall i :: 0 <= i < |Q.LinesOf(lines, store)| ==> Q.LinesOf(lines, store)[i].store == store
  {
    if lines != [] {
      LinesOfStore(lines[1..], store);
    }
  }
}
