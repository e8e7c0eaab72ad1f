/** A submitted checkout does what its quote says, and is refused exactly for cause. */
module Submission {
  import opened Outcome
  import opened Ledger
  import opened OrderLife
  import opened Shop
  import opened Invariant
  import opened StockMoves
  import opened Resolution
  import opened Placement
  import opened Progress
  import Q = Quote
  import S = Settlement
  import F = Fingerprint

  // ----- the orders are the quote's -----

  /** The order row carries the figures of its quoted store order, and a delivery row when it is delivered. */
  predicate OrderOfQuote(row: Order, key: Key, user: nat, o: Q.StoreOrder, delivery: bool) {
    && row.key == key && row.bill.user == user
    && row.bill.store == o.store && row.bill.lines == o.items && row.bill.subtotal == o.subtotal
    && row.bill.shippingFee == o.shippingFee && row.bill.discount == o.discount
    && row.bill.shippingDiscount == o.shippingDiscount && row.bill.total == o.total
    && row.delivery == (if delivery then Some(Delivery(None, Unassigned)) else None)
    && row.refund.None? && row.earning.None?
  }

  /** The new group and its orders, one per quoted store order, in order. */
  ghost predicate FollowsQuote(db: Db, n: Db, r: Request, q: Q.Quote) {
    var first, g := |db.orders|, |db.groups|;
    && |n.groups| == g + 1 && n.groups[..g] == db.groups
    && |n.orders| == first + |q.orders| && n.orders[..first] == db.orders
    && n.groups[g].user == r.user && n.groups[g].cart == r.cart && n.groups[g].input == r.input && n.groups[g].via == r.via
    && n.groups[g].total == q.total && |n.groups[g].allocations| == |q.orders|
    && (forall i :: 0 <= i < |q.orders| ==> n.groups[g].allocations[i] == Allocation(first + i, q.orders[i].total))
    && (forall i :: 0 <= i < |q.orders| ==>
      OrderOfQuote(n.orders[first + i], Key(g, i), r.user, q.orders[i], r.terms.delivery))
  }

  /** Unpaid, waiting for its provider; or paid at once, and confirmed. */
  ghost predicate PaidOrWaiting(db: Db, n: Db, r: Request) {
    var first, g := |db.orders|, |db.groups|;
    && g < |n.groups| && first <= |n.orders| && n.inflight == db.inflight
    && if r.via in {Wallet, Financed}
       then
         && n.groups[g].status == Paid && n.groups[g].activeCart.None?
         && n.groups[g].payment == Some(|db.payments|)
         && n.payments == db.payments + [Payment(n.groups[g].total, Manual, Paid)]
         && forall o :: first <= o < |n.orders| ==> n.orders[o].status == Confirmed
       else
         && n.groups[g].status == Pending && n.groups[g].activeCart == Some(r.cart)
         && n.groups[g].payment.None? && n.payments == db.payments
         && forall o :: first <= o < |n.orders| ==> n.orders[o].status == OrderReceived
  }

  lemma NewIsQuoted(key: Key, user: nat, o: Q.StoreOrder, delivery: bool)
    ensures OrderOfQuote(NewOrder(key, user, o, delivery), key, user, o, delivery)
    ensures NewOrder(key, user, o, delivery).status == OrderReceived
  {
  }

  /** Rows appended as placed follow the quote. */
  lemma PlacedFollows(db: Db, n: Db, r: Request, q: Q.Quote)
    requires Placed(db.orders, n.orders, |db.groups|, r.user, r.terms.delivery, q.orders, 0)
    requires n.groups == db.groups + [GroupRow(|db.orders|, r, q)]
    ensures FollowsQuote(db, n, r, q)
    ensures forall o :: |db.orders| <= o < |n.orders| ==> n.orders[o].status == OrderReceived && n.orders[o].key.group == |db.groups|
  {
    var first, g := |db.orders|, |db.groups|;
    hide OrderOfQuote, NewOrder;
    forall i | 0 <= i < |q.orders|
      ensures OrderOfQuote(n.orders[first + i], Key(g, i), r.user, q.orders[i], r.terms.delivery)
    {
      NewIsQuoted(Key(g, 0 + i), r.user, q.orders[i], r.terms.delivery);
    }
    forall o | first <= o < |n.orders| ensures n.orders[o].status == OrderReceived && n.orders[o].key.group == g {
      var i := o - first;
      NewIsQuoted(Key(g, 0 + i), r.user, q.orders[i], r.terms.delivery);
      KeyOfQuoted(n.orders[first + i], Key(g, i), r.user, q.orders[i], r.terms.delivery);
    }
    assert n.groups[..g] == db.groups;
  }

  lemma KeyOfQuoted(row: Order, key: Key, user: nat, o: Q.StoreOrder, delivery: bool)
    ensures OrderOfQuote(row, key, user, o, delivery) ==> row.key == key
  {
  }

  lemma OpenedFollows(db: Db, r: Request, q: Q.Quote)
    requires OpenGroup(db, r, q).Ok? && Stocked(db.orders, db.products)
    ensures FollowsQuote(db, OpenGroup(db, r, q).value, r, q)
    ensures var n := OpenGroup(db, r, q).value;
            && n.payments == db.payments && n.inflight == db.inflight
            && n.groups == db.groups + [GroupRow(|db.orders|, r, q)]
            && forall o :: |db.orders| <= o < |n.orders| ==> n.orders[o].status == OrderReceived && n.orders[o].key.group == |db.groups|
  {
    hide Stocked, Units, Placed, GroupRow, FollowsQuote;
    PlacedEffect(db, |db.groups|, r.user, r.terms.delivery, q.orders, 0);
    hide PlaceOrders;
    var n := OpenGroup(db, r, q).value;
    PlacedFollows(db, n, r, q);
  }

  /** The rows of a group paid at once. */
  ghost predicate PaidRows(ready: Db, n: Db, g: nat) {
    && |n.orders| == |ready.orders| && g < |ready.groups| && n.inflight == ready.inflight
    && n.groups == ready.groups[g := ready.groups[g].(payment := Some(|ready.payments|), status := Paid, activeCart := None)]
    && n.payments == ready.payments + [Payment(ready.groups[g].total, Manual, Paid)]
    && forall o :: 0 <= o < |ready.orders| ==>
         n.orders[o] == if ready.orders[o].key.group == g then Move(ready.orders[o], Confirmed) else ready.orders[o]
  }

  lemma MovedIsQuoted(row: Order, key: Key, user: nat, o: Q.StoreOrder, delivery: bool)
    ensures OrderOfQuote(row, key, user, o, delivery) ==> OrderOfQuote(Move(row, Confirmed), key, user, o, delivery)
  {
  }

  lemma OldOrdersStay(db: Db, before: seq<Order>, after: seq<Order>, g: nat)
    requires Linked(db.orders, db.groups) && g == |db.groups| && |db.orders| <= |before| == |after|
    requires before[..|db.orders|] == db.orders
    requires forall o :: 0 <= o < |before| && before[o].key.group != g ==> after[o] == before[o]
    ensures after[..|db.orders|] == db.orders
  {
    forall o | 0 <= o < |db.orders| ensures after[o] == db.orders[o] {
      assert before[o] == before[..|db.orders|][o];
      assert db.orders[o].key.group < g;
    }
  }

  lemma PaidOrders(db: Db, ready: Db, n: Db, r: Request, q: Q.Quote)
    requires FollowsQuote(db, ready, r, q) && PaidRows(ready, n, |db.groups|)
    requires forall o :: |db.orders| <= o < |ready.orders| ==> ready.orders[o].key.group == |db.groups|
    requires Linked(db.orders, db.groups)
    ensures n.orders[..|db.orders|] == db.orders
    ensures forall o :: |db.orders| <= o < |n.orders| ==> n.orders[o].status == Confirmed
    ensures forall i :: 0 <= i < |q.orders| ==>
      OrderOfQuote(n.orders[|db.orders| + i], Key(|db.groups|, i), r.user, q.orders[i], r.terms.delivery)
  {
    var g, first := |db.groups|, |db.orders|;
    hide OrderOfQuote;
    OldOrdersStay(db, ready.orders, n.orders, g);
    forall i | 0 <= i < |q.orders| ensures OrderOfQuote(n.orders[first + i], Key(g, i), r.user, q.orders[i], r.terms.delivery) {
      MovedIsQuoted(ready.orders[first + i], Key(g, i), r.user, q.orders[i], r.terms.delivery);
    }
  }

  lemma PaidFollows(db: Db, ready: Db, n: Db, r: Request, q: Q.Quote)
    requires FollowsQuote(db, ready, r, q) && ready.payments == db.payments && ready.inflight == db.inflight
    requires PaidRows(ready, n, |db.groups|)
    requires forall o :: |db.orders| <= o < |ready.orders| ==> ready.orders[o].key.group == |db.groups|
    requires Linked(db.orders, db.groups) && r.via in {Wallet, Financed}
    ensures FollowsQuote(db, n, r, q) && PaidOrWaiting(db, n, r)
  {
    PaidOrders(db, ready, n, r, q);
    hide OrderOfQuote, Linked, Move;
    assert n.groups[..|db.groups|] == ready.groups[..|db.groups|];
  }

  lemma QuotedFollows(db: Db, r: Request, q: Q.Quote)
    requires Inv(db) && Consistent(q) && PlaceQuoted(db, r, q).Ok?
    requires forall g :: 0 <= g < |db.groups| ==> db.groups[g].activeCart != Some(r.cart)
    ensures FollowsQuote(db, PlaceQuoted(db, r, q).value, r, q) && PaidOrWaiting(db, PlaceQuoted(db, r, q).value, r)
  {
    assert Stocked(db.orders, db.products) && Linked(db.orders, db.groups);
    OpenedFollows(db, r, q);
    if r.via in {Wallet, Financed} {
      hide Inv, OpenGroup, DebitWallet, PayAtOnce, FollowsQuote, PaidOrWaiting, Stocked, Linked, GroupRow;
      var made := OpenGroup(db, r, q).value;
      PaidQuotedFollows(db, made, DebitWallet(made, r, q, |db.groups|).value, r, q);
    } else {
      hide Inv, OpenGroup, FollowsQuote, Stocked, Linked;
    }
  }

  lemma PaidQuotedFollows(db: Db, made: Db, ready: Db, r: Request, q: Q.Quote)
    requires Inv(db) && Linked(db.orders, db.groups) && Consistent(q) && OpenGroup(db, r, q) == Ok(made)
    requires DebitWallet(made, r, q, |db.groups|) == Ok(ready) && r.via in {Wallet, Financed}
    requires forall g :: 0 <= g < |db.groups| ==> db.groups[g].activeCart != Some(r.cart)
    requires FollowsQuote(db, made, r, q) && made.payments == db.payments && made.inflight == db.inflight
    requires made.groups == db.groups + [GroupRow(|db.orders|, r, q)]
    requires forall o :: |db.orders| <= o < |made.orders| ==> made.orders[o].key.group == |db.groups|
    requires PayAtOnce(ready, |db.groups|).Ok?
    ensures FollowsQuote(db, PayAtOnce(ready, |db.groups|).value, r, q)
    ensures PaidOrWaiting(db, PayAtOnce(ready, |db.groups|).value, r)
  {
    hide Inv, InvBut, PayAtOnce, OpenGroup, DebitWallet, Consistent, Units, Linked, FollowsQuote, PaidOrWaiting, AllAre, GroupRow;
    DebitTouches(made, r, q, |db.groups|, ready);
    OpenGroupKeeps(db, r, q, ready);
    RowOfGroup(db, r, q);
    FollowsAlike(db, made, ready, r, q);
    PayAtOnceRestores(ready, |db.groups|);
    PaidFollows(db, ready, PayAtOnce(ready, |db.groups|).value, r, q);
  }

  lemma DebitTouches(made: Db, r: Request, q: Q.Quote, g: nat, ready: Db)
    requires DebitWallet(made, r, q, g) == Ok(ready)
    ensures ready == made.(purse := ready.purse)
  {
    hide Charge;
  }

  lemma RowOfGroup(db: Db, r: Request, q: Q.Quote)
    ensures var row := GroupRow(|db.orders|, r, q);
            row.status == Pending && row.payment.None? && row.via == r.via && row.total == q.total
  {
  }

  lemma FollowsAlike(db: Db, made: Db, ready: Db, r: Request, q: Q.Quote)
    requires FollowsQuote(db, made, r, q) && ready.orders == made.orders && ready.groups == made.groups
    ensures FollowsQuote(db, ready, r, q)
  {
  }

  /**
   A new checkout is its quote: one order per quoted store order with exactly its figures, a group
   of exactly its total, everything there before untouched; paid at once or waiting, as its method has it.
   */
  lemma CheckoutFollowsQuote(db: Db, r: Request)
    requires Inv(db) && CreateCheckout(db, r).Ok? && ActiveGroup(db.groups, r.cart).None?
    ensures Q.QuoteCart(r.rows, r.terms).Ok?
    ensures var (n, g) := CreateCheckout(db, r).value;
            g == |db.groups| && FollowsQuote(db, n, r, Q.QuoteCart(r.rows, r.terms).value) && PaidOrWaiting(db, n, r)
  {
    hide Inv, PlaceQuoted, Q.QuoteCart, FollowsQuote, PaidOrWaiting, Consistent;
    QuoteIsConsistent(r.rows, r.terms);
    QuotedFollows(db, r, Q.QuoteCart(r.rows, r.terms).value);
  }

  /** What cannot be quoted cannot be checked out. */
  lemma RefusedLikeItsQuote(db: Db, r: Request)
    requires ActiveGroup(db.groups, r.cart).None? && Q.QuoteCart(r.rows, r.terms).Err?
    ensures CreateCheckout(db, r) == Err(Q.QuoteCart(r.rows, r.terms).error)
  {
    hide PlaceQuoted, Q.QuoteCart;
  }

  // ----- when a checkout is refused -----

  lemma {:induction false} ReserveBoth(ps: map<nat, Product>, a: seq<Q.Line>, b: seq<Q.Line>)
    ensures ReserveLines(ps, a + b)
         == if ReserveLines(ps, a).Err? then Err(ReserveLines(ps, a).error) else ReserveLines(ReserveLines(ps, a).value, b)
  {
    if a == [] {
      assert a + b == b;
    } else {
      assert (a + b)[1..] == a[1..] + b;
      if ReserveLine(ps, a[0]).Ok? {
        ReserveBoth(ReserveLine(ps, a[0]).value, a[1..], b);
      }
    }
  }

  lemma {:induction false} PlacementDecided(db: Db, g: nat, user: nat, delivery: bool, os: seq<Q.StoreOrder>, slot: nat)
    ensures PlaceOrders(db, g, user, delivery, os, slot).Ok? <==> ReserveLines(db.products, Q.AllItems(os)).Ok?
    decreases |os|
  {
    if os != [] {
      ReserveBoth(db.products, os[0].items, Q.AllItems(os[1..]));
      if ReserveLines(db.products, os[0].items).Ok? {
        var next := db.(products := ReserveLines(db.products, os[0].items).value,
                        orders := db.orders + [NewOrder(Key(g, slot), user, os[0], delivery)]);
        PlacementDecided(next, g, user, delivery, os[1..], slot + 1);
      }
      hide ReserveLines, NewOrder;
    }
  }

  /** Everything quoted is on sale at its price, and the shelf covers all of it together. */
  ghost predicate InStock(db: Db, q: Q.Quote) {
    OnSale(db.products, Q.AllItems(q.orders)) && Covered(db.products, Q.AllItems(q.orders))
  }

  lemma OpeningDecided(db: Db, r: Request, q: Q.Quote)
    requires Stocked(db.orders, db.products)
    ensures OpenGroup(db, r, q).Ok? <==> InStock(db, q)
  {
    PlacementDecided(db, |db.groups|, r.user, r.terms.delivery, q.orders, 0);
    ReservationDecided(db.products, Q.AllItems(q.orders));
    hide PlaceOrders, ReserveLines, OnSale, Covered;
  }

  /** The wallet exists and covers the total. */
  predicate WalletCovers(db: Db, r: Request, q: Q.Quote) {
    r.user in db.purse.balances && db.purse.balances[r.user] >= q.total
  }

  ghost predicate OrdersSettle(db: Db, q: Q.Quote) {
    forall i :: 0 <= i < |q.orders| ==> S.Split(q.orders[i].subtotal, db.rates).Ok?
  }

  lemma PaymentDecided(db: Db, ready: Db, r: Request, q: Q.Quote)
    requires InvBut(ready, |db.groups|) && AllAre(ready.groups[|db.groups|], ready.orders, OrderReceived)
    requires FollowsQuote(db, ready, r, q) && r.via in {Wallet, Financed} && ready.rates == db.rates
    requires ready.groups[|db.groups|].status == Pending && ready.groups[|db.groups|].payment.None?
    ensures PayAtOnce(ready, |db.groups|).Ok? <==> OrdersSettle(db, q)
  {
    var g := |db.groups|;
    var paid := WithPayment(ready, g, Payment(ready.groups[g].total, Manual, Paid), Pending);
    PayIsComplete(ready, g);
    ReadyAtOnce(ready, g);
    hide InvBut, ReadyToComplete, CompleteGroup, PayAtOnce, AllAre, S.Split;
    CompleteDecided(paid, g);
    SettleAlike(db, paid, r, q);
  }

  lemma SettleAlike(db: Db, paid: Db, r: Request, q: Q.Quote)
    requires FollowsQuoteRows(db, paid, r, q) && paid.rates == db.rates
    ensures Settleable(paid, |db.groups|) <==> OrdersSettle(db, q)
  {
    hide S.Split;
    var all := paid.groups[|db.groups|].allocations;
    assert forall i :: 0 <= i < |q.orders| ==>
      all[i].order == |db.orders| + i && paid.orders[|db.orders| + i].bill.subtotal == q.orders[i].subtotal;
  }

  /** The part of `FollowsQuote` that settlement looks at. */
  ghost predicate FollowsQuoteRows(db: Db, n: Db, r: Request, q: Q.Quote) {
    var first, g := |db.orders|, |db.groups|;
    && g < |n.groups| && |n.orders| == first + |q.orders| && |n.groups[g].allocations| == |q.orders|
    && (forall i :: 0 <= i < |q.orders| ==> n.groups[g].allocations[i] == Allocation(first + i, q.orders[i].total))
    && (forall i :: 0 <= i < |q.orders| ==>
      OrderOfQuote(n.orders[first + i], Key(g, i), r.user, q.orders[i], r.terms.delivery))
  }

  /** A quoted checkout goes through exactly when stock, wallet and settlement let it. */
  lemma QuotedDecided(db: Db, r: Request, q: Q.Quote)
    requires Inv(db) && Consistent(q)
    requires forall g :: 0 <= g < |db.groups| ==> db.groups[g].activeCart != Some(r.cart)
    ensures PlaceQuoted(db, r, q).Ok? <==>
      && InStock(db, q) && (r.via == Wallet ==> WalletCovers(db, r, q))
      && (r.via in {Wallet, Financed} ==> OrdersSettle(db, q))
  {
    assert Stocked(db.orders, db.products);
    OpeningDecided(db, r, q);
    if OpenGroup(db, r, q).Ok? {
      var g, made := |db.groups|, OpenGroup(db, r, q).value;
      OpenedFollows(db, r, q);
      DebitDecided(db, made, r, q);
      if r.via in {Wallet, Financed} && DebitWallet(made, r, q, g).Ok? {
        var ready := DebitWallet(made, r, q, g).value;
        OpenedRates(db, r, q);
        DebitTouches(made, r, q, g, ready);
        hide Inv, InvBut, Consistent, OpenGroup, DebitWallet, FollowsQuote, InStock, OrdersSettle, AllAre, GroupRow, PayAtOnce, Stocked, Units;
        OpenGroupKeeps(db, r, q, ready);
        RowOfGroup(db, r, q);
        FollowsAlike(db, made, ready, r, q);
        PaymentDecided(db, ready, r, q);
      }
    }
    hide Inv, OpenGroup, DebitWallet, PayAtOnce, InStock, OrdersSettle, FollowsQuote, Stocked;
  }

  lemma OpenedRates(db: Db, r: Request, q: Q.Quote)
    requires OpenGroup(db, r, q).Ok? && Stocked(db.orders, db.products)
    ensures OpenGroup(db, r, q).value.rates == db.rates
  {
    PlacedEffect(db, |db.groups|, r.user, r.terms.delivery, q.orders, 0);
    hide PlaceOrders, Placed, Units;
  }

  lemma DebitDecided(db: Db, made: Db, r: Request, q: Q.Quote)
    requires Inv(db) && OpenGroup(db, r, q) == Ok(made) && Stocked(db.orders, db.products)
    ensures DebitWallet(made, r, q, |db.groups|).Ok? <==> (r.via == Wallet ==> WalletCovers(db, r, q))
  {
    PlacedEffect(db, |db.groups|, r.user, r.terms.delivery, q.orders, 0);
    assert Find(db.purse.entries, CheckoutDebit(|db.groups|)).None?;
    hide PlaceOrders, Placed, Units, Inv, Find, Stocked;
  }

  /** The whole submission: refused exactly for cause. */
  lemma CheckoutDecided(db: Db, r: Request)
    requires Inv(db) && ActiveGroup(db.groups, r.cart).None?
    ensures CreateCheckout(db, r).Ok? <==>
      && Q.QuoteCart(r.rows, r.terms).Ok? && (r.via == Financed ==> r.quoteUnchanged)
      && var q := Q.QuoteCart(r.rows, r.terms).value;
         && InStock(db, q) && (r.via == Wallet ==> WalletCovers(db, r, q))
         && (r.via in {Wallet, Financed} ==> OrdersSettle(db, q))
  {
    hide Inv, PlaceQuoted, Q.QuoteCart, InStock, OrdersSettle, Consistent;
    if Q.QuoteCart(r.rows, r.terms).Ok? {
      QuoteIsConsistent(r.rows, r.terms);
      QuotedDecided(db, r, Q.QuoteCart(r.rows, r.terms).value);
    }
  }
}
