/** What every reachable state promises about wallets, riders, carts and rewards. */
module WalletGuarantees {
  import opened Outcome
  import opened Ledger
  import opened OrderLife
  import opened Shop
  import opened Invariant
  import opened Runs
  import opened Guarantees
  import F = Fingerprint
  import opened Resolution
  import Q = Quote
  import P = Placement

  // ----- wallets -----

  /** Every balance, of customers, riders and stores, is what its ledger adds up to. */
  lemma BalancesMatchLedgers(db: Db, owner: nat)
    requires Reachable(db)
    ensures Balance(db.purse, owner) == Total(db.purse.entries, owner)
    ensures Balance(db.stores, owner) == Total(db.stores.entries, owner)
  {
    ReachableIsOk(db);
    hide Reachable;
  }

  /** A wallet charge never overdraws and takes exactly its amount, from nobody else. */
  lemma ChargesAreCovered(db: Db, user: nat, amount: nat, id: nat, other: nat)
    requires ChargeWallet(db, user, amount, id).Ok?
    ensures Balance(ChargeWallet(db, user, amount, id).value.purse, user) == Balance(db.purse, user) - amount >= 0
    ensures other != user ==> Balance(ChargeWallet(db, user, amount, id).value.purse, other) == Balance(db.purse, other)
  {
  }

  /** A wallet checkout takes exactly the quoted total from a wallet that covers it. */
  lemma WalletCheckoutIsCovered(db: Db, r: Request)
    requires Reachable(db) && CreateCheckout(db, r).Ok? && r.via == Wallet && ActiveGroup(db.groups, r.cart).None?
    ensures Q.QuoteCart(r.rows, r.terms).Ok?
    ensures var (n, g) := CreateCheckout(db, r).value;
            var total := Q.QuoteCart(r.rows, r.terms).value.total;
            && g == |db.groups| < |n.groups| && n.groups[g].status == Paid && n.groups[g].total == total
            && Balance(n.purse, r.user) == Balance(db.purse, r.user) - total >= 0
            && n.purse.entries == db.purse.entries + [Entry(r.user, Debit, total, CheckoutDebit(g))]
  {
    ReachableIsOk(db);
    hide Reachable, Inv;
    P.QuoteIsConsistent(r.rows, r.terms);
    WalletPlacement(db, r, Q.QuoteCart(r.rows, r.terms).value);
  }

  lemma WalletPlacement(db: Db, r: Request, quote: Q.Quote)
    requires Inv(db) && P.Consistent(quote) && PlaceQuoted(db, r, quote).Ok? && r.via == Wallet
    requires forall g :: 0 <= g < |db.groups| ==> db.groups[g].activeCart != Some(r.cart)
    ensures var n, g := PlaceQuoted(db, r, quote).value, |db.groups|;
            && g < |n.groups| && n.groups[g].status == Paid && n.groups[g].total == quote.total
            && Balance(n.purse, r.user) == Balance(db.purse, r.user) - quote.total >= 0
            && n.purse.entries == db.purse.entries + [Entry(r.user, Debit, quote.total, CheckoutDebit(g))]
  {
    hide Inv, PayAtOnce, OpenGroup, P.Consistent, Balance, Charge;
    var g := |db.groups|;
    var ready := PlacedReady(db, r, quote);
    P.OpenGroupKeeps(db, r, quote, ready);
    hide PlaceQuoted, DebitWallet, InvBut;
    PaidRow(ready, g);
    P.PayAtOnceRestores(ready, g);
    ChargeTakes(db.purse, ready.purse, r.user, quote.total, g);
  }

  lemma ChargeTakes(b: Book<PurseRef>, c: Book<PurseRef>, user: nat, amount: nat, g: nat)
    requires Charge(b, user, amount, CheckoutDebit(g)) == Ok(c)
    ensures Balance(c, user) == Balance(b, user) - amount >= 0
    ensures c.entries == b.entries + [Entry(user, Debit, amount, CheckoutDebit(g))]
  {
  }

  /** The state of a wallet checkout between the debit and its payment row. */
  lemma PlacedReady(db: Db, r: Request, quote: Q.Quote) returns (ready: Db)
    requires PlaceQuoted(db, r, quote).Ok? && r.via == Wallet
    ensures OpenGroup(db, r, quote).Ok?
    ensures DebitWallet(OpenGroup(db, r, quote).value, r, quote, |db.groups|) == Ok(ready)
    ensures |db.groups| < |ready.groups| && PlaceQuoted(db, r, quote) == PayAtOnce(ready, |db.groups|)
    ensures Charge(db.purse, r.user, quote.total, CheckoutDebit(|db.groups|)) == Ok(ready.purse)
  {
    hide PayAtOnce, Charge;
    ready := DebitWallet(OpenGroup(db, r, quote).value, r, quote, |db.groups|).value;
    OpenKeepsPurse(db, r, quote);
  }

  lemma OpenKeepsPurse(db: Db, r: Request, quote: Q.Quote)
    requires OpenGroup(db, r, quote).Ok?
    ensures OpenGroup(db, r, quote).value.purse == db.purse
  {
    PlaceKeepsPurse(db, |db.groups|, r.user, r.terms.delivery, quote.orders, 0);
  }

  lemma {:induction false} PlaceKeepsPurse(db: Db, g: nat, user: nat, delivery: bool, os: seq<Q.StoreOrder>, slot: nat)
    requires PlaceOrders(db, g, user, delivery, os, slot).Ok?
    ensures PlaceOrders(db, g, user, delivery, os, slot).value.purse == db.purse
    decreases |os|
  {
    if os != [] {
      var products := ReserveLines(db.products, os[0].items).value;
      var row := NewOrder(Key(g, slot), user, os[0], delivery);
      PlaceKeepsPurse(db.(products := products, orders := db.orders + [row]), g, user, delivery, os[1..], slot + 1);
    }
  }

  lemma PaidRow(db: Db, g: nat)
    requires g < |db.groups| && PayAtOnce(db, g).Ok? && db.groups[g].status == Pending
    ensures g < |PayAtOnce(db, g).value.groups| && PayAtOnce(db, g).value.groups[g].total == db.groups[g].total
  {
    hide ConfirmAll;
  }

  /** Once a reference has moved money, nothing that ever happens moves money under it again. */
  lemma NoReferenceMovesTwice(db: Db, steps: seq<Step>, ref: PurseRef)
    requires Reachable(db) && Find(db.purse.entries, ref).Some?
    ensures Find(Run(db, steps).purse.entries, ref) == Find(db.purse.entries, ref)
    ensures Moved(Run(db, steps).purse.entries, ref) == Moved(db.purse.entries, ref) == Signed(Find(db.purse.entries, ref).value)
  {
    ReachableIsOk(db);
    hide Reachable, Run;
    RunKeeps(db, steps);
    StaysFound(db.purse, Run(db, steps).purse, ref);
    MovedInBook(db.purse, ref);
    MovedInBook(Run(db, steps).purse, ref);
  }

  lemma StaysFound<Ref>(a: Book<Ref>, b: Book<Ref>, ref: Ref)
    requires Sound(a) && Sound(b) && a.entries <= b.entries && Find(a.entries, ref).Some?
    ensures Find(b.entries, ref) == Find(a.entries, ref)
  {
    var e := Find(a.entries, ref).value;
    var i :| 0 <= i < |a.entries| && a.entries[i] == e;
    FindIsUnique(b, i);
  }

  /** A top-up is credited at most once, by exactly its amount, and certainly when it is PAID. */
  lemma TopupIsCreditedOnce(db: Db, t: nat)
    requires Reachable(db) && t < |db.topups|
    ensures Moved(db.purse.entries, TopupCredit(t)) == 0 || Moved(db.purse.entries, TopupCredit(t)) == db.topups[t].amount
    ensures db.topups[t].status == Paid ==> Moved(db.purse.entries, TopupCredit(t)) == db.topups[t].amount
  {
    ReachableIsOk(db);
    hide Reachable;
    assert FundedOk(t, db.topups[t], db.purse.entries);
    MovedInBook(db.purse, TopupCredit(t));
  }

  /** A verified top-up moves what the provider reported, and only the first time. */
  lemma TopupMovesReported(db: Db, t: nat, reported: int, success: bool)
    requires Reachable(db) && VerifyTopup(db, t, reported, success).Ok?
    ensures var before, after := Moved(db.purse.entries, TopupCredit(t)),
                                 Moved(VerifyTopup(db, t, reported, success).value.purse.entries, TopupCredit(t));
            after - before == if success && before == 0 && db.topups[t].status != Paid then reported else 0
  {
    ReachableIsOk(db);
    hide Reachable;
    assert FundedOk(t, db.topups[t], db.purse.entries);
    MovedInBook(db.purse, TopupCredit(t));
    if success && db.topups[t].status != Paid {
      var e := Entry(db.topups[t].user, Credit, db.topups[t].amount, TopupCredit(t));
      MovedAppend(db.purse.entries, e, TopupCredit(t));
    }
  }

  lemma MovedAppend<Ref>(es: seq<Entry<Ref>>, e: Entry<Ref>, ref: Ref)
    ensures Moved(es + [e], ref) == Moved(es, ref) + if e.ref == ref then Signed(e) else 0
  {
    assert (es + [e])[..|es|] == es;
  }

  /**
   A bank transfer is credited by this step, to the handler's user and by the handler's amount,
   exactly when its row is not yet PAID and it has no earlier credit.
   */
  lemma TransferIsCreditedOnce(db: Db, i: nat)
    requires CreditTransfer(db, i).Ok?
    ensures i < |db.receipts|
    ensures var c, after := db.receipts[i], CreditTransfer(db, i).value;
            && c.reference in db.transfers && c.reference in after.transfers && after.transfers[c.reference].status == Paid
            && after.purse.entries
               == (if db.transfers[c.reference].status != Paid && Find(db.purse.entries, TransferCredit(c.reference)).None?
                   then db.purse.entries + [Entry(c.user, Credit, c.amount, TransferCredit(c.reference))]
                   else db.purse.entries)
            && Moved(after.purse.entries, TransferCredit(c.reference)) - Moved(db.purse.entries, TransferCredit(c.reference))
               == (if db.transfers[c.reference].status != Paid && Find(db.purse.entries, TransferCredit(c.reference)).None?
                   then c.amount else 0)
  {
    var c := db.receipts[i];
    MovedAppend(db.purse.entries, Entry(c.user, Credit, c.amount, TransferCredit(c.reference)), TransferCredit(c.reference));
    hide Moved, Find;
  }

  // ----- riders -----

  /** The rider's fee: held with the claim, paid out once, to that rider, exactly when the QR was confirmed. */
  ghost predicate FeePaidOnce(o: nat, row: Order, entries: seq<Entry<PurseRef>>) {
    && (Find(entries, FeeHold(o)).Some? <==> HasRider(row) && row.bill.shippingFee > 0)
    && Moved(entries, FeeHold(o)) == 0
    && Moved(entries, FeeRelease(o)) == (if HandedByQr(row) then row.bill.shippingFee else 0)
    && (Find(entries, FeeRelease(o)).Some? ==>
      HasRider(row) && Find(entries, FeeRelease(o)).value.owner == row.delivery.value.rider.value)
    && (HandedByQr(row) ==> row.status == Completed)
  }

  lemma RowPaysOnce(o: nat, row: Order, wallet: bool, purse: Book<PurseRef>)
    requires OrderOk(row) && PursedOk(o, row, wallet, purse.entries) && Sound(purse)
    ensures FeePaidOnce(o, row, purse.entries)
  {
    hide Sound, Find, Moved, Walk;
    MovedInBook(purse, FeeHold(o));
    MovedInBook(purse, FeeRelease(o));
  }

  lemma RiderIsPaidOnce(db: Db, o: nat)
    requires Reachable(db) && o < |db.orders|
    ensures FeePaidOnce(o, db.orders[o], db.purse.entries)
  {
    ReachableIsOk(db);
    hide Reachable, OrderOk, PursedOk, FeePaidOnce, Sound;
    RowPaysOnce(o, db.orders[o], ByWallet(db.orders[o], db.groups), db.purse);
  }

  /** Of any claims of one delivery, however interleaved, one wins: every later one is refused for ever. */
  lemma ClaimIsFinal(db: Db, winner: nat, o: nat, steps: seq<Step>, loser: nat)
    requires Reachable(db) && ClaimDelivery(db, winner, o).Ok?
    ensures var later := Run(Apply(db, ClaimBy(winner, o)), steps);
            && o < |later.orders| && HasRider(later.orders[o]) && later.orders[o].delivery.value.rider == Some(winner)
            && ClaimDelivery(later, loser, o).Err?
            && Apply(later, ClaimBy(loser, o)) == later
  {
    ReachableIsOk(db);
    ClaimAssigns(db, winner, o);
    ClaimApplied(db, winner, o);
    hide Reachable, Inv, Run, ClaimDelivery, HasRider, Apply, Evolves, Units;
    var claimed := ClaimDelivery(db, winner, o).value;
    StepKeeps(db, ClaimBy(winner, o));
    RiderStays(claimed, steps, o);
    ClaimRefused(Run(claimed, steps), loser, o);
  }

  lemma ClaimApplied(db: Db, rider: nat, o: nat)
    requires ClaimDelivery(db, rider, o).Ok?
    ensures Apply(db, ClaimBy(rider, o)) == ClaimDelivery(db, rider, o).value
  {
    hide ClaimDelivery;
  }

  lemma RiderStays(db: Db, steps: seq<Step>, o: nat)
    requires Inv(db) && o < |db.orders| && HasRider(db.orders[o])
    ensures o < |Run(db, steps).orders| && HasRider(Run(db, steps).orders[o])
    ensures Run(db, steps).orders[o].delivery.value.rider == db.orders[o].delivery.value.rider
  {
    hide Inv, Run;
    RunKeeps(db, steps);
    assert OrderEvolves(db.orders[o], Run(db, steps).orders[o]);
  }

  lemma ClaimRefused(db: Db, rider: nat, o: nat)
    requires o < |db.orders| && HasRider(db.orders[o])
    ensures ClaimDelivery(db, rider, o).Err? && Apply(db, ClaimBy(rider, o)) == db
  {
    AssignedIsRefused(db, rider, o);
    hide ClaimDelivery;
  }

  lemma ClaimAssigns(db: Db, rider: nat, o: nat)
    requires ClaimDelivery(db, rider, o).Ok?
    ensures var n := ClaimDelivery(db, rider, o).value;
            && o < |n.orders| && HasRider(n.orders[o]) && n.orders[o].delivery.value.rider == Some(rider)
  {
    hide Find;
  }

  lemma AssignedIsRefused(db: Db, rider: nat, o: nat)
    requires o < |db.orders| && HasRider(db.orders[o])
    ensures ClaimDelivery(db, rider, o).Err?
  {
  }

  // ----- carts -----

  /** A cart never has two unresolved checkouts. */
  lemma CartHasOneCheckout(db: Db, g: nat, h: nat)
    requires Reachable(db) && g < |db.groups| && h < |db.groups| && g != h
    requires !Resolved(db.groups[g]) && !Resolved(db.groups[h])
    ensures db.groups[g].cart != db.groups[h].cart
  {
    GroupsTellOneStory(db, g);
    GroupsTellOneStory(db, h);
    ReachableIsOk(db);
    hide Reachable;
    if g < h {
      assert db.groups[g].activeCart != db.groups[h].activeCart;
    } else {
      assert db.groups[h].activeCart != db.groups[g].activeCart;
    }
  }

  /** Submitting again while a checkout is unresolved: the same input returns it, any other is refused. */
  lemma ResubmissionIsHarmless(db: Db, g: nat, r: Request)
    requires Reachable(db) && g < |db.groups| && !Resolved(db.groups[g]) && r.cart == db.groups[g].cart
    requires F.WellFormed(db.groups[g].input) && F.WellFormed(r.input)
    ensures CreateCheckout(db, r)
         == if r.via != Financed && F.Equivalent(db.groups[g].input, r.input) then Ok((db, g)) else Err(Conflict)
  {
    GroupsTellOneStory(db, g);
    var h := ActiveGroup(db.groups, r.cart).value;
    SameCartSameGroup(db, g, h, r.cart);
    F.CanonicalDecides(db.groups[g].input, r.input);
  }

  lemma SameCartSameGroup(db: Db, g: nat, h: nat, cart: nat)
    requires Reachable(db) && g < |db.groups| && h < |db.groups|
    requires db.groups[g].activeCart == Some(cart) && db.groups[h].activeCart == Some(cart)
    ensures g == h
  {
    ReachableIsOk(db);
    hide Reachable;
    assert CartsApart(db.groups);
    hide Inv;
  }

  // ----- Klump -----

  lemma {:induction false} WholeNairaAddUp(orders: seq<Order>, all: seq<Allocation>)
    requires forall a :: a in all ==>
      a.order < |orders| && orders[a.order].bill.total == a.amount && a.amount % 100 == 0
    ensures SumAmounts(all) == 100 * SumNaira(orders, all)
  {
    if all != [] {
      assert all[0] in all;
      WholeNairaAddUp(orders, all[1..]);
    }
  }

  /** Klump's own total check can never be what refuses a checkout. */
  lemma KlumpTotalsAgree(db: Db, g: nat)
    requires Reachable(db) && g < |db.groups|
    requires forall a :: a in db.groups[g].allocations ==> a.order < |db.orders| && WholeNaira(db.orders[a.order].bill.total)
    ensures SumNaira(db.orders, db.groups[g].allocations) == db.groups[g].total / 100
    ensures db.groups[g].total % 100 == 0
  {
    ReachableIsOk(db);
    hide Reachable;
    assert GroupOk(g, db.groups[g], db.orders, db.payments);
    WholeNairaAddUp(db.orders, db.groups[g].allocations);
  }

  // ----- rewards and histories -----

  /** Points are those of the completed orders less those spent, and never negative. */
  lemma PointsAddUp(db: Db, user: nat)
    requires Reachable(db)
    ensures Points(db.points, user) == Earned(db.orders, user) - Spent(db.claims, user) >= 0
  {
    ReachableIsOk(db);
    hide Reachable;
  }

  /** Every history is a walk along the table to the current status, and nothing follows a terminal row. */
  lemma HistoriesAreWalks(db: Db, o: nat, i: nat)
    requires Reachable(db) && o < |db.orders| && i < |db.orders[o].history|
    ensures Walk(db.orders[o].history, db.orders[o].status)
    ensures db.orders[o].history[i].to in {Completed, Cancelled} ==> i == |db.orders[o].history| - 1
  {
    ReachableIsOk(db);
    hide Reachable;
    assert OrderOk(db.orders[o]);
    if db.orders[o].history[i].to in {Completed, Cancelled} {
      TerminalIsLast(db.orders[o].history, db.orders[o].status, i);
    }
  }

  /** From an empty shop: what is on the shelf and what orders hold are always the units first stocked. */
  lemma StockIsConserved(start: Db, steps: seq<Step>, p: nat)
    requires Blank(start) && forall i :: 0 <= i < |steps| ==> !steps[i].EditProduct?
    ensures var db := Run(start, steps);
            Stock(db.products, p) + Held(db.orders, p) == Stock(start.products, p) && Stock(db.products, p) >= 0
  {
    BlankIsOk(start);
    EveryRunIsConsistent(start, steps);
    UnitsAreConserved(start, steps, p);
  }
}
