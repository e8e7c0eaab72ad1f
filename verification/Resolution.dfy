/** Completing and releasing a payment group restore the invariant from the middle of a transaction. */
module Resolution {
  import opened Outcome
  import opened Ledger
  import opened OrderLife
  import opened Shop
  import opened Invariant
  import opened StockMoves
  import S = Settlement

  /** The invariant while the transaction is still working on group `g`. */
  ghost predicate InvBut(db: Db, g: nat) {
    && Linked(db.orders, db.groups)
    && OrdersOk(db.orders)
    && g < |db.groups| && MembersOk(g, db.groups[g], db.orders)
    && OthersOk(db.orders, db.groups, db.payments, g)
    && OnePayer(db.groups)
    && Owned(db.groups, db.payments)
    && CartsApart(db.groups)
    && Stocked(db.orders, db.products)
    && StoresOk(db.orders, db.stores)
    && PurseOk(db.orders, db.groups, db.purse)
    && FundingOk(db.topups, db.transfers, db.purse)
    && PointsOk(db.orders, db.points, db.claims)
    && InflightOk(db.inflight, db.groups, db.payments)
  }

  ghost predicate OthersOk(orders: seq<Order>, groups: seq<Group>, payments: seq<Payment>, g: nat) {
    forall h :: 0 <= h < |groups| && h != g ==> GroupOk(h, groups[h], orders, payments)
  }

  lemma OthersFrame(orders: seq<Order>, after: seq<Order>, groups: seq<Group>, payments: seq<Payment>, g: nat)
    requires OthersOk(orders, groups, payments, g) && |orders| <= |after|
    requires forall o :: 0 <= o < |orders| && orders[o].key.group != g ==> after[o] == orders[o]
    ensures OthersOk(after, groups, payments, g)
  {
    forall h | 0 <= h < |groups| && h != g ensures GroupOk(h, groups[h], after, payments) {
      GroupFrame(h, groups[h], orders, after, payments, payments);
    }
  }

  lemma MembersReplace(g: nat, group: Group, orders: seq<Order>, o: nat, row: Order)
    requires MembersOk(g, group, orders) && o < |orders|
    requires row.key == orders[o].key && row.bill == orders[o].bill
    ensures MembersOk(g, group, orders[o := row])
  {
  }

  lemma OrdersReplace(orders: seq<Order>, o: nat, row: Order)
    requires OrdersOk(orders) && o < |orders| && OrderOk(row)
    ensures OrdersOk(orders[o := row])
  {
  }

  // ----- confirming -----

  /** Confirming an unpaid order moves it, credits its store with its share, and does nothing else. */
  lemma ConfirmOrderEffect(db: Db, o: nat)
    requires o < |db.orders| && db.orders[o].status == OrderReceived && OrderOk(db.orders[o])
    requires Find(db.stores.entries, Settled(o)).None?
    requires ConfirmOrder(db, o).Ok?
    ensures var bill := db.orders[o].bill;
            && S.Split(bill.subtotal, db.rates).Ok?
            && var e := Entry(bill.store, Credit, S.Split(bill.subtotal, db.rates).value.store, Settled(o));
            && Post(db.stores, e).Ok?
            && ConfirmOrder(db, o).value
               == db.(orders := db.orders[o := Move(db.orders[o], Confirmed)], stores := Post(db.stores, e).value)
  {
  }

  lemma StoresSettle(orders: seq<Order>, stores: Book<StoreRef>, o: nat, e: Entry<StoreRef>)
    requires StoresOk(orders, stores) && o < |orders| && orders[o].status == OrderReceived
    requires orders[o].history == OPENING
    requires e.owner == orders[o].bill.store && e.kind == Credit && e.ref == Settled(o)
    requires Post(stores, e).Ok?
    ensures StoresOk(orders[o := Move(orders[o], Confirmed)], Post(stores, e).value)
  {
    assert SettledOk(o, orders[o], stores.entries);
    PostKeepsSound(stores, e);
    FindAppend(stores.entries, e, Settled(o));
    FindAppend(stores.entries, e, Reversed(o));
    hide Sound, Find, Post;
    StoresPost(orders, stores, Post(stores, e).value, o, Move(orders[o], Confirmed), e);
  }

  lemma ConfirmedIsOk(o: Order)
    requires OrderOk(o) && o.status == OrderReceived
    ensures OrderOk(Move(o, Confirmed))
  {
    WalkExtends(o.history, OrderReceived, Confirmed);
  }

  /** One order of the group is confirmed; everything but the group itself stays consistent. */
  lemma ConfirmOrderKeeps(db: Db, g: nat, o: nat)
    requires InvBut(db, g) && o < |db.orders| && db.orders[o].key.group == g
    requires db.orders[o].status == OrderReceived && ConfirmOrder(db, o).Ok?
    ensures var n := ConfirmOrder(db, o).value;
            && InvBut(n, g)
            && n == db.(orders := db.orders[o := Move(db.orders[o], Confirmed)], stores := n.stores)
            && db.stores.entries <= n.stores.entries
            && forall p :: Units(n, p) == Units(db, p)
  {
    assert OrderOk(db.orders[o]);
    assert SettledOk(o, db.orders[o], db.stores.entries);
    ConfirmOrderEffect(db, o);
    ReceivedIsFirst(db.orders[o].history);
    var row := Move(db.orders[o], Confirmed);
    var n := ConfirmOrder(db, o).value;
    var bill := db.orders[o].bill;
    UnitsReplace(db, n, o, row);
    hide Units, OrderOk, Linked, OrdersOk, OthersOk, MembersOk, Stocked, StoresOk, PurseOk, PointsOk, Post;
    hide FundingOk, InflightOk, Owned, OnePayer, CartsApart, ConfirmOrder;
    StoresSettle(db.orders, db.stores, o,
                 Entry(bill.store, Credit, S.Split(bill.subtotal, db.rates).value.store, Settled(o)));
    ConfirmedIsOk(db.orders[o]);
    OrdersReplace(db.orders, o, row);
    LinkedReplace(db.orders, db.groups, o, row);
    MembersReplace(g, db.groups[g], db.orders, o, row);
    OthersFrame(db.orders, n.orders, db.groups, db.payments, g);
    StockedReplace(db.orders, db.products, o, row);
    PurseReplace(db.orders, db.groups, db.purse, o, row);
    PointsReplace(db.orders, db.points, db.claims, o, row);
  }

  /** Orders of group `g` from slot `k` on. */
  predicate From(row: Order, g: nat, k: nat) {
    row.key.group == g && k <= row.key.slot
  }

  /** The remaining allocations are confirmed one by one, each exactly once. */
  lemma {:induction false} ConfirmAllKeeps(db: Db, g: nat, k: nat)
    requires InvBut(db, g) && k <= |db.groups[g].allocations|
    requires forall j :: k <= j < |db.groups[g].allocations| ==>
      db.orders[db.groups[g].allocations[j].order].status == OrderReceived
    requires ConfirmAll(db, db.groups[g].allocations[k..]).Ok?
    ensures var n := ConfirmAll(db, db.groups[g].allocations[k..]).value;
            && InvBut(n, g)
            && n == db.(orders := n.orders, stores := n.stores) && |n.orders| == |db.orders|
            && db.stores.entries <= n.stores.entries
            && (forall p :: Units(n, p) == Units(db, p))
            && (forall o :: 0 <= o < |db.orders| ==>
              n.orders[o] == if From(db.orders[o], g, k) then Move(db.orders[o], Confirmed) else db.orders[o])
    decreases |db.groups[g].allocations| - k
  {
    hide Linked, OrdersOk, OthersOk, OnePayer, Owned, CartsApart, Stocked, StoresOk, PurseOk, FundingOk, PointsOk;
    hide InflightOk, Units;
    var all := db.groups[g].allocations;
    if k < |all| {
      assert all[k..][0] == all[k] && all[k..][1..] == all[k + 1..];
      var o := all[k].order;
      assert db.orders[o].key == Key(g, k);
      var next := ConfirmOrder(db, o).value;
      ConfirmOrderKeeps(db, g, o);
      SlotsApart(db, g, k);
      ConfirmAllKeeps(next, g, k + 1);
      OnlyOneInSlot(db, g, k);
    } else {
      NoneBeyond(db, g);
    }
  }

  lemma SlotsApart(db: Db, g: nat, k: nat)
    requires InvBut(db, g) && k < |db.groups[g].allocations|
    ensures forall j :: k < j < |db.groups[g].allocations| ==>
      db.groups[g].allocations[j].order != db.groups[g].allocations[k].order
  {
    assert db.orders[db.groups[g].allocations[k].order].key == Key(g, k);
  }

  lemma OnlyOneInSlot(db: Db, g: nat, k: nat)
    requires InvBut(db, g) && k < |db.groups[g].allocations|
    ensures forall o :: 0 <= o < |db.orders| ==>
      (From(db.orders[o], g, k) <==> From(db.orders[o], g, k + 1) || o == db.groups[g].allocations[k].order)
  {
    assert db.orders[db.groups[g].allocations[k].order].key == Key(g, k);
  }

  lemma NoneBeyond(db: Db, g: nat)
    requires InvBut(db, g)
    ensures forall o :: 0 <= o < |db.orders| ==> !From(db.orders[o], g, |db.groups[g].allocations|)
  {
  }

  /** Writing the final row of the group under repair restores the whole invariant. */
  lemma CloseGroup(db: Db, g: nat, row: Group)
    requires InvBut(db, g)
    requires row == db.groups[g].(status := row.status, activeCart := None)
    requires GroupOk(g, row, db.orders, db.payments)
    ensures Inv(SetGroup(db, g, row))
  {
    hide OrdersOk, StoresOk, PurseOk, FundingOk, PointsOk, InflightOk, Owned, Stocked, GroupOk;
    hide OthersOk, GroupsOk, OnePayer, CartsApart;
    GroupsRegroup(db.orders, db.groups, db.payments, g, row);
    PurseRegroup(db.orders, db.groups, db.purse, g, row);
    OwnedRegroup(db.groups, db.payments, g, row);
    InflightRegroup(db.inflight, db.groups, db.payments, g, row);
    ApartRegroup(db.groups, g, row);
  }

  lemma GroupsRegroup(orders: seq<Order>, groups: seq<Group>, payments: seq<Payment>, g: nat, row: Group)
    requires OthersOk(orders, groups, payments, g) && g < |groups| && GroupOk(g, row, orders, payments)
    ensures GroupsOk(orders, groups[g := row], payments)
  {
  }

  lemma InflightRegroup(inflight: seq<Verification>, groups: seq<Group>, payments: seq<Payment>, g: nat, row: Group)
    requires InflightOk(inflight, groups, payments) && g < |groups| && row.payment == groups[g].payment
    ensures InflightOk(inflight, groups[g := row], payments)
  {
    forall i | 0 <= i < |inflight| ensures VerificationOk(inflight[i], groups[g := row], payments) {
      assert VerificationOk(inflight[i], groups, payments);
    }
  }

  lemma ApartRegroup(groups: seq<Group>, g: nat, row: Group)
    requires OnePayer(groups) && CartsApart(groups) && g < |groups|
    requires row.payment == groups[g].payment && row.activeCart.None?
    ensures OnePayer(groups[g := row]) && CartsApart(groups[g := row])
  {
  }

  lemma PurseRegroup(orders: seq<Order>, groups: seq<Group>, purse: Book<PurseRef>, g: nat, row: Group)
    requires PurseOk(orders, groups, purse) && g < |groups|
    requires row.via == groups[g].via && row.user == groups[g].user && row.total == groups[g].total
    ensures PurseOk(orders, groups[g := row], purse)
  {
    var after := groups[g := row];
    forall h | 0 <= h < |after| ensures DebitedOk(h, after[h], purse.entries) {
      assert DebitedOk(h, groups[h], purse.entries);
    }
    forall o | 0 <= o < |orders| ensures PursedOk(o, orders[o], ByWallet(orders[o], after), purse.entries) {
      assert PursedOk(o, orders[o], ByWallet(orders[o], groups), purse.entries);
    }
  }

  lemma OwnedRegroup(groups: seq<Group>, payments: seq<Payment>, g: nat, row: Group)
    requires Owned(groups, payments) && g < |groups| && row.payment == groups[g].payment
    ensures Owned(groups[g := row], payments)
  {
    var after := groups[g := row];
    forall p | 0 <= p < |payments| ensures HasPayer(after, p) {
      assert HasPayer(groups, p);
      var h :| 0 <= h < |groups| && PaidBy(groups[h], p);
      assert PaidBy(after[h], p);
    }
  }

  /** A group that may be completed: unpaid, its payment already written as PAID. */
  ghost predicate ReadyToComplete(db: Db, g: nat) {
    && InvBut(db, g)
    && var row := db.groups[g];
    && !Resolved(row) && row.payment.Some? && PaymentFits(row, db.payments)
    && db.payments[row.payment.value].status == Paid
    && AllAre(row, db.orders, OrderReceived)
  }

  lemma CompleteGroupRestores(db: Db, g: nat)
    requires ReadyToComplete(db, g) && CompleteGroup(db, g).Ok?
    ensures var n := CompleteGroup(db, g).value;
            && Inv(n)
            && n == db.(orders := n.orders, stores := n.stores, groups := n.groups)
            && n.groups == db.groups[g := db.groups[g].(status := Paid, activeCart := None)]
            && |n.orders| == |db.orders| && db.stores.entries <= n.stores.entries
            && (forall p :: Units(n, p) == Units(db, p))
            && (forall o :: 0 <= o < |db.orders| ==>
              n.orders[o] == if db.orders[o].key.group == g then Move(db.orders[o], Confirmed) else db.orders[o])
  {
    var row := db.groups[g];
    var done := row.(status := Paid, activeCart := None);
    assert row.allocations[0..] == row.allocations;
    ConfirmAllKeeps(db, g, 0);
    var next := ConfirmAll(db, row.allocations).value;
    assert CompleteGroup(db, g) == Ok(SetGroup(next, g, done));
    CompletedIsOk(db, next, g);
    hide CompleteGroup, ConfirmAll, Inv, InvBut, Units, GroupOk;
    CloseGroup(next, g, done);
    UnitsFrame(next, SetGroup(next, g, done));
  }

  lemma CompletedIsOk(db: Db, next: Db, g: nat)
    requires ReadyToComplete(db, g) && InvBut(next, g)
    requires next.groups == db.groups && next.payments == db.payments && |next.orders| == |db.orders|
    requires forall o :: 0 <= o < |db.orders| && db.orders[o].key.group == g ==>
      next.orders[o] == Move(db.orders[o], Confirmed)
    ensures GroupOk(g, db.groups[g].(status := Paid, activeCart := None), next.orders, next.payments)
  {
    hide Linked, OthersOk, OnePayer, Owned, CartsApart, Stocked, StoresOk, PurseOk, FundingOk, PointsOk, InflightOk;
    var row := db.groups[g];
    forall k | 0 <= k < |row.allocations|
      ensures var o := next.orders[row.allocations[k].order]; o.status == Confirmed && o.refund.None?
    {
      var o := row.allocations[k].order;
      assert db.orders[o].key.group == g;
      assert OrderOk(next.orders[o]);
    }
  }

  // ----- releasing -----

  lemma CalledOffIsOk(o: Order)
    requires OrderOk(o) && o.status in {OrderReceived, Confirmed, Preparing} && o.refund.None?
    ensures OrderOk(CallOff(o)) && !HasRider(CallOff(o))
  {
    WalkExtends(o.history, o.status, Cancelled);
  }

  lemma StoresRelease(orders: seq<Order>, stores: Book<StoreRef>, o: nat, row: Order)
    requires StoresOk(orders, stores) && o < |orders| && row.bill == orders[o].bill
    requires orders[o].status == OrderReceived && row.status == Cancelled && !WasConfirmed(row.history)
    ensures StoresOk(orders[o := row], stores)
  {
    assert SettledOk(o, orders[o], stores.entries);
  }

  lemma PurseRelease(orders: seq<Order>, groups: seq<Group>, purse: Book<PurseRef>, o: nat, row: Order)
    requires PurseOk(orders, groups, purse) && o < |orders|
    requires row.key == orders[o].key && row.bill == orders[o].bill && row.earning == orders[o].earning
    requires !ByWallet(orders[o], groups)
    ensures PurseOk(orders[o := row], groups, purse)
  {
    assert PursedOk(o, orders[o], ByWallet(orders[o], groups), purse.entries);
  }

  /** Cancelling an order and returning its lines to stock neither creates nor loses a unit. */
  lemma UnitsReturned(orders: seq<Order>, ps: map<nat, Product>, o: nat, row: Order, p: nat)
    requires o < |orders| && LinesKnown(orders[o].bill.lines, ps)
    requires orders[o].status != Cancelled && row.status == Cancelled
    ensures ReturnLines(ps, orders[o].bill.lines).Ok?
    ensures Stock(ReturnLines(ps, orders[o].bill.lines).value, p) + Held(orders[o := row], p)
         == Stock(ps, p) + Held(orders, p)
  {
    var lines := orders[o].bill.lines;
    ReturnLinesEffect(ps, lines);
    HeldReplace(orders, o, row, p);
    if p !in ps {
      UnknownHasNoLines(lines, ps, p);
    }
  }

  lemma StockedReturned(orders: seq<Order>, ps: map<nat, Product>, o: nat, row: Order)
    requires Stocked(orders, ps) && o < |orders| && row.bill == orders[o].bill
    ensures ReturnLines(ps, orders[o].bill.lines).Ok?
    ensures Stocked(orders[o := row], ReturnLines(ps, orders[o].bill.lines).value)
  {
    assert LinesKnown(orders[o].bill.lines, ps);
    ReturnLinesEffect(ps, orders[o].bill.lines);
  }

  function Released(db: Db, o: nat, products: map<nat, Product>): Db
    requires o < |db.orders|
  {
    SetOrder(db, o, CallOff(db.orders[o])).(products := products)
  }

  lemma ReleaseUnfolds(db: Db, o: nat)
    requires o < |db.orders| && db.orders[o].status == OrderReceived
    requires ReturnLines(db.products, db.orders[o].bill.lines).Ok?
    ensures ReleaseOrder(db, o) == Ok(Released(db, o, ReturnLines(db.products, db.orders[o].bill.lines).value))
  {
    hide ReturnLines;
  }

  lemma ReleasedBut(db: Db, g: nat, o: nat, products: map<nat, Product>)
    requires InvBut(db, g) && o < |db.orders| && db.orders[o].key.group == g
    requires db.orders[o].status == OrderReceived && db.groups[g].via != Wallet
    requires Stocked(db.orders[o := CallOff(db.orders[o])], products)
    ensures InvBut(Released(db, o, products), g)
  {
    var row := CallOff(db.orders[o]);
    assert OrderOk(db.orders[o]);
    CalledOffIsOk(db.orders[o]);
    ReceivedIsFirst(db.orders[o].history);
    hide OrderOk, Stocked, Linked, OrdersOk, OthersOk, MembersOk, StoresOk, PurseOk;
    hide PointsOk, FundingOk, InflightOk, Owned, OnePayer, CartsApart;
    OrdersReplace(db.orders, o, row);
    LinkedReplace(db.orders, db.groups, o, row);
    MembersReplace(g, db.groups[g], db.orders, o, row);
    OthersFrame(db.orders, db.orders[o := row], db.groups, db.payments, g);
    StoresRelease(db.orders, db.stores, o, row);
    PurseRelease(db.orders, db.groups, db.purse, o, row);
    PointsReplace(db.orders, db.points, db.claims, o, row);
  }

  lemma ReleasedUnits(db: Db, n: Db, o: nat)
    requires o < |db.orders| && LinesKnown(db.orders[o].bill.lines, db.products) && db.orders[o].status == OrderReceived
    requires n.orders == db.orders[o := CallOff(db.orders[o])]
    requires ReturnLines(db.products, db.orders[o].bill.lines) == Ok(n.products)
    ensures forall p :: Units(n, p) == Units(db, p)
  {
    forall p ensures Units(n, p) == Units(db, p) {
      UnitsReturned(db.orders, db.products, o, CallOff(db.orders[o]), p);
    }
  }

  lemma ReleaseOrderKeeps(db: Db, g: nat, o: nat)
    requires InvBut(db, g) && o < |db.orders| && db.orders[o].key.group == g
    requires db.orders[o].status == OrderReceived && db.groups[g].via != Wallet
    ensures ReleaseOrder(db, o).Ok?
    ensures var n := ReleaseOrder(db, o).value;
            && InvBut(n, g)
            && n == db.(orders := db.orders[o := CallOff(db.orders[o])], products := n.products)
            && forall p :: Units(n, p) == Units(db, p)
  {
    assert Stocked(db.orders, db.products) && LinesKnown(db.orders[o].bill.lines, db.products);
    hide InvBut, Units, ReleaseOrder, ReturnLines, LinesKnown, Stocked;
    StockedReturned(db.orders, db.products, o, CallOff(db.orders[o]));
    ReleaseUnfolds(db, o);
    var products := ReturnLines(db.products, db.orders[o].bill.lines).value;
    ReleasedBut(db, g, o, products);
    ReleasedUnits(db, Released(db, o, products), o);
  }

  lemma {:induction false} ReleaseAllKeeps(db: Db, g: nat, k: nat)
    requires InvBut(db, g) && k <= |db.groups[g].allocations| && db.groups[g].via != Wallet
    requires forall j :: k <= j < |db.groups[g].allocations| ==>
      db.orders[db.groups[g].allocations[j].order].status == OrderReceived
    ensures ReleaseAll(db, db.groups[g].allocations[k..]).Ok?
    ensures var n := ReleaseAll(db, db.groups[g].allocations[k..]).value;
            && InvBut(n, g)
            && n == db.(orders := n.orders, products := n.products) && |n.orders| == |db.orders|
            && (forall p :: Units(n, p) == Units(db, p))
            && (forall o :: 0 <= o < |db.orders| ==>
              n.orders[o] == if From(db.orders[o], g, k) then CallOff(db.orders[o]) else db.orders[o])
    decreases |db.groups[g].allocations| - k
  {
    hide Linked, OrdersOk, OthersOk, OnePayer, Owned, CartsApart, Stocked, StoresOk, PurseOk, FundingOk, PointsOk;
    hide InflightOk, Units;
    var all := db.groups[g].allocations;
    if k < |all| {
      assert all[k..][0] == all[k] && all[k..][1..] == all[k + 1..];
      var o := all[k].order;
      assert db.orders[o].key == Key(g, k);
      ReleaseOrderKeeps(db, g, o);
      SlotsApart(db, g, k);
      ReleaseAllKeeps(ReleaseOrder(db, o).value, g, k + 1);
      OnlyOneInSlot(db, g, k);
    } else {
      NoneBeyond(db, g);
    }
  }

  /** A group that may be released: unpaid, its payment, if any, already written as FAILED. */
  ghost predicate ReadyToRelease(db: Db, g: nat) {
    && InvBut(db, g)
    && var row := db.groups[g];
    && !Resolved(row) && PaymentFits(row, db.payments) && row.via !in {Wallet, Financed}
    && (row.payment.Some? ==> db.payments[row.payment.value].status == Failed)
    && AllAre(row, db.orders, OrderReceived)
  }

  /** Releasing an unpaid checkout always succeeds, returns all its stock and cancels all its orders. */
  lemma FailGroupRestores(db: Db, g: nat)
    requires ReadyToRelease(db, g)
    ensures FailGroup(db, g).Ok?
    ensures var n := FailGroup(db, g).value;
            && Inv(n)
            && n == db.(orders := n.orders, products := n.products, groups := n.groups)
            && n.groups == db.groups[g := db.groups[g].(status := Failed, activeCart := None)]
            && |n.orders| == |db.orders|
            && (forall p :: Units(n, p) == Units(db, p))
            && (forall o :: 0 <= o < |db.orders| ==>
              n.orders[o] == if db.orders[o].key.group == g then CallOff(db.orders[o]) else db.orders[o])
  {
    var row := db.groups[g];
    var done := row.(status := Failed, activeCart := None);
    assert row.allocations[0..] == row.allocations;
    ReleaseAllKeeps(db, g, 0);
    var next := ReleaseAll(db, row.allocations).value;
    assert FailGroup(db, g) == Ok(SetGroup(next, g, done));
    ReleasedIsOk(db, next, g);
    hide FailGroup, ReleaseAll, Inv, InvBut, Units, GroupOk;
    CloseGroup(next, g, done);
    UnitsFrame(next, SetGroup(next, g, done));
  }

  lemma ReleasedIsOk(db: Db, next: Db, g: nat)
    requires ReadyToRelease(db, g) && InvBut(next, g)
    requires next.groups == db.groups && next.payments == db.payments && |next.orders| == |db.orders|
    requires forall o :: 0 <= o < |db.orders| && db.orders[o].key.group == g ==>
      next.orders[o] == CallOff(db.orders[o])
    ensures GroupOk(g, db.groups[g].(status := Failed, activeCart := None), next.orders, next.payments)
  {
    hide Linked, OthersOk, OnePayer, Owned, CartsApart, Stocked, StoresOk, PurseOk, FundingOk, PointsOk, InflightOk;
    var row := db.groups[g];
    forall k | 0 <= k < |row.allocations|
      ensures var o := next.orders[row.allocations[k].order];
              o.status == Cancelled && o.refund.None? && !WasConfirmed(o.history)
    {
      var o := row.allocations[k].order;
      assert db.orders[o].key.group == g && OrderOk(db.orders[o]);
      ReceivedIsFirst(db.orders[o].history);
    }
  }
}
