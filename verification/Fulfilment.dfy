/** Preparing, claiming, delivering and completing a paid order. */
module Fulfilment {
  import opened Outcome
  import opened Ledger
  import opened OrderLife
  import opened Shop
  import opened Invariant
  import opened Resolution
  import opened Placement
  import opened Paying

  // ----- one paid order moves on -----

  /** The row of a paid order after a step that neither cancels nor refunds it. */
  ghost predicate Advanced(x: Order, y: Order) {
    && y.key == x.key && y.bill == x.bill && y.refund == x.refund
    && Active(x.status) && Active(y.status) && x.history <= y.history && OrderOk(y)
  }

  lemma AdvanceRows(db: Db, o: nat, row: Order)
    requires Inv(db) && o < |db.orders| && Advanced(db.orders[o], row)
    ensures var orders := db.orders[o := row];
            && Linked(orders, db.groups) && OrdersOk(orders) && GroupsOk(orders, db.groups, db.payments)
            && Stocked(orders, db.products) && StoresOk(orders, db.stores)
            && forall p :: Held(orders, p) == Held(db.orders, p)
  {
    assert OrderOk(row) && OrderOk(db.orders[o]);
    ConfirmedOrReleased(db.orders[o].history, db.orders[o].status);
    hide OrderOk, Linked, OrdersOk, GroupsOk, Stocked, StoresOk, PurseOk, FundingOk, PointsOk, InflightOk, Owned;
    hide OnePayer, CartsApart;
    LinkedReplace(db.orders, db.groups, o, row);
    OrdersReplace(db.orders, o, row);
    GroupsReplace(db.orders, db.groups, db.payments, o, row);
    StockedReplace(db.orders, db.products, o, row);
    StoresReplace(db.orders, db.stores, o, row);
    forall p ensures Held(db.orders[o := row], p) == Held(db.orders, p) {
      HeldReplace(db.orders, o, row, p);
    }
  }

  /** One order's row written, and possibly the wallets and the points. */
  function RowWritten(db: Db, o: nat, row: Order, purse: Book<PurseRef>, points: map<nat, int>): Db
    requires o < |db.orders|
  {
    SetOrder(db, o, row).(purse := purse, points := points)
  }

  lemma RowWrittenInv(db: Db, o: nat, row: Order, purse: Book<PurseRef>, points: map<nat, int>)
    requires Inv(db) && o < |db.orders| && Advanced(db.orders[o], row)
    requires PurseOk(db.orders[o := row], db.groups, purse) && FundingOk(db.topups, db.transfers, purse)
    requires PointsOk(db.orders[o := row], points, db.claims)
    ensures Inv(RowWritten(db, o, row, purse, points))
  {
    hide Linked, OrdersOk, GroupsOk, Stocked, StoresOk, PurseOk, FundingOk, PointsOk, InflightOk, Owned;
    hide OnePayer, CartsApart, Held;
    AdvanceRows(db, o, row);
  }

  lemma RowWrittenEvolves(db: Db, o: nat, row: Order, purse: Book<PurseRef>, points: map<nat, int>)
    requires o < |db.orders| && OrderEvolves(db.orders[o], row) && db.purse.entries <= purse.entries
    requires row.bill == db.orders[o].bill && (row.status == Cancelled <==> db.orders[o].status == Cancelled)
    ensures Evolves(db, RowWritten(db, o, row, purse, points))
    ensures forall p :: Units(RowWritten(db, o, row, purse, points), p) == Units(db, p)
  {
    hide OrderEvolves, Units, Evolves;
    OneOrderEvolves(db, RowWritten(db, o, row, purse, points), o, row);
    UnitsReplace(db, RowWritten(db, o, row, purse, points), o, row);
  }

  lemma AdvanceIsSane(db: Db, o: nat, row: Order, purse: Book<PurseRef>, points: map<nat, int>)
    requires Inv(db) && o < |db.orders| && Advanced(db.orders[o], row) && OrderEvolves(db.orders[o], row)
    requires PurseOk(db.orders[o := row], db.groups, purse) && FundingOk(db.topups, db.transfers, purse)
    requires PointsOk(db.orders[o := row], points, db.claims) && db.purse.entries <= purse.entries
    ensures Sane(db, RowWritten(db, o, row, purse, points))
  {
    hide Inv, Evolves, Units, PurseOk, FundingOk, PointsOk, OrderEvolves, RowWritten, OrderOk;
    RowWrittenInv(db, o, row, purse, points);
    RowWrittenEvolves(db, o, row, purse, points);
  }

  /** Steps that leave wallets and points alone. */
  lemma PlainAdvance(db: Db, o: nat, row: Order)
    requires Inv(db) && o < |db.orders| && Advanced(db.orders[o], row) && OrderEvolves(db.orders[o], row)
    requires row.earning == db.orders[o].earning
    requires row.status == Completed <==> db.orders[o].status == Completed
    ensures Sane(db, SetOrder(db, o, row))
  {
    hide OrderOk, Linked, OrdersOk, GroupsOk, Stocked, StoresOk, PurseOk, FundingOk, PointsOk, InflightOk, Owned;
    hide OnePayer, CartsApart, OrderEvolves, Sane;
    PurseReplace(db.orders, db.groups, db.purse, o, row);
    PointsReplace(db.orders, db.points, db.claims, o, row);
    AdvanceIsSane(db, o, row, db.purse, db.points);
  }

  /** A status change along an edge keeps the order's own rules. */
  lemma MoveIsOk(x: Order, to: Status)
    requires OrderOk(x) && Active(x.status) && Active(to) && Edge(x.status, to)
    ensures Advanced(x, Move(x, to)) && OrderEvolves(x, Move(x, to))
  {
    WalkExtends(x.history, x.status, to);
  }

  lemma OrderIsOk(db: Db, o: nat)
    requires Inv(db) && o < |db.orders|
    ensures OrderOk(db.orders[o])
  {
  }

  lemma StoreSetStatusKeeps(db: Db, o: nat, to: Status)
    requires Inv(db) && StoreSetStatus(db, o, to).Ok?
    ensures Sane(db, StoreSetStatus(db, o, to).value)
  {
    OrderIsOk(db, o);
    hide Inv, Sane;
    MoveIsOk(db.orders[o], to);
    PlainAdvance(db, o, Move(db.orders[o], to));
  }

  lemma PackingKeeps(db: Db, o: nat, scanned: bool)
    requires Inv(db) && CompletePacking(db, o, scanned).Ok?
    ensures Sane(db, CompletePacking(db, o, scanned).value)
  {
    OrderIsOk(db, o);
    hide Inv, Sane;
    MoveIsOk(db.orders[o], ReadyForPickup);
    PlainAdvance(db, o, Move(db.orders[o], ReadyForPickup));
  }

  /** The rider reports where the parcel is, which may send the order out. */
  function Reported(x: Order, to: DeliveryStatus): Order
    requires x.delivery.Some?
  {
    var y := x.(delivery := Some(x.delivery.value.(status := to)));
    if to !in {InTransit, OnTheWay, Arrived} || x.status == OutForDelivery then y else Move(y, OutForDelivery)
  }

  lemma ReportedIsOk(x: Order, to: DeliveryStatus)
    requires OrderOk(x) && HasRider(x) && to != HandedOver && x.delivery.value.status != HandedOver
    requires to in {InTransit, OnTheWay, Arrived} ==> x.status == OutForDelivery || CanTransition(x.status, OutForDelivery)
    ensures Advanced(x, Reported(x, to)) && OrderEvolves(x, Reported(x, to)) && Reported(x, to).earning == x.earning
    ensures Reported(x, to).status == Completed <==> x.status == Completed
  {
    if to in {InTransit, OnTheWay, Arrived} && x.status != OutForDelivery {
      WalkExtends(x.history, x.status, OutForDelivery);
    }
  }

  lemma RiderUpdateUnfolds(db: Db, rider: nat, o: nat, to: DeliveryStatus)
    requires RiderUpdate(db, rider, o, to).Ok?
    ensures o < |db.orders| && HasRider(db.orders[o]) && to != HandedOver
    ensures db.orders[o].delivery.value.status != HandedOver
    ensures to in {InTransit, OnTheWay, Arrived} ==>
      db.orders[o].status == OutForDelivery || CanTransition(db.orders[o].status, OutForDelivery)
    ensures RiderUpdate(db, rider, o, to).value == SetOrder(db, o, Reported(db.orders[o], to))
  {
    hide CanTransition, Move;
  }

  lemma RiderUpdateKeeps(db: Db, rider: nat, o: nat, to: DeliveryStatus)
    requires Inv(db) && RiderUpdate(db, rider, o, to).Ok?
    ensures Sane(db, RiderUpdate(db, rider, o, to).value)
  {
    RiderUpdateUnfolds(db, rider, o, to);
    hide Inv, Sane, RiderUpdate, OrderOk, OrderEvolves, Advanced, CanTransition;
    OrderIsOk(db, o);
    ReportedIsOk(db.orders[o], to);
    PlainAdvance(db, o, Reported(db.orders[o], to));
  }

  lemma ConfirmPickupKeeps(db: Db, rider: nat, o: nat, credential: bool, scanned: bool)
    requires Inv(db) && ConfirmPickup(db, rider, o, credential, scanned).Ok?
    ensures Sane(db, ConfirmPickup(db, rider, o, credential, scanned).value)
  {
    OrderIsOk(db, o);
    hide Inv, Sane;
    MoveIsOk(db.orders[o], PickedUp);
    var x := db.orders[o];
    PlainAdvance(db, o, Move(x, PickedUp).(delivery := Some(x.delivery.value.(status := Collected))));
  }

  // ----- completion -----

  lemma PointsEarned(orders: seq<Order>, points: map<nat, int>, claims: seq<Claim>, o: nat, row: Order)
    requires PointsOk(orders, points, claims) && o < |orders| && row.bill == orders[o].bill
    requires row.status == Completed && orders[o].status != Completed
    ensures var user := row.bill.user;
            PointsOk(orders[o := row], points[user := Points(points, user) + PointsFor(row.bill.total)], claims)
  {
    var user := row.bill.user;
    var after := points[user := Points(points, user) + PointsFor(row.bill.total)];
    forall u: nat ensures Points(after, u) == Earned(orders[o := row], u) - Spent(claims, u) {
      assert Points(points, u) == Earned(orders, u) - Spent(claims, u);
      EarnedReplace(orders, o, row, u);
    }
  }

  /** The state after an order was completed and the points of its total added. */
  function Rewarded(db: Db, o: nat, row: Order, purse: Book<PurseRef>): Db
    requires o < |db.orders|
  {
    var user := row.bill.user;
    RowWritten(db, o, row, purse, db.points[user := Points(db.points, user) + PointsFor(row.bill.total)])
  }

  lemma CompletionIsSane(db: Db, o: nat, row: Order, purse: Book<PurseRef>)
    requires Inv(db) && o < |db.orders| && Advanced(db.orders[o], row) && OrderEvolves(db.orders[o], row)
    requires row.status == Completed && db.orders[o].status != Completed
    requires PurseOk(db.orders[o := row], db.groups, purse) && FundingOk(db.topups, db.transfers, purse)
    requires db.purse.entries <= purse.entries
    ensures Sane(db, Rewarded(db, o, row, purse))
  {
    hide OrderOk, Linked, OrdersOk, GroupsOk, Stocked, StoresOk, PurseOk, FundingOk, PointsOk, InflightOk, Owned;
    hide OnePayer, CartsApart, OrderEvolves, Sane, Points, PointsFor;
    PointsEarned(db.orders, db.points, db.claims, o, row);
    hide Advanced;
    var user := row.bill.user;
    AdvanceIsSane(db, o, row, purse, db.points[user := Points(db.points, user) + PointsFor(row.bill.total)]);
  }

  lemma CompletionIsReward(db: Db, o: nat)
    requires o < |db.orders|
    ensures CompleteOrder(db, o) == Rewarded(db, o, Move(db.orders[o], Completed), db.purse)
  {
  }

  /** A completed order earns its customer the points of its total, once. */
  lemma CompleteOrderKeeps(db: Db, o: nat)
    requires Inv(db) && o < |db.orders| && CanTransition(db.orders[o].status, Completed) && Active(db.orders[o].status)
    ensures Sane(db, CompleteOrder(db, o))
  {
    OrderIsOk(db, o);
    var row := Move(db.orders[o], Completed);
    assert Edge(db.orders[o].status, Completed) && db.orders[o].status != Completed;
    hide OrderOk, Linked, OrdersOk, GroupsOk, Stocked, StoresOk, PurseOk, FundingOk, PointsOk, InflightOk, Owned;
    hide OnePayer, CartsApart, OrderEvolves, Sane, Edge, CanTransition, CompleteOrder, Rewarded;
    CompletionIsReward(db, o);
    MoveIsOk(db.orders[o], Completed);
    PurseReplace(db.orders, db.groups, db.purse, o, row);
    CompletionIsSane(db, o, row, db.purse);
  }

  lemma AdminMoves(from: Status, to: Status)
    requires to in ADMIN_MANAGED && CanTransition(from, to)
    ensures Active(from) && Active(to) && Edge(from, to) && from != Completed
  {
  }

  /** Staff intervention never confirms, cancels or revives an order. */
  lemma AdminSetStatusKeeps(db: Db, o: nat, to: Status)
    requires Inv(db) && AdminSetStatus(db, o, to).Ok?
    ensures Sane(db, AdminSetStatus(db, o, to).value)
    ensures o < |db.orders| && Active(db.orders[o].status) && Active(to)
  {
    OrderIsOk(db, o);
    hide Inv, Sane, CompleteOrder, CanTransition, Edge, OrderOk, Advanced, OrderEvolves;
    var x := db.orders[o];
    AdminMoves(x.status, to);
    if to == Completed {
      CompleteOrderKeeps(db, o);
    } else {
      MoveIsOk(x, to);
      PlainAdvance(db, o, Move(x, to));
    }
  }

  // ----- the rider's claim and fee -----

  /** A paid order's group is PAID: so a claim is always funded. */
  lemma ActiveIsFunded(db: Db, o: nat)
    requires Inv(db) && o < |db.orders| && Active(db.orders[o].status)
    ensures Funded(db, o)
  {
    var k := db.orders[o].key;
    var row := db.groups[k.group];
    assert row.allocations[k.slot].order == o;
    assert GroupOk(k.group, row, db.orders, db.payments);
  }

  /** The entry that goes with a change of the earning: its hold, or its release. */
  ghost predicate FeeEntry(o: nat, x: Order, y: Order, e: Entry<PurseRef>) {
    && y.earning.Some?
    && var fee := y.earning.value;
    || (x.earning.None? && !fee.released && e == Entry(fee.rider, Hold, fee.amount, FeeHold(o)))
    || (&& x.earning.Some? && !x.earning.value.released && fee == x.earning.value.(released := true)
        && e == Entry(fee.rider, Release, fee.amount, FeeRelease(o)))
  }

  lemma FeePosted(o: nat, x: Order, y: Order, wallet: bool, entries: seq<Entry<PurseRef>>, e: Entry<PurseRef>)
    requires PursedOk(o, x, wallet, entries) && FeeEntry(o, x, y, e)
    requires y.bill == x.bill && x.status != Cancelled && y.status != Cancelled
    ensures PursedOk(o, y, wallet, entries + [e])
  {
    FindAppend(entries, e, OrderCancel(o));
    FindAppend(entries, e, FeeHold(o));
    FindAppend(entries, e, FeeRelease(o));
    hide Find;
  }

  lemma PurseFee(orders: seq<Order>, groups: seq<Group>, purse: Book<PurseRef>, after: Book<PurseRef>, o: nat, row: Order, e: Entry<PurseRef>)
    requires PurseOk(orders, groups, purse) && o < |orders| && FeeEntry(o, orders[o], row, e)
    requires row.key == orders[o].key && row.bill == orders[o].bill
    requires row.status != Cancelled && orders[o].status != Cancelled
    requires Sound(after) && after.entries == purse.entries + [e]
    ensures PurseOk(orders[o := row], groups, after)
  {
    hide Sound, Find, PursedOk;
    FeePosted(o, orders[o], row, ByWallet(orders[o], groups), purse.entries, e);
    hide PurseOk;
    PursePost(orders, groups, purse, after, o, row, e);
  }

  /** The claimed row, before any fee is held. */
  function ClaimedRow(x: Order, rider: nat): Order {
    Move(x, RiderAssigned).(delivery := Some(Delivery(Some(rider), Assigned)))
  }

  lemma ClaimedIsOk(x: Order, rider: nat)
    requires OrderOk(x) && x.status == ReadyForPickup && x.delivery.Some? && x.delivery.value.rider.None?
    ensures var y := ClaimedRow(x, rider);
            var held := if y.bill.shippingFee == 0 then y else y.(earning := Some(Earning(rider, y.bill.shippingFee, false)));
            Advanced(x, held) && OrderEvolves(x, held) && x.earning.None?
  {
    WalkExtends(x.history, ReadyForPickup, RiderAssigned);
  }

  /** The claim assigns the rider and holds exactly the shipping fee for them. */
  lemma ClaimEffect(db: Db, rider: nat, o: nat)
    requires Inv(db) && ClaimDelivery(db, rider, o).Ok?
    ensures var x := db.orders[o];
            var y := ClaimedRow(x, rider);
            var n := ClaimDelivery(db, rider, o).value;
            if x.bill.shippingFee == 0 then n == SetOrder(db, o, y)
            else
              var e := Entry(rider, Hold, x.bill.shippingFee, FeeHold(o));
              && Post(Open(db.purse, rider), e).Ok?
              && n == SetOrder(db, o, y.(earning := Some(Earning(rider, x.bill.shippingFee, false))))
                      .(purse := Post(Open(db.purse, rider), e).value)
  {
    OrderIsOk(db, o);
    ActiveIsFunded(db, o);
    hide Inv;
    var y := ClaimedRow(db.orders[o], rider);
    var claimed := SetOrder(db, o, y);
    assert Funded(claimed, o);
    assert db.orders[o := y][o := y] == db.orders[o := y];
    assert y.earning.None?;
    assert claimed.orders[o := y.(earning := Some(Earning(rider, y.bill.shippingFee, false)))]
        == db.orders[o := y.(earning := Some(Earning(rider, y.bill.shippingFee, false)))];
  }

  lemma ClaimKeeps(db: Db, rider: nat, o: nat)
    requires Inv(db) && ClaimDelivery(db, rider, o).Ok?
    ensures Sane(db, ClaimDelivery(db, rider, o).value)
  {
    OrderIsOk(db, o);
    ClaimEffect(db, rider, o);
    var x := db.orders[o];
    ClaimedIsOk(x, rider);
    if x.bill.shippingFee == 0 {
      hide Inv, Sane, ClaimDelivery;
      PlainAdvance(db, o, ClaimedRow(x, rider));
    } else {
      HeldKeeps(db, rider, o);
    }
  }

  lemma HeldKeeps(db: Db, rider: nat, o: nat)
    requires Inv(db) && o < |db.orders| && db.orders[o].status == ReadyForPickup && db.orders[o].delivery.Some?
    requires db.orders[o].delivery.value.rider.None? && db.orders[o].bill.shippingFee > 0
    requires Post(Open(db.purse, rider), Entry(rider, Hold, db.orders[o].bill.shippingFee, FeeHold(o))).Ok?
    ensures var x := db.orders[o];
            var e := Entry(rider, Hold, x.bill.shippingFee, FeeHold(o));
            Sane(db, SetOrder(db, o, ClaimedRow(x, rider).(earning := Some(Earning(rider, x.bill.shippingFee, false))))
                     .(purse := Post(Open(db.purse, rider), e).value))
  {
    OrderIsOk(db, o);
    var x := db.orders[o];
    ClaimedIsOk(x, rider);
    var row := ClaimedRow(x, rider).(earning := Some(Earning(rider, x.bill.shippingFee, false)));
    var e := Entry(rider, Hold, x.bill.shippingFee, FeeHold(o));
    var purse := Post(Open(db.purse, rider), e).value;
    OpenKeepsSound(db.purse, rider);
    PostKeepsSound(Open(db.purse, rider), e);
    hide OrderOk, Linked, OrdersOk, GroupsOk, Stocked, StoresOk, FundingOk, PointsOk, InflightOk, Owned;
    hide OnePayer, CartsApart, OrderEvolves, Sane, Sound, Find, Post, Open;
    PurseFee(db.orders, db.groups, db.purse, purse, o, row, e);
    FundingUntouched(db.topups, db.transfers, db.purse, purse, e);
    PointsReplace(db.orders, db.points, db.claims, o, row);
    AdvanceIsSane(db, o, row, purse, db.points);
  }

  // ----- delivery -----

  function PaidOut(e: Option<Earning>): Option<Earning> {
    if e.Some? then Some(e.value.(released := true)) else None
  }

  /** The row after the customer's QR was confirmed: delivered, then completed, the fee released. */
  function DeliveredRow(x: Order): Order
    requires x.delivery.Some?
  {
    Move(HandedRow(x).(earning := PaidOut(x.earning)), Completed)
  }

  function HandedRow(x: Order): Order
    requires x.delivery.Some?
  {
    Move(x, Delivered).(delivery := Some(x.delivery.value.(status := HandedOver)))
  }

  lemma DeliveredIsOk(x: Order)
    requires OrderOk(x) && x.status == OutForDelivery && HasRider(x)
    ensures Advanced(x, DeliveredRow(x)) && OrderEvolves(x, DeliveredRow(x))
  {
    WalkExtends(x.history, OutForDelivery, Delivered);
    var h := x.history + [Row(Some(OutForDelivery), Delivered)];
    WalkExtends(h, Delivered, Completed);
  }

  /** What the wallets look like afterwards: the held fee, and nothing else, was paid to the rider. */
  ghost predicate FeePaid(purse: Book<PurseRef>, after: Book<PurseRef>, o: nat, x: Order) {
    if x.earning.None? then after == purse
    else
      var e := Entry(x.earning.value.rider, Release, x.earning.value.amount, FeeRelease(o));
      Post(purse, e) == Ok(after)
  }

  lemma DeliveryUnfolds(db: Db, rider: nat, o: nat)
    requires ConfirmDelivery(db, rider, o, true).Ok?
    ensures o < |db.orders| && db.orders[o].status == OutForDelivery && HasRider(db.orders[o])
    ensures var r := ReleaseEarning(SetOrder(db, o, HandedRow(db.orders[o])), o);
            && r.Ok? && o < |r.value.orders|
            && ConfirmDelivery(db, rider, o, true).value == CompleteOrder(r.value, o)
  {
    hide ReleaseEarning, CompleteOrder, Move;
  }

  lemma DeliveryEffect(db: Db, rider: nat, o: nat)
    requires Inv(db) && ConfirmDelivery(db, rider, o, true).Ok?
    ensures o < |db.orders| && db.orders[o].status == OutForDelivery && HasRider(db.orders[o])
    ensures var x := db.orders[o];
            var n := ConfirmDelivery(db, rider, o, true).value;
            && FeePaid(db.purse, n.purse, o, x)
            && n == Rewarded(db, o, DeliveredRow(x), n.purse)
  {
    DeliveryUnfolds(db, rider, o);
    OrderIsOk(db, o);
    hide Inv, Walk, ConfirmDelivery, ReleaseEarning, FeePaid, CompleteOrder, Points, PointsFor;
    var x := db.orders[o];
    var handed := HandedRow(x);
    var mid := SetOrder(db, o, handed);
    ReleaseEffect(mid, o);
    FeeOf(db.purse, ReleaseEarning(mid, o).value.purse, o, handed, x);
    CompleteAfter(db, o, handed, handed.(earning := PaidOut(x.earning)), ReleaseEarning(mid, o).value);
  }

  lemma FeeOf(purse: Book<PurseRef>, after: Book<PurseRef>, o: nat, x: Order, y: Order)
    requires FeePaid(purse, after, o, x) && y.earning == x.earning
    ensures FeePaid(purse, after, o, y)
  {
  }

  lemma CompleteAfter(db: Db, o: nat, handed: Order, row: Order, released: Db)
    requires o < |db.orders|
    requires released == SetOrder(SetOrder(db, o, handed), o, row).(purse := released.purse)
    ensures CompleteOrder(released, o) == Rewarded(db, o, Move(row, Completed), released.purse)
  {
    hide Points, PointsFor;
    assert db.orders[o := handed][o := row] == db.orders[o := row];
    assert db.orders[o := row][o := Move(row, Completed)] == db.orders[o := Move(row, Completed)];
  }

  lemma ReleaseEffect(db: Db, o: nat)
    requires o < |db.orders| && ReleaseEarning(db, o).Ok?
    requires db.orders[o].earning.Some? ==> !db.orders[o].earning.value.released
    ensures var x, n := db.orders[o], ReleaseEarning(db, o).value;
            && n == SetOrder(db, o, x.(earning := PaidOut(x.earning))).(purse := n.purse)
            && FeePaid(db.purse, n.purse, o, x)
  {
    var x := db.orders[o];
    if x.earning.None? {
      assert x.(earning := PaidOut(x.earning)) == x && db.orders[o := x] == db.orders;
    }
  }

  lemma DeliveryPurse(db: Db, after: Book<PurseRef>, o: nat)
    requires Inv(db) && o < |db.orders| && db.orders[o].status == OutForDelivery && HasRider(db.orders[o])
    requires FeePaid(db.purse, after, o, db.orders[o])
    ensures PurseOk(db.orders[o := DeliveredRow(db.orders[o])], db.groups, after)
    ensures FundingOk(db.topups, db.transfers, after) && db.purse.entries <= after.entries
  {
    OrderIsOk(db, o);
    var x := db.orders[o];
    var row := DeliveredRow(x);
    if x.earning.None? {
      PurseReplace(db.orders, db.groups, db.purse, o, row);
    } else {
      var e := Entry(x.earning.value.rider, Release, x.earning.value.amount, FeeRelease(o));
      PostKeepsSound(db.purse, e);
      hide Linked, OrdersOk, GroupsOk, Stocked, StoresOk, FundingOk, PointsOk, InflightOk, Owned, OnePayer, CartsApart;
      hide Sound, Find, Post;
      PurseFee(db.orders, db.groups, db.purse, after, o, row, e);
      FundingUntouched(db.topups, db.transfers, db.purse, after, e);
    }
  }

  lemma ConfirmDeliveryKeeps(db: Db, rider: nat, o: nat, credential: bool)
    requires Inv(db) && ConfirmDelivery(db, rider, o, credential).Ok?
    ensures Sane(db, ConfirmDelivery(db, rider, o, credential).value)
  {
    assert credential;
    hide ConfirmDelivery, Inv, OrderOk, OrderEvolves, Sane, FeePaid, Move;
    DeliveryEffect(db, rider, o);
    OrderIsOk(db, o);
    var x := db.orders[o];
    DeliveredIsOk(x);
    var n := ConfirmDelivery(db, rider, o, true).value;
    DeliveryPurse(db, n.purse, o);
    DeliveredIsCompleted(x);
    hide Advanced, DeliveredRow, PurseOk, FundingOk;
    CompletionIsSane(db, o, DeliveredRow(x), n.purse);
  }

  lemma DeliveredIsCompleted(x: Order)
    requires x.delivery.Some?
    ensures DeliveredRow(x).status == Completed && DeliveredRow(x).bill == x.bill
  {
  }
}
