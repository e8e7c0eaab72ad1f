/**
 Three runs of the shop, computed step by step: a stale answer rewrites a refunded payment, a fee
 is held and the order then completed by staff, a Klump payment succeeds after the release.
 */
module Witness {
  import opened Outcome
  import opened Money
  import opened Ledger
  import opened OrderLife
  import opened Shop
  import opened Invariant
  import opened Runs
  import opened Guarantees
  import P = Permanence
  import S = Settlement
  import Q = Quote
  import F = Fingerprint

  // ----- one product, one customer, one order -----

  const LINE := Q.Line(1, 1, 1, 1, 1000)

  const BILL := Bill(1, 1, [LINE], 1000, 500, 0, 0, 1500)

  const ITEM := Q.CartRow(1, 1, 1, 1, 1000, None, true, 5)

  const DELIVERED := Q.Terms(true, true, 500, None, None, 0)

  function RequestBy(via: Method): Request {
    Request(1, 1, F.Null, [ITEM], DELIVERED, via, true)
  }

  const REQUEST := RequestBy(Card)

  const ANSWER := Verification(0, [0], Success)

  const NO_STORES: Book<StoreRef> := Book(map[], [])

  const NO_PURSE: Book<PurseRef> := Book(map[], [])

  function OrderRow(
    status: Status, history: seq<Row>, delivery: Delivery, earning: Option<Earning>, refund: Option<Refund>): Order
  {
    Order(Key(0, 0), BILL, status, history, Some(delivery), earning, refund)
  }

  function GroupRowBy(via: Method, status: PayStatus, active: Option<nat>, payment: Option<nat>): Group {
    Group(1, 1, active, F.Null, via, 1500, status, payment, [Allocation(0, 1500)])
  }

  function GroupRowOf(status: PayStatus, active: Option<nat>, payment: Option<nat>): Group {
    GroupRowBy(Card, status, active, payment)
  }

  /** The shop around one order. */
  function World(
    order: Order, group: Group, payments: seq<Payment>, stock: int, stores: Book<StoreRef>, purse: Book<PurseRef>,
    points: map<nat, int>, inflight: seq<Verification>): Db
  {
    Db([order], [group], payments, map[1 := Product(stock, true, 1000)], stores, purse, points, [], [], map[], [],
       S.DEFAULT_RATES, inflight)
  }

  function Paying(status: PayStatus): seq<Payment> {
    [Payment(1500, Paystack, status)]
  }

  const START := Db([], [], [], map[1 := Product(5, true, 1000)], NO_STORES, NO_PURSE, map[], [], [], map[], [],
                    S.DEFAULT_RATES, [])

  // ----- paid -----

  const RECEIVED := OrderRow(OrderReceived, OPENING, Delivery(None, Unassigned), None, None)

  const CONFIRMED := Move(RECEIVED, Confirmed)

  function PlacedBy(via: Method): Db {
    World(RECEIVED, GroupRowBy(via, Pending, Some(1), None), [], 4, NO_STORES, NO_PURSE, map[], [])
  }

  const PLACED := PlacedBy(Card)

  const PROCESSING := GroupRowOf(Processing, Some(1), Some(0))

  const CLOSED := GroupRowOf(Paid, None, Some(0))

  const CREDITED := Book(map[1 := 825], [Entry(1, Credit, 825, Settled(0))])

  const STARTED := World(RECEIVED, PROCESSING, Paying(Pending), 4, NO_STORES, NO_PURSE, map[], [])

  const READ := World(RECEIVED, PROCESSING, Paying(Pending), 4, NO_STORES, NO_PURSE, map[], [ANSWER])

  const READ_TWICE := World(RECEIVED, PROCESSING, Paying(Pending), 4, NO_STORES, NO_PURSE, map[], [ANSWER, ANSWER])

  const PAID := World(CONFIRMED, CLOSED, Paying(Paid), 4, CREDITED, NO_PURSE, map[], [ANSWER])

  lemma QuoteOfOne()
    ensures Q.QuoteCart([ITEM], DELIVERED)
         == Ok(Q.Quote(1000, 500, 0, 1500, [Q.StoreOrder(1, [LINE], 1000, 500, 0, 0, 1500)]))
  {
    assert [ITEM][1..] == [] && [LINE][1..] == [];
    assert Q.PriceRows([]) == Ok([]);
    assert [LINE] + [] == [LINE];
    assert Q.PriceRows([ITEM]) == Ok([LINE]);
    assert Q.StoreIds([]) == [] && Q.StoreIds([LINE]) == [1];
    assert Q.LinesOf([], 1) == [] && Q.LinesOf([LINE], 1) == [LINE];
    assert Q.SumLines([]) == 0 && Q.SumLines([LINE]) == 1000;
    var o := Q.StoreOrder(1, [LINE], 1000, 500, 0, 0, 1500);
    assert Q.OpenOrders([LINE], [1], 500) == [o];
    assert [o][1..] == [];
    assert Q.SumSubtotals([o]) == 1000 && Q.SumDiscounts([o]) == 0;
  }

  lemma CheckoutIsPlaced(via: Method)
    requires via !in {Wallet, Financed}
    ensures Apply(START, Checkout(RequestBy(via))) == PlacedBy(via)
  {
    QuoteOfOne();
    hide Q.QuoteCart;
    var o := Q.StoreOrder(1, [LINE], 1000, 500, 0, 0, 1500);
    assert [o][1..] == [] && [LINE][1..] == [];
    assert START.products[1 := Product(4, true, 1000)] == map[1 := Product(4, true, 1000)];
    assert ReserveLines(START.products, [LINE]) == Ok(map[1 := Product(4, true, 1000)]);
    var mid := START.(products := map[1 := Product(4, true, 1000)], orders := [RECEIVED]);
    assert NewOrder(Key(0, 0), 1, o, true) == RECEIVED;
    assert [] + [RECEIVED] == [RECEIVED];
    assert PlaceOrders(mid, 0, 1, true, [], 1) == Ok(mid);
    assert PlaceOrders(START, 0, 1, true, [o], 0) == Ok(mid);
    assert Allocate(0, [o]) == [Allocation(0, 1500)];
  }

  lemma PaymentIsStarted()
    ensures Apply(PLACED, StartPaystack(1, 0)) == STARTED
  {
    assert [] + [Payment(1500, Paystack, Pending)] == Paying(Pending);
    assert PLACED.groups[0 := PROCESSING] == [PROCESSING];
  }

  lemma AnswerIsReadTwice()
    ensures Apply(STARTED, ReadAnswer(0, 1500, Success)) == READ
    ensures Apply(READ, ReadAnswer(0, 1500, Success)) == READ_TWICE
  {
    assert [PROCESSING][..0] == [];
    assert GroupsOf([], 0) == [] && GroupsOf([PROCESSING], 0) == [0];
    assert [] + [ANSWER] == [ANSWER] && [ANSWER] + [ANSWER] == [ANSWER, ANSWER];
  }

  lemma SplitOfOne()
    ensures S.Split(1000, S.DEFAULT_RATES) == Ok(S.Shares(75, 50, 50, 825))
  {
    HalfUpUnique(75000, 1000, 75);
    HalfUpUnique(50000, 1000, 50);
  }

  lemma FirstAnswerPays()
    ensures Apply(READ_TWICE, Verify(0)) == PAID
  {
    SplitOfOne();
    hide S.Split;
    assert [ANSWER, ANSWER][..0] + [ANSWER, ANSWER][1..] == [ANSWER];
    var rest := READ_TWICE.(inflight := [ANSWER]);
    var paid := World(RECEIVED, PROCESSING, Paying(Paid), 4, NO_STORES, NO_PURSE, map[], [ANSWER]);
    assert rest.payments[0 := Payment(1500, Paystack, Paid)] == Paying(Paid);
    assert SetPayment(rest, 0, Paid) == paid;
    ConfirmOne();
    var next := World(CONFIRMED, PROCESSING, Paying(Paid), 4, CREDITED, NO_PURSE, map[], [ANSWER]);
    var all := [Allocation(0, 1500)];
    assert all[1..] == [] && ConfirmAll(next, []) == Ok(next);
    assert ConfirmAll(paid, all) == Ok(next);
    assert next.groups[0 := CLOSED] == [CLOSED];
    assert CompleteGroup(paid, 0) == Ok(PAID);
    assert [0][1..] == [] && CompleteGroups(PAID, []) == Ok(PAID);
    assert CompleteGroups(paid, [0]) == Ok(PAID);
  }

  lemma ConfirmOne()
    ensures var paid := World(RECEIVED, PROCESSING, Paying(Paid), 4, NO_STORES, NO_PURSE, map[], [ANSWER]);
            ConfirmOrder(paid, 0)
            == Ok(World(CONFIRMED, PROCESSING, Paying(Paid), 4, CREDITED, NO_PURSE, map[], [ANSWER]))
  {
    SplitOfOne();
    hide S.Split;
    var paid := World(RECEIVED, PROCESSING, Paying(Paid), 4, NO_STORES, NO_PURSE, map[], [ANSWER]);
    assert paid.orders[0 := CONFIRMED] == [CONFIRMED];
    var e := Entry(1, Credit, 825, Settled(0));
    assert [] + [e] == [e] && NO_STORES.balances[1 := 825] == map[1 := 825];
    assert Post(NO_STORES, e) == Ok(CREDITED);
  }

  // ----- a stale success rewrites a refunded payment -----

  const REVERSED := Book(map[1 := 0], [Entry(1, Credit, 825, Settled(0)), Entry(1, Debit, 825, Reversed(0))])

  function CalledOff(status: RefundStatus): Order {
    CallOff(CONFIRMED).(refund := Some(Refund(0, 1500, Paystack, status)))
  }

  function Refunding(status: RefundStatus, payment: PayStatus, inflight: seq<Verification>): Db {
    World(CalledOff(status), CLOSED, Paying(payment), 5, REVERSED, NO_PURSE, map[], inflight)
  }

  lemma CustomerCancels()
    ensures Apply(PAID, CancelPaid(1, 0)) == Refunding(Requested, Paid, [ANSWER])
  {
    assert [LINE][1..] == [];
    assert PAID.products[1 := Product(5, true, 1000)] == map[1 := Product(5, true, 1000)];
    assert ReturnLines(PAID.products, [LINE]) == Ok(map[1 := Product(5, true, 1000)]);
    var e, f := Entry(1, Credit, 825, Settled(0)), Entry(1, Debit, 825, Reversed(0));
    assert [e][..0] == [] && Find([e], Settled(0)) == Some(e) && Find([e], Reversed(0)) == None;
    assert [e] + [f] == [e, f] && CREDITED.balances[1 := 0] == map[1 := 0];
    assert ReverseSettlement(CREDITED, 0, 1) == Ok(REVERSED);
    assert PAID.orders[0 := CalledOff(Requested)] == [CalledOff(Requested)];
  }

  lemma RefundSucceeds()
    ensures Apply(Refunding(Requested, Paid, [ANSWER]), WriteRefund(0, Succeeded)) == Refunding(Succeeded, Paid, [ANSWER])
    ensures Apply(Refunding(Succeeded, Paid, [ANSWER]), SyncPayment(0)) == Refunding(Succeeded, Refunded, [ANSWER])
  {
    var a, b := Refunding(Requested, Paid, [ANSWER]), Refunding(Succeeded, Paid, [ANSWER]);
    assert a.orders[0 := CalledOff(Succeeded)] == [CalledOff(Succeeded)];
    assert b.orders[..0] == [] && RefundedSum([], 0) == 0 && RefundedSum(b.orders, 0) == 1500;
    assert b.payments[0 := Payment(1500, Paystack, Refunded)] == Paying(Refunded);
  }

  lemma SecondAnswerRewrites()
    ensures Apply(Refunding(Succeeded, Refunded, [ANSWER]), Verify(0)) == Refunding(Succeeded, Paid, [])
  {
    var a := Refunding(Succeeded, Refunded, [ANSWER]);
    assert [ANSWER][..0] + [ANSWER][1..] == [];
    var rest := Refunding(Succeeded, Refunded, []);
    assert rest.payments[0 := Payment(1500, Paystack, Paid)] == Paying(Paid);
    var paid := Refunding(Succeeded, Paid, []);
    assert SetPayment(rest, 0, Paid) == paid && CompleteGroup(paid, 0) == Ok(paid);
    assert [0][1..] == [] && CompleteGroups(paid, []) == Ok(paid) && CompleteGroups(paid, [0]) == Ok(paid);
  }

  // ----- a held fee and a completion by staff -----

  const RIDER := 9

  const READY := Move(CONFIRMED, ReadyForPickup)

  const HELD := Some(Earning(RIDER, 500, false))

  const CLAIMED := Move(READY, RiderAssigned).(delivery := Some(Delivery(Some(RIDER), Assigned)), earning := HELD)

  const COLLECTED := Move(CLAIMED, PickedUp).(delivery := Some(Delivery(Some(RIDER), Collected)))

  const COMPLETED := Move(COLLECTED, Completed)

  const HOLDING := Book(map[RIDER := 0], [Entry(RIDER, Hold, 500, FeeHold(0))])

  function Fulfilling(order: Order, purse: Book<PurseRef>, points: map<nat, int>): Db {
    World(order, CLOSED, Paying(Paid), 4, CREDITED, purse, points, [ANSWER])
  }

  lemma OrderIsPacked()
    ensures Apply(PAID, Pack(0, true)) == Fulfilling(READY, NO_PURSE, map[])
  {
    assert PAID.orders[0 := READY] == [READY];
  }

  lemma RiderClaims()
    ensures Apply(Fulfilling(READY, NO_PURSE, map[]), ClaimBy(RIDER, 0)) == Fulfilling(CLAIMED, HOLDING, map[])
  {
    var a := Fulfilling(READY, NO_PURSE, map[]);
    var claimed := Move(READY, RiderAssigned).(delivery := Some(Delivery(Some(RIDER), Assigned)));
    assert a.orders[0 := claimed] == [claimed] && [claimed][0 := CLAIMED] == [CLAIMED];
    var e := Entry(RIDER, Hold, 500, FeeHold(0));
    var open := Open(NO_PURSE, RIDER);
    assert open.balances == map[RIDER := 0] && open.balances[RIDER := 0] == map[RIDER := 0] && [] + [e] == [e];
    assert Post(open, e) == Ok(HOLDING);
  }

  lemma RiderCollects()
    ensures Apply(Fulfilling(CLAIMED, HOLDING, map[]), PickUp(RIDER, 0, true, true)) == Fulfilling(COLLECTED, HOLDING, map[])
  {
    var a := Fulfilling(CLAIMED, HOLDING, map[]);
    assert a.orders[0 := COLLECTED] == [COLLECTED];
  }

  lemma StaffCompletes()
    ensures Apply(Fulfilling(COLLECTED, HOLDING, map[]), AdminMove(0, Completed)) == Fulfilling(COMPLETED, HOLDING, map[1 := 0])
  {
    var b := Fulfilling(COLLECTED, HOLDING, map[]);
    assert b.orders[0 := COMPLETED] == [COMPLETED] && b.points[1 := 0] == map[1 := 0];
  }

  // ----- a Klump payment that succeeds too late -----

  const KLUMP_GROUP := GroupRowBy(KlumpBnpl, Processing, Some(1), Some(0))

  const KLUMP_ANSWER := Verification(0, [0], KlumpSuccess)

  function ByKlump(order: Order, group: Group, payment: PayStatus, stock: int, inflight: seq<Verification>): Db {
    World(order, group, [Payment(1500, Klump, payment)], stock, NO_STORES, NO_PURSE, map[], inflight)
  }

  const KLUMP_STARTED := ByKlump(RECEIVED, KLUMP_GROUP, Pending, 4, [])

  const KLUMP_READ := ByKlump(RECEIVED, KLUMP_GROUP, Pending, 4, [KLUMP_ANSWER])

  const KLUMP_RELEASED := ByKlump(CallOff(RECEIVED), GroupRowBy(KlumpBnpl, Failed, None, Some(0)), Failed, 5, [KLUMP_ANSWER])

  lemma KlumpIsStarted()
    ensures Apply(PlacedBy(KlumpBnpl), StartKlump(1, 0)) == KLUMP_STARTED
    ensures Apply(KLUMP_STARTED, ReadAnswer(0, 1500, KlumpSuccess)) == KLUMP_READ
  {
    var db, all := PlacedBy(KlumpBnpl), [Allocation(0, 1500)];
    assert all[1..] == [] && SumNaira(db.orders, []) == 0 && SumNaira(db.orders, all) == 15;
    assert [] + [Payment(1500, Klump, Pending)] == KLUMP_STARTED.payments;
    assert db.groups[0 := KLUMP_GROUP] == [KLUMP_GROUP];
    assert InitializeKlump(db, 1, 0) == Ok(KLUMP_STARTED);
    assert [KLUMP_GROUP][..0] == [] && GroupsOf([], 0) == [] && GroupsOf([KLUMP_GROUP], 0) == [0];
    assert [] + [KLUMP_ANSWER] == [KLUMP_ANSWER];
  }

  lemma KlumpIsReleased()
    ensures Apply(KLUMP_READ, ReleaseCheckout(1, 0)) == KLUMP_RELEASED
  {
    var failed := ByKlump(RECEIVED, KLUMP_GROUP, Failed, 4, [KLUMP_ANSWER]);
    assert KLUMP_READ.payments[0 := Payment(1500, Klump, Failed)] == failed.payments;
    assert SetPayment(KLUMP_READ, 0, Failed) == failed;
    assert [LINE][1..] == [];
    assert failed.products[1 := Product(5, true, 1000)] == map[1 := Product(5, true, 1000)];
    assert ReturnLines(failed.products, [LINE]) == Ok(map[1 := Product(5, true, 1000)]);
    var next := ByKlump(CallOff(RECEIVED), KLUMP_GROUP, Failed, 5, [KLUMP_ANSWER]);
    assert failed.orders[0 := CallOff(RECEIVED)] == next.orders;
    assert ReleaseOrder(failed, 0) == Ok(next);
    var all := [Allocation(0, 1500)];
    assert all[1..] == [] && ReleaseAll(next, []) == Ok(next) && ReleaseAll(failed, all) == Ok(next);
    assert next.groups[0 := KLUMP_RELEASED.groups[0]] == KLUMP_RELEASED.groups;
    assert FailGroup(failed, 0) == Ok(KLUMP_RELEASED);
  }

  lemma KlumpIsRefused()
    ensures Attempt(KLUMP_RELEASED, Verify(0)) == Err(Conflict)
  {
  }

  // ----- the runs -----

  /** Paid for, with a second answer still under way. */
  const TO_PAID: seq<Step> :=
    [Checkout(REQUEST), StartPaystack(1, 0), ReadAnswer(0, 1500, Success), ReadAnswer(0, 1500, Success), Verify(0)]

  const TO_REFUNDED: seq<Step> := [CancelPaid(1, 0), WriteRefund(0, Succeeded), SyncPayment(0)]

  const TO_COLLECTED: seq<Step> := [Pack(0, true), ClaimBy(RIDER, 0), PickUp(RIDER, 0, true, true)]

  lemma RunFirst(db: Db, step: Step, rest: seq<Step>)
    ensures Run(db, [step] + rest) == Run(Apply(db, step), rest)
  {
    hide Apply;
    P.RunOne(db, step);
    RunSplits(db, [step], rest);
  }

  lemma NoSteps(db: Db)
    ensures Run(db, []) == db
  {
  }

  lemma StartReaches(steps: seq<Step>)
    ensures Reachable(Run(START, steps))
  {
    assert Blank(START);
    hide Run;
  }

  lemma ReachesPaid()
    ensures Run(START, TO_PAID) == PAID && Reachable(PAID)
  {
    CheckoutIsPlaced(Card);
    hide Apply, Reachable, Run, World;
    var a, b, c, d := Checkout(REQUEST), StartPaystack(1, 0), ReadAnswer(0, 1500, Success), Verify(0);
    assert TO_PAID == [a] + ([b] + ([c] + ([c] + ([d] + []))));
    RunFirst(START, a, [b] + ([c] + ([c] + ([d] + []))));
    PlacedIsPaid();
    StartReaches(TO_PAID);
  }

  lemma PlacedIsPaid()
    ensures var b, c, d := StartPaystack(1, 0), ReadAnswer(0, 1500, Success), Verify(0);
            Run(PLACED, [b] + ([c] + ([c] + ([d] + [])))) == PAID
  {
    PaymentIsStarted();
    AnswerIsReadTwice();
    FirstAnswerPays();
    hide Apply, Run, World;
    var b, c, d := StartPaystack(1, 0), ReadAnswer(0, 1500, Success), Verify(0);
    RunFirst(PLACED, b, [c] + ([c] + ([d] + [])));
    RunFirst(STARTED, c, [c] + ([d] + []));
    RunFirst(READ, c, [d] + []);
    RunFirst(READ_TWICE, d, []);
    NoSteps(PAID);
  }

  lemma ReachableRun(db: Db, steps: seq<Step>)
    requires Reachable(db)
    ensures Reachable(Run(db, steps))
  {
    var start, first :| Blank(start) && db == Run(start, first);
    RunSplits(start, first, steps);
    hide Run, Blank;
  }

  /** A success read before the cancellation and used after the refund turns REFUNDED back into PAID. */
  lemma StaleSuccessRewrites()
    ensures var refunded := Run(START, TO_PAID + TO_REFUNDED);
            var rewritten := Apply(refunded, Verify(0));
            && Reachable(refunded)
            && refunded.payments == Paying(Refunded) && rewritten.payments == Paying(Paid)
            && rewritten == refunded.(payments := Paying(Paid), inflight := [])
  {
    ReachesPaid();
    CustomerCancels();
    RefundSucceeds();
    SecondAnswerRewrites();
    hide Apply, Reachable;
    RunSplits(START, TO_PAID, TO_REFUNDED);
    ReachableRun(PAID, TO_REFUNDED);
    var a, b, c := CancelPaid(1, 0), WriteRefund(0, Succeeded), SyncPayment(0);
    assert TO_REFUNDED == [a] + ([b] + ([c] + []));
    RunFirst(PAID, a, [b] + ([c] + []));
    RunFirst(Refunding(Requested, Paid, [ANSWER]), b, [c] + []);
    RunFirst(Refunding(Succeeded, Paid, [ANSWER]), c, []);
    assert Run(Refunding(Succeeded, Refunded, [ANSWER]), []) == Refunding(Succeeded, Refunded, [ANSWER]);
  }

  /** A rider who claimed and collected an order holds 500 kobo of it; staff completes it, and that is that. */
  lemma FeeIsStranded(steps: seq<Step>)
    ensures var collected := Run(START, TO_PAID + TO_COLLECTED);
            var completed := Apply(collected, AdminMove(0, Completed));
            && Reachable(collected) && completed.orders == [COMPLETED]
            && Find(completed.purse.entries, FeeHold(0)) == Some(Entry(RIDER, Hold, 500, FeeHold(0)))
            && Moved(Run(completed, steps).purse.entries, FeeRelease(0)) == 0
  {
    ReachesPaid();
    OrderIsPacked();
    RiderClaims();
    RiderCollects();
    StaffCompletes();
    var collected := Fulfilling(COLLECTED, HOLDING, map[]);
    assert AdminSetStatus(collected, 0, Completed).Ok?;
    hide Apply, Reachable, AdminSetStatus;
    RunSplits(START, TO_PAID, TO_COLLECTED);
    ReachableRun(PAID, TO_COLLECTED);
    var a, b, c := Pack(0, true), ClaimBy(RIDER, 0), PickUp(RIDER, 0, true, true);
    assert TO_COLLECTED == [a] + ([b] + ([c] + []));
    RunFirst(PAID, a, [b] + ([c] + []));
    RunFirst(Fulfilling(READY, NO_PURSE, map[]), b, [c] + []);
    RunFirst(Fulfilling(CLAIMED, HOLDING, map[]), c, []);
    assert Run(collected, []) == collected;
    hide Run, Moved;
    P.StaffCompletionStrandsFee(collected, 0, steps);
  }

  const TO_RELEASED: seq<Step> :=
    [Checkout(RequestBy(KlumpBnpl)), StartKlump(1, 0), ReadAnswer(0, 1500, KlumpSuccess), ReleaseCheckout(1, 0)]

  /** A Klump success that was read before the customer gave up finds the checkout released and is refused. */
  lemma LateKlumpRun()
    ensures var released := Run(START, TO_RELEASED);
            && Reachable(released) && released.inflight == [KLUMP_ANSWER]
            && released.groups == [GroupRowBy(KlumpBnpl, Failed, None, Some(0))] && released.orders == [CallOff(RECEIVED)]
            && Attempt(released, Verify(0)) == Err(Conflict)
  {
    hide Apply, Attempt, Reachable, Run;
    CheckoutIsPlaced(KlumpBnpl);
    KlumpIsStarted();
    KlumpIsReleased();
    KlumpIsRefused();
    var a, b, c, d := Checkout(RequestBy(KlumpBnpl)), StartKlump(1, 0), ReadAnswer(0, 1500, KlumpSuccess), ReleaseCheckout(1, 0);
    assert TO_RELEASED == [a] + ([b] + ([c] + ([d] + [])));
    RunFirst(START, a, [b] + ([c] + ([d] + [])));
    RunFirst(PlacedBy(KlumpBnpl), b, [c] + ([d] + []));
    RunFirst(KLUMP_STARTED, c, [d] + []);
    RunFirst(KLUMP_READ, d, []);
    NoSteps(KLUMP_RELEASED);
    StartReaches(TO_RELEASED);
  }
}
