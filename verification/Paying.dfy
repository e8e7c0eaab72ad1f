/** The racing events that resolve a payment group: verification, re-verification and cancellation. */
module Paying {
  import opened Outcome
  import opened OrderLife
  import opened Shop
  import opened Invariant
  import opened Resolution
  import opened Placement

  // ----- the payment row of a group -----

  /** Writing the payment of group `g` disturbs no other group. */
  lemma SetPaymentKeeps(db: Db, g: nat, status: PayStatus)
    requires Inv(db) && g < |db.groups| && db.groups[g].payment.Some?
    ensures db.groups[g].payment.value < |db.payments|
    ensures InvBut(SetPayment(db, db.groups[g].payment.value, status), g)
  {
    InvToBut(db, g);
    assert GroupOk(g, db.groups[g], db.orders, db.payments);
    var p := db.groups[g].payment.value;
    var n := SetPayment(db, p, status);
    SetPaymentOthers(db, g, status);
    assert InflightOk(n.inflight, n.groups, n.payments) by {
      forall i | 0 <= i < |n.inflight| ensures VerificationOk(n.inflight[i], n.groups, n.payments) {
        assert VerificationOk(db.inflight[i], db.groups, db.payments);
      }
    }
  }

  lemma SetPaymentOthers(db: Db, g: nat, status: PayStatus)
    requires GroupsOk(db.orders, db.groups, db.payments) && OnePayer(db.groups) && Owned(db.groups, db.payments)
    requires g < |db.groups| && db.groups[g].payment.Some? && db.groups[g].payment.value < |db.payments|
    ensures var n := SetPayment(db, db.groups[g].payment.value, status);
            OthersOk(n.orders, n.groups, n.payments, g) && Owned(n.groups, n.payments)
  {
    var n := SetPayment(db, db.groups[g].payment.value, status);
    forall h | 0 <= h < |n.groups| && h != g ensures GroupOk(h, n.groups[h], n.orders, n.payments) {
      GroupFrame(h, db.groups[h], db.orders, db.orders, db.payments, n.payments);
    }
    forall p | 0 <= p < |n.payments| ensures HasPayer(n.groups, p) {
      assert HasPayer(db.groups, p);
    }
  }

  /** The group points at its payment and no other group does. */
  lemma {:induction false} GroupsOfPrefix(groups: seq<Group>, p: nat, g: nat, k: nat)
    requires OnePayer(groups) && g < |groups| && groups[g].payment == Some(p) && k <= |groups|
    ensures GroupsOf(groups[..k], p) == if g < k then [g] else []
  {
    if k > 0 {
      GroupsOfPrefix(groups, p, g, k - 1);
      assert groups[..k][..k - 1] == groups[..k - 1];
      assert groups[k - 1].payment == Some(p) <==> g == k - 1;
    }
  }

  lemma GroupsOfOne(groups: seq<Group>, p: nat, g: nat)
    requires OnePayer(groups) && g < |groups| && groups[g].payment == Some(p)
    ensures GroupsOf(groups, p) == [g]
  {
    GroupsOfPrefix(groups, p, g, |groups|);
    assert groups[..|groups|] == groups;
  }

  /** Statuses a payment of a resolved group may take without disturbing the group. */
  lemma ResolvedTolerates(db: Db, g: nat, status: PayStatus)
    requires Inv(db) && g < |db.groups| && db.groups[g].payment.Some?
    requires || (db.groups[g].status == Paid && status in {Paid, Refunded, PartiallyRefunded})
             || (db.groups[g].status == Failed && status == Failed)
             || (&& db.groups[g].status == Failed && db.payments[db.groups[g].payment.value].status != Failed)
    ensures db.groups[g].payment.value < |db.payments|
    ensures Inv(SetPayment(db, db.groups[g].payment.value, status))
  {
    assert GroupOk(g, db.groups[g], db.orders, db.payments);
    SetPaymentKeeps(db, g, status);
    var n := SetPayment(db, db.groups[g].payment.value, status);
    assert GroupOk(g, n.groups[g], n.orders, n.payments);
    InvFromBut(n, g);
  }

  // ----- refunds for a payment that came too late -----

  function WithRefund(row: Order, p: nat, amount: nat): Order {
    if row.refund.Some? then row else row.(refund := Some(Refund(p, amount, Paystack, Requested)))
  }

  lemma IssueIsSet(db: Db, p: nat, a: Allocation)
    requires a.order < |db.orders|
    ensures IssueRefund(db, p, a) == Ok(SetOrder(db, a.order, WithRefund(db.orders[a.order], p, a.amount)))
  {
    assert db.orders[a.order := db.orders[a.order]] == db.orders;
  }

  lemma RefundedIsOk(x: Order, p: nat)
    requires OrderOk(x) && x.status == Cancelled
    ensures OrderOk(WithRefund(x, p, x.bill.total))
  {
  }

  /** A cancelled order of the group under repair may be given its refund. */
  lemma RefundRowBut(db: Db, g: nat, o: nat, row: Order)
    requires InvBut(db, g) && o < |db.orders| && db.orders[o].key.group == g && db.orders[o].status == Cancelled
    requires row == db.orders[o].(refund := row.refund) && OrderOk(row)
    ensures InvBut(SetOrder(db, o, row), g)
  {
    var orders := db.orders[o := row];
    hide OrderOk, Linked, OrdersOk, OthersOk, MembersOk, Stocked, StoresOk, PurseOk, PointsOk;
    hide FundingOk, InflightOk, Owned, OnePayer, CartsApart;
    OrdersReplace(db.orders, o, row);
    LinkedReplace(db.orders, db.groups, o, row);
    MembersReplace(g, db.groups[g], db.orders, o, row);
    OthersFrame(db.orders, orders, db.groups, db.payments, g);
    StockedReplace(db.orders, db.products, o, row);
    StoresReplace(db.orders, db.stores, o, row);
    PurseReplace(db.orders, db.groups, db.purse, o, row);
    PointsReplace(db.orders, db.points, db.claims, o, row);
  }

  lemma IssueRefundKeeps(db: Db, g: nat, p: nat, a: Allocation)
    requires InvBut(db, g) && a.order < |db.orders| && db.orders[a.order].key.group == g
    requires db.orders[a.order].status == Cancelled && a.amount == db.orders[a.order].bill.total
    ensures IssueRefund(db, p, a) == Ok(SetOrder(db, a.order, WithRefund(db.orders[a.order], p, a.amount)))
    ensures var n := IssueRefund(db, p, a).value;
            InvBut(n, g) && forall q :: Units(n, q) == Units(db, q)
  {
    var o := a.order;
    var row := WithRefund(db.orders[o], p, a.amount);
    assert OrderOk(db.orders[o]);
    RefundedIsOk(db.orders[o], p);
    IssueIsSet(db, p, a);
    hide OrderOk, InvBut, IssueRefund, OrdersOk, Units;
    RefundRowBut(db, g, o, row);
    UnitsReplace(db, SetOrder(db, o, row), o, row);
  }

  lemma {:induction false} IssueRefundsKeep(db: Db, g: nat, p: nat, k: nat)
    requires InvBut(db, g) && k <= |db.groups[g].allocations|
    requires forall j :: k <= j < |db.groups[g].allocations| ==>
      db.orders[db.groups[g].allocations[j].order].status == Cancelled
    ensures IssueRefunds(db, p, db.groups[g].allocations[k..]).Ok?
    ensures var n := IssueRefunds(db, p, db.groups[g].allocations[k..]).value;
            && InvBut(n, g) && n == db.(orders := n.orders) && |n.orders| == |db.orders|
            && (forall q :: Units(n, q) == Units(db, q))
            && (forall o :: 0 <= o < |db.orders| ==>
              n.orders[o] == if From(db.orders[o], g, k) then WithRefund(db.orders[o], p, db.orders[o].bill.total)
                             else db.orders[o])
    decreases |db.groups[g].allocations| - k
  {
    hide Linked, OrdersOk, OthersOk, OnePayer, Owned, CartsApart, Stocked, StoresOk, PurseOk, FundingOk, PointsOk;
    hide InflightOk, Units;
    var all := db.groups[g].allocations;
    if k < |all| {
      assert all[k..][0] == all[k] && all[k..][1..] == all[k + 1..];
      var o := all[k].order;
      assert db.orders[o].key == Key(g, k) && db.orders[o].bill.total == all[k].amount;
      IssueRefundKeeps(db, g, p, all[k]);
      SlotsApart(db, g, k);
      IssueRefundsKeep(SetOrder(db, o, WithRefund(db.orders[o], p, all[k].amount)), g, p, k + 1);
      OnlyOneInSlot(db, g, k);
    } else {
      NoneBeyond(db, g);
    }
  }

  lemma OneRefunded(db: Db, p: nat, g: nat, n: Db)
    requires g < |db.groups| && IssueRefunds(db, p, db.groups[g].allocations) == Ok(n)
    ensures RefundGroups(db, p, [g]) == Ok(n)
  {
    hide IssueRefunds;
    assert [g][1..] == [];
  }

  lemma FailedFacts(db: Db, g: nat)
    requires Inv(db) && g < |db.groups| && db.groups[g].status == Failed
    ensures GroupOk(g, db.groups[g], db.orders, db.payments)
    ensures forall a :: a in db.groups[g].allocations ==> a.order < |db.orders|
    ensures AllAre(db.groups[g], db.orders, Cancelled)
  {
  }

  /** A payment that succeeds after its checkout was released is refunded order by order, in full. */
  lemma LateRefundsRestore(db: Db, g: nat)
    requires Inv(db) && g < |db.groups| && db.groups[g].payment.Some? && db.groups[g].status == Failed
    requires db.groups[g].payment.value < |db.payments| && db.payments[db.groups[g].payment.value].provider == Paystack
    ensures var p := db.groups[g].payment.value;
            var r := RefundGroups(SetPayment(db, p, Paid), p, [g]);
            && r.Ok? && Inv(r.value) && r.value == SetPayment(db, p, Paid).(orders := r.value.orders)
            && |r.value.orders| == |db.orders|
            && (forall q :: Units(r.value, q) == Units(db, q))
            && (forall o :: 0 <= o < |db.orders| ==>
              r.value.orders[o] == if db.orders[o].key.group == g
                                   then WithRefund(db.orders[o], p, db.orders[o].bill.total) else db.orders[o])
  {
    FailedFacts(db, g);
    SetPaymentKeeps(db, g, Paid);
    hide Inv, InvBut, GroupOk, Units;
    var p := db.groups[g].payment.value;
    var paid := SetPayment(db, p, Paid);
    var all := db.groups[g].allocations;
    assert all[0..] == all;
    IssueRefundsKeep(paid, g, p, 0);
    var n := IssueRefunds(paid, p, all).value;
    hide IssueRefunds, RefundGroups;
    LateIsOk(db, n, g, p);
    InvFromBut(n, g);
    UnitsFrame(db, paid);
    OneRefunded(paid, p, g, n);
  }

  lemma LateIsOk(db: Db, n: Db, g: nat, p: nat)
    requires g < |db.groups| && GroupOk(g, db.groups[g], db.orders, db.payments) && db.groups[g].status == Failed
    requires db.groups[g].payment == Some(p) && db.payments[p].provider == Paystack
    requires n.groups == db.groups && n.payments == SetPayment(db, p, Paid).payments && |n.orders| == |db.orders|
    requires forall o :: 0 <= o < |db.orders| ==>
      n.orders[o] == if db.orders[o].key.group == g
                     then WithRefund(db.orders[o], p, db.orders[o].bill.total) else db.orders[o]
    ensures GroupOk(g, n.groups[g], n.orders, n.payments)
  {
    var row := db.groups[g];
    forall k | 0 <= k < |row.allocations|
      ensures
        var x, y := db.orders[row.allocations[k].order], n.orders[row.allocations[k].order];
        && y == WithRefund(x, p, x.bill.total) && y.refund.Some? && y.refund.value.payment == p
    {
      assert db.orders[row.allocations[k].order].key.group == g;
    }
  }

  // ----- what a step may rely on afterwards -----

  /** The invariant holds, rows evolved lawfully, and no unit of stock appeared or vanished. */
  ghost predicate Sane(db: Db, n: Db) {
    Inv(n) && Evolves(db, n) && forall p :: Units(n, p) == Units(db, p)
  }

  lemma PointwiseEvolves(db: Db, n: Db)
    requires |n.orders| == |db.orders| && |n.groups| == |db.groups| && |n.payments| == |db.payments|
    requires forall o :: 0 <= o < |db.orders| ==> n.orders[o] == db.orders[o] || OrderEvolves(db.orders[o], n.orders[o])
    requires forall h :: 0 <= h < |db.groups| ==> n.groups[h] == db.groups[h] || GroupEvolves(db.groups[h], n.groups[h])
    requires forall p :: 0 <= p < |db.payments| ==> n.payments[p] == db.payments[p].(status := n.payments[p].status)
    requires db.stores.entries <= n.stores.entries && db.purse.entries <= n.purse.entries
    ensures Evolves(db, n)
  {
  }

  lemma OneOrderEvolves(db: Db, n: Db, o: nat, row: Order)
    requires o < |db.orders| && n.orders == db.orders[o := row] && OrderEvolves(db.orders[o], row)
    requires n.groups == db.groups && n.payments == db.payments
    requires db.stores.entries <= n.stores.entries && db.purse.entries <= n.purse.entries
    ensures Evolves(db, n)
  {
    PointwiseEvolves(db, n);
  }

  lemma MovedEvolves(x: Order, to: Status)
    requires x.status == OrderReceived
    ensures OrderEvolves(x, Move(x, to)) && OrderEvolves(x, CallOff(x))
  {
  }

  lemma RefundedEvolves(x: Order, p: nat)
    ensures OrderEvolves(x, WithRefund(x, p, x.bill.total))
  {
  }

  // ----- completing and failing through a payment -----

  /** The orders of a group of unpaid orders moved on, everything else stood still. */
  lemma GroupMovedEvolves(db: Db, n: Db, g: nat, to: Status)
    requires Linked(db.orders, db.groups) && g < |db.groups| && MembersOk(g, db.groups[g], db.orders)
    requires AllAre(db.groups[g], db.orders, OrderReceived) && !Resolved(db.groups[g])
    requires |n.orders| == |db.orders| && |n.payments| == |db.payments|
    requires forall o :: 0 <= o < |db.orders| ==>
      n.orders[o] == if db.orders[o].key.group != g then db.orders[o]
                     else if to == Cancelled then CallOff(db.orders[o]) else Move(db.orders[o], to)
    requires |n.groups| == |db.groups|
    requires n.groups == db.groups[g := db.groups[g].(status := n.groups[g].status, activeCart := None)]
    requires forall p :: 0 <= p < |db.payments| ==> n.payments[p] == db.payments[p].(status := n.payments[p].status)
    requires db.stores.entries <= n.stores.entries && db.purse.entries <= n.purse.entries
    ensures Evolves(db, n)
  {
    forall o | 0 <= o < |db.orders| ensures n.orders[o] == db.orders[o] || OrderEvolves(db.orders[o], n.orders[o]) {
      if db.orders[o].key.group == g {
        MemberIs(db, g, o, OrderReceived);
        MovedEvolves(db.orders[o], to);
      }
    }
    PointwiseEvolves(db, n);
  }

  /** In a group whose members all have one status, every order of the group has it. */
  lemma MemberIs(db: Db, g: nat, o: nat, s: Status)
    requires Linked(db.orders, db.groups) && g < |db.groups| && MembersOk(g, db.groups[g], db.orders)
    requires AllAre(db.groups[g], db.orders, s) && o < |db.orders| && db.orders[o].key.group == g
    ensures db.orders[o].status == s
  {
    var k := db.orders[o].key.slot;
    assert db.groups[g].allocations[k].order == o;
  }

  lemma ProcessingPays(db: Db, g: nat)
    requires Inv(db) && g < |db.groups| && db.groups[g].status == Processing
    requires db.groups[g].payment.Some? && db.groups[g].payment.value < |db.payments|
    ensures ReadyToComplete(SetPayment(db, db.groups[g].payment.value, Paid), g)
    ensures ReadyToRelease(SetPayment(db, db.groups[g].payment.value, Failed), g)
  {
    assert GroupOk(g, db.groups[g], db.orders, db.payments);
    SetPaymentKeeps(db, g, Paid);
    SetPaymentKeeps(db, g, Failed);
  }

  lemma PayThenComplete(db: Db, g: nat)
    requires Inv(db) && g < |db.groups| && db.groups[g].status == Processing
    requires db.groups[g].payment.Some? && db.groups[g].payment.value < |db.payments|
    requires CompleteGroup(SetPayment(db, db.groups[g].payment.value, Paid), g).Ok?
    ensures Sane(db, CompleteGroup(SetPayment(db, db.groups[g].payment.value, Paid), g).value)
  {
    hide CompleteGroup, OrdersOk, OthersOk, OnePayer, Owned, CartsApart, Stocked, StoresOk, PurseOk, FundingOk;
    hide PointsOk, InflightOk, GroupsOk, StatusOk, RefundsDrawn, Evolves;
    ProcessingPays(db, g);
    var paid := SetPayment(db, db.groups[g].payment.value, Paid);
    CompleteGroupRestores(paid, g);
    var n := CompleteGroup(paid, g).value;
    GroupMovedEvolves(db, n, g, Confirmed);
    UnitsFrame(db, paid);
  }

  lemma ReleaseIsSane(db: Db, failed: Db, g: nat)
    requires ReadyToRelease(failed, g)
    requires failed == db.(payments := failed.payments) && |failed.payments| == |db.payments|
    requires forall p :: 0 <= p < |db.payments| ==>
      failed.payments[p] == db.payments[p].(status := failed.payments[p].status)
    ensures FailGroup(failed, g).Ok? && Sane(db, FailGroup(failed, g).value)
  {
    hide FailGroup, OrdersOk, OthersOk, OnePayer, Owned, CartsApart, Stocked, StoresOk, PurseOk, FundingOk;
    hide PointsOk, InflightOk, GroupsOk, StatusOk, RefundsDrawn, Evolves;
    FailGroupRestores(failed, g);
    var n := FailGroup(failed, g).value;
    GroupMovedEvolves(db, n, g, Cancelled);
    UnitsFrame(db, failed);
  }

  lemma FailThenRelease(db: Db, g: nat)
    requires Inv(db) && g < |db.groups| && db.groups[g].status == Processing
    requires db.groups[g].payment.Some? && db.groups[g].payment.value < |db.payments|
    ensures var failed := SetPayment(db, db.groups[g].payment.value, Failed);
            FailGroup(failed, g).Ok? && Sane(db, FailGroup(failed, g).value)
  {
    ProcessingPays(db, g);
    hide Inv, InvBut;
    ReleaseIsSane(db, SetPayment(db, db.groups[g].payment.value, Failed), g);
  }

  lemma OnlyPaymentWritten(db: Db, p: nat, status: PayStatus)
    requires p < |db.payments| && Inv(SetPayment(db, p, status))
    ensures Sane(db, SetPayment(db, p, status))
  {
    var n := SetPayment(db, p, status);
    PointwiseEvolves(db, n);
    UnitsFrame(db, n);
  }

  lemma LateIsSane(db: Db, g: nat)
    requires Inv(db) && g < |db.groups| && db.groups[g].payment.Some? && db.groups[g].status == Failed
    requires db.groups[g].payment.value < |db.payments| && db.payments[db.groups[g].payment.value].provider == Paystack
    ensures var p := db.groups[g].payment.value;
            var r := RefundGroups(SetPayment(db, p, Paid), p, [g]);
            r.Ok? && Sane(db, r.value)
  {
    LateRefundsRestore(db, g);
    var p := db.groups[g].payment.value;
    var n := RefundGroups(SetPayment(db, p, Paid), p, [g]).value;
    forall o | 0 <= o < |db.orders| ensures n.orders[o] == db.orders[o] || OrderEvolves(db.orders[o], n.orders[o]) {
      RefundedEvolves(db.orders[o], p);
    }
    hide Inv, OrderEvolves, RefundGroups, Units;
    PointwiseEvolves(db, n);
  }

  // ----- the verification transactions -----

  /** How the status of a payment and that of its group go together. */
  lemma PayerFacts(db: Db, g: nat, p: nat)
    requires Inv(db) && g < |db.groups| && db.groups[g].payment == Some(p)
    ensures p < |db.payments| && GroupsOf(db.groups, p) == [g]
    ensures var s, pay := db.groups[g].status, db.payments[p];
            && s in {Processing, Paid, Failed}
            && (s == Processing ==> pay.status == Pending)
            && (s == Paid ==> pay.status in {Paid, Refunded, PartiallyRefunded} && db.groups[g].activeCart.None?)
            && (s == Failed && pay.status != Failed ==> pay.provider == Paystack)
  {
    assert GroupOk(g, db.groups[g], db.orders, db.payments);
    GroupsOfOne(db.groups, p, g);
  }

  lemma OneGroup(db: Db, g: nat)
    ensures CompleteGroups(db, [g]) == CompleteGroup(db, g) && FailGroups(db, [g]) == FailGroup(db, g)
  {
    hide CompleteGroup, FailGroup;
    assert [g][1..] == [];
  }

  /** A resolved group stops a late answer: nothing happens to it, or the transaction is refused. */
  lemma ResolvedStops(db: Db, g: nat)
    requires g < |db.groups| && Resolved(db.groups[g]) && (db.groups[g].status == Paid ==> db.groups[g].activeCart.None?)
    ensures CompleteGroup(db, g) == if db.groups[g].status == Paid then Ok(db) else Err(Conflict)
    ensures FailGroup(db, g) == if db.groups[g].status == Failed then Ok(db) else Err(Conflict)
  {
  }

  /** Whatever the provider answered, however late, and whatever happened in between. */
  lemma VerifyPaystackKeeps(db: Db, v: Verification)
    requires Inv(db) && VerificationOk(v, db.groups, db.payments) && v.answer != KlumpSuccess
    requires VerifyPaystack(db, v).Ok?
    ensures Sane(db, VerifyPaystack(db, v).value)
  {
    var g, p := v.groups[0], v.payment;
    PayerFacts(db, g, p);
    assert v.groups == [g];
    OneGroup(SetPayment(db, p, Paid), g);
    OneGroup(SetPayment(db, p, Failed), g);
    hide Inv, Evolves, Units, CompleteGroup, CompleteGroups, FailGroup, FailGroups, RefundGroups, GroupsOf;
    var current := db.payments[p].status;
    if current == Paid || (current == Failed && v.answer == Failure) {
      NothingHappens(db);
    } else if current == Failed {
      LateIsSane(db, g);
    } else if db.groups[g].status == Processing {
      if v.answer == Success {
        PayThenComplete(db, g);
      } else {
        FailThenRelease(db, g);
      }
    } else {
      var status := if v.answer == Success then Paid else Failed;
      ResolvedStops(SetPayment(db, p, status), g);
      ResolvedTolerates(db, g, status);
      OnlyPaymentWritten(db, p, status);
    }
  }

  lemma NothingHappens(db: Db)
    requires Inv(db)
    ensures Sane(db, db)
  {
    PointwiseEvolves(db, db);
  }

  lemma VerifyKlumpKeeps(db: Db, v: Verification)
    requires Inv(db) && VerificationOk(v, db.groups, db.payments) && v.answer == KlumpSuccess
    requires VerifyKlump(db, v).Ok?
    ensures Sane(db, VerifyKlump(db, v).value)
  {
    var g, p := v.groups[0], v.payment;
    PayerFacts(db, g, p);
    assert v.groups == [g];
    OneGroup(SetPayment(db, p, Paid), g);
    hide Inv, Evolves, Units, CompleteGroup, CompleteGroups;
    if db.payments[p].status == Paid {
      NothingHappens(db);
    } else if db.groups[g].status == Processing {
      PayThenComplete(db, g);
    } else {
      ResolvedStops(SetPayment(db, p, Paid), g);
      ResolvedTolerates(db, g, Paid);
      OnlyPaymentWritten(db, p, Paid);
    }
  }

  // ----- the steps -----

  /** Every payment has exactly one group. */
  lemma PayerOf(db: Db, p: nat) returns (g: nat)
    requires Inv(db) && p < |db.payments|
    ensures g < |db.groups| && db.groups[g].payment == Some(p) && GroupsOf(db.groups, p) == [g]
  {
    assert HasPayer(db.groups, p);
    g :| 0 <= g < |db.groups| && PaidBy(db.groups[g], p);
    GroupsOfOne(db.groups, p, g);
  }

  lemma AddInflight(db: Db, v: Verification)
    requires Inv(db) && VerificationOk(v, db.groups, db.payments)
    ensures Sane(db, db.(inflight := db.inflight + [v]))
  {
    var n := db.(inflight := db.inflight + [v]);
    PointwiseEvolves(db, n);
    UnitsFrame(db, n);
  }

  lemma BeginVerifyKeeps(db: Db, p: nat, reported: int, answer: Answer)
    requires Inv(db) && BeginVerify(db, p, reported, answer).Ok?
    ensures Sane(db, BeginVerify(db, p, reported, answer).value)
  {
    hide Inv, GroupsOf, Sane;
    var g := PayerOf(db, p);
    NothingHappens(db);
    var v := Verification(p, [g], answer);
    if VerificationOk(v, db.groups, db.payments) {
      AddInflight(db, v);
    }
  }

  lemma DropInflight(db: Db, i: nat)
    requires Inv(db) && i < |db.inflight|
    ensures Inv(db.(inflight := db.inflight[..i] + db.inflight[i + 1..]))
    ensures VerificationOk(db.inflight[i], db.groups, db.payments)
  {
  }

  /** Every interleaving: the transaction of any pending verification may run now. */
  lemma FinishVerifyKeeps(db: Db, i: nat)
    requires Inv(db) && FinishVerify(db, i).Ok?
    ensures Sane(db, FinishVerify(db, i).value)
  {
    DropInflight(db, i);
    var v := db.inflight[i];
    var rest := db.(inflight := db.inflight[..i] + db.inflight[i + 1..]);
    hide Inv, VerifyPaystack, VerifyKlump, VerificationOk;
    if v.answer == KlumpSuccess {
      VerifyKlumpKeeps(rest, v);
    } else {
      VerifyPaystackKeeps(rest, v);
    }
    SameRows(db, rest, FinishVerify(db, i).value);
  }

  lemma SameRows(db: Db, rest: Db, n: Db)
    requires rest == db.(inflight := rest.inflight) && Sane(rest, n)
    ensures Sane(db, n)
  {
    UnitsFrame(db, rest);
  }

  /** Re-verifying a payment that is PAID never changes anything: its group was resolved with it. */
  lemma RecheckChangesNothing(db: Db, p: nat)
    requires Inv(db) && RecheckPaid(db, p).Ok?
    ensures RecheckPaid(db, p).value == db
  {
    hide Inv;
    var g := PayerOf(db, p);
    PayerFacts(db, g, p);
    OneGroup(db, g);
    ResolvedStops(db, g);
  }

  lemma CancelCheckoutKeeps(db: Db, user: nat, g: nat)
    requires Inv(db) && CancelCheckout(db, user, g).Ok?
    ensures Sane(db, CancelCheckout(db, user, g).value)
  {
    if db.groups[g].payment.Some? {
      PayerFacts(db, g, db.groups[g].payment.value);
      hide Inv, FailGroup, Sane;
      if db.groups[g].status == Failed {
        NothingHappens(db);
      } else {
        FailThenRelease(db, g);
      }
    } else {
      if db.groups[g].status == Failed {
        NothingHappens(db);
      } else {
        PendingReleases(db, g);
        hide Inv, FailGroup, Sane, ReadyToRelease;
        ReleaseIsSane(db, db, g);
      }
    }
  }

  lemma PendingReleases(db: Db, g: nat)
    requires Inv(db) && g < |db.groups| && db.groups[g].payment.None? && db.groups[g].status != Failed
    ensures ReadyToRelease(db, g)
  {
    assert GroupOk(g, db.groups[g], db.orders, db.payments);
    InvToBut(db, g);
  }

  lemma InitializePaystackKeeps(db: Db, user: nat, g: nat)
    requires Inv(db) && InitializePaystack(db, user, g).Ok?
    ensures Sane(db, InitializePaystack(db, user, g).value)
  {
    hide Inv, Sane, AttachPayment;
    if db.groups[g].payment.Some? {
      NothingHappens(db);
    } else {
      AttachIsSane(db, g, Paystack);
    }
  }

  lemma InitializeKlumpKeeps(db: Db, user: nat, g: nat)
    requires Inv(db) && InitializeKlump(db, user, g).Ok?
    ensures Sane(db, InitializeKlump(db, user, g).value)
  {
    hide Inv, SumNaira, Sane, AttachPayment, WholeNaira;
    if db.groups[g].payment.Some? {
      NothingHappens(db);
    } else {
      AttachIsSane(db, g, Klump);
    }
  }

  lemma AttachIsSane(db: Db, g: nat, provider: Provider)
    requires Inv(db) && g < |db.groups| && db.groups[g].status != Failed && db.groups[g].payment.None?
    requires FitsMethod(db.groups[g].via, provider)
    ensures Sane(db, AttachPayment(db, g, provider))
  {
    AttachPaymentKeeps(db, g, provider);
    hide Inv, Evolves;
    var n := AttachPayment(db, g, provider);
    UnitsFrame(db, n);
  }
}
