/** Top-ups, bank transfers, withdrawals, rewards: the steps that touch wallets and points only. */
module WalletSteps {
  import opened Ledger
  import opened Shop
  import opened Invariant
  import opened Paying

  // ----- assembling a step -----

  function WithFunds(
    db: Db, topups: seq<Funding>, transfers: map<nat, Funding>, receipts: seq<Receipt>, purse: Book<PurseRef>): Db
  {
    db.(topups := topups, transfers := transfers, receipts := receipts, purse := purse)
  }

  lemma FundsAreSane(
    db: Db, topups: seq<Funding>, transfers: map<nat, Funding>, receipts: seq<Receipt>, purse: Book<PurseRef>)
    requires Inv(db) && PurseOk(db.orders, db.groups, purse) && FundingOk(topups, transfers, purse)
    requires db.purse.entries <= purse.entries
    ensures Sane(db, WithFunds(db, topups, transfers, receipts, purse))
  {
    hide Linked, OrdersOk, GroupsOk, Stocked, StoresOk, PurseOk, FundingOk, PointsOk, InflightOk, Owned;
    hide OnePayer, CartsApart;
    var n := WithFunds(db, topups, transfers, receipts, purse);
    PointwiseEvolves(db, n);
    hide Evolves;
    UnitsFrame(db, n);
  }

  /** References that belong to neither an order nor a checkout. */
  predicate Foreign(ref: PurseRef) {
    ref.TopupCredit? || ref.TransferCredit? || ref.Unique?
  }

  lemma PostForeign(orders: seq<Order>, groups: seq<Group>, purse: Book<PurseRef>, e: Entry<PurseRef>)
    requires PurseOk(orders, groups, purse) && Foreign(e.ref) && Post(purse, e).Ok?
    ensures PurseOk(orders, groups, Post(purse, e).value)
  {
    var after := Post(purse, e).value;
    PostKeepsSound(purse, e);
    FindAppendAll(purse.entries, e);
    hide Sound, Find, Post;
    forall g | 0 <= g < |groups| ensures DebitedOk(g, groups[g], after.entries) {
      DebitedFrame(g, groups[g], purse.entries, e);
    }
    forall o | 0 <= o < |orders| ensures PursedOk(o, orders[o], ByWallet(orders[o], groups), after.entries) {
      PursedFrame(o, orders[o], ByWallet(orders[o], groups), purse.entries, e);
    }
    hide PursedOk, DebitedOk;
  }

  lemma OpenPurse(orders: seq<Order>, groups: seq<Group>, purse: Book<PurseRef>, user: nat)
    requires PurseOk(orders, groups, purse)
    ensures PurseOk(orders, groups, Open(purse, user)) && Open(purse, user).entries == purse.entries
  {
    OpenKeepsSound(purse, user);
    forall g | 0 <= g < |groups| ensures DebitedOk(g, groups[g], Open(purse, user).entries) {
      assert DebitedOk(g, groups[g], purse.entries);
    }
  }

  // ----- top-ups -----

  lemma StartTopupKeeps(db: Db, user: nat, amount: nat)
    requires Inv(db)
    ensures StartTopup(db, user, amount).Ok? && Sane(db, StartTopup(db, user, amount).value)
  {
    var topups := db.topups + [Funding(user, amount, Pending)];
    assert FundingOk(topups, db.transfers, db.purse) by {
      forall t | 0 <= t < |topups| ensures FundedOk(t, topups[t], db.purse.entries) {
        if t < |db.topups| {
          assert FundedOk(t, db.topups[t], db.purse.entries);
        }
      }
    }
    hide Inv, Sane;
    FundsAreSane(db, topups, db.transfers, db.receipts, db.purse);
  }

  /** A top-up that is not PAID afterwards may be written at any time. */
  lemma TopupWritten(db: Db, t: nat)
    requires FundingOk(db.topups, db.transfers, db.purse) && t < |db.topups|
    ensures FundingOk(db.topups[t := db.topups[t].(status := Failed)], db.transfers, db.purse)
  {
    var topups := db.topups[t := db.topups[t].(status := Failed)];
    forall i | 0 <= i < |topups| ensures FundedOk(i, topups[i], db.purse.entries) {
      assert FundedOk(i, db.topups[i], db.purse.entries);
    }
  }

  lemma TopupCredited(db: Db, t: nat, after: Book<PurseRef>)
    requires FundingOk(db.topups, db.transfers, db.purse) && t < |db.topups|
    requires after.entries == db.purse.entries + [Entry(db.topups[t].user, Credit, db.topups[t].amount, TopupCredit(t))]
    ensures FundingOk(db.topups[t := db.topups[t].(status := Paid)], db.transfers, after)
  {
    var topups := db.topups[t := db.topups[t].(status := Paid)];
    FindAppendAll(db.purse.entries, Entry(db.topups[t].user, Credit, db.topups[t].amount, TopupCredit(t)));
    hide Find;
    forall i | 0 <= i < |topups| ensures FundedOk(i, topups[i], after.entries) {
      assert FundedOk(i, db.topups[i], db.purse.entries);
    }
  }

  lemma VerifyTopupKeeps(db: Db, t: nat, reported: int, success: bool)
    requires Inv(db) && VerifyTopup(db, t, reported, success).Ok?
    ensures Sane(db, VerifyTopup(db, t, reported, success).value)
  {
    var f := db.topups[t];
    if !success {
      TopupWritten(db, t);
      hide Inv, Sane;
      FundsAreSane(db, db.topups[t := f.(status := Failed)], db.transfers, db.receipts, db.purse);
    } else if f.status == Paid {
      NothingHappens(db);
    } else {
      var e := Entry(f.user, Credit, f.amount, TopupCredit(t));
      var purse := Post(db.purse, e).value;
      PostForeign(db.orders, db.groups, db.purse, e);
      TopupCredited(db, t, purse);
      hide Inv, Sane, Post;
      FundsAreSane(db, db.topups[t := f.(status := Paid)], db.transfers, db.receipts, purse);
    }
  }

  // ----- transfers into a dedicated account -----

  lemma TransfersWritten(db: Db, transfers: map<nat, Funding>)
    requires FundingOk(db.topups, db.transfers, db.purse)
    requires forall r :: r in db.transfers ==> r in transfers
    ensures FundingOk(db.topups, transfers, db.purse)
  {
  }

  lemma ArriveTransferKeeps(db: Db, reference: nat, user: nat, amount: nat)
    requires Inv(db) && ArriveTransfer(db, reference, user, amount).Ok?
    ensures Sane(db, ArriveTransfer(db, reference, user, amount).value)
  {
    assert PurseOk(db.orders, db.groups, db.purse) && FundingOk(db.topups, db.transfers, db.purse);
    hide Inv, Sane, PurseOk, FundingOk;
    FundsAreSane(db, db.topups, db.transfers, db.receipts + [Receipt(reference, user, amount, false)], db.purse);
  }

  lemma RecordTransferKeeps(db: Db, i: nat)
    requires Inv(db) && RecordTransfer(db, i).Ok?
    ensures Sane(db, RecordTransfer(db, i).value)
  {
    var c := db.receipts[i];
    var transfers := RecordTransfer(db, i).value.transfers;
    TransfersWritten(db, transfers);
    assert PurseOk(db.orders, db.groups, db.purse);
    hide Inv, Sane, PurseOk, FundingOk;
    FundsAreSane(db, db.topups, transfers, db.receipts[i := c.(recorded := true)], db.purse);
  }

  lemma DropTransferKeeps(db: Db, i: nat)
    requires Inv(db) && DropTransfer(db, i).Ok?
    ensures Sane(db, DropTransfer(db, i).value)
  {
    assert PurseOk(db.orders, db.groups, db.purse) && FundingOk(db.topups, db.transfers, db.purse);
    hide Inv, Sane, PurseOk, FundingOk;
    FundsAreSane(db, db.topups, db.transfers, Dropped(db.receipts, i), db.purse);
  }

  lemma RedeliverTransferKeeps(db: Db, reference: nat, reported: int, success: bool)
    requires Inv(db) && RedeliverTransfer(db, reference, reported, success).Ok?
    ensures Sane(db, RedeliverTransfer(db, reference, reported, success).value)
  {
    var f := db.transfers[reference];
    if f.status == Paid || (f.status == Failed && !success) {
      NothingHappens(db);
    } else {
      var transfers := db.transfers[reference := f.(status := if success then Paid else Failed)];
      TransfersWritten(db, transfers);
      hide Inv, Sane;
      FundsAreSane(db, db.topups, transfers, db.receipts, db.purse);
    }
  }

  lemma TransferCredited(db: Db, transfers: map<nat, Funding>, after: Book<PurseRef>, reference: nat, user: nat, amount: nat)
    requires FundingOk(db.topups, db.transfers, db.purse)
    requires forall r :: r in db.transfers ==> r in transfers
    requires reference in transfers
    requires after.entries == db.purse.entries + [Entry(user, Credit, amount, TransferCredit(reference))]
    ensures FundingOk(db.topups, transfers, after)
  {
    FindAppendAll(db.purse.entries, Entry(user, Credit, amount, TransferCredit(reference)));
    hide Find;
    forall t | 0 <= t < |db.topups| ensures FundedOk(t, db.topups[t], after.entries) {
      assert FundedOk(t, db.topups[t], db.purse.entries);
    }
  }

  lemma FundingSameEntries(db: Db, transfers: map<nat, Funding>, after: Book<PurseRef>)
    requires FundingOk(db.topups, db.transfers, db.purse) && after.entries == db.purse.entries
    requires forall r :: r in db.transfers ==> r in transfers
    ensures FundingOk(db.topups, transfers, after)
  {
  }

  lemma CreditTransferKeeps(db: Db, i: nat)
    requires Inv(db) && CreditTransfer(db, i).Ok?
    ensures Sane(db, CreditTransfer(db, i).value)
  {
    var c, rest := db.receipts[i], Dropped(db.receipts, i);
    var f := db.transfers[c.reference];
    var purse := Open(db.purse, c.user);
    OpenPurse(db.orders, db.groups, db.purse, c.user);
    var transfers := db.transfers[c.reference := f.(status := Paid)];
    if f.status == Paid {
      assert PurseOk(db.orders, db.groups, db.purse) && FundingOk(db.topups, db.transfers, db.purse);
      hide Inv, Sane, Open, Find, Post, PurseOk, FundingOk, Dropped;
      FundsAreSane(db, db.topups, db.transfers, rest, db.purse);
    } else if Find(db.purse.entries, TransferCredit(c.reference)).Some? {
      FundingSameEntries(db, transfers, purse);
      hide Inv, Sane, Open, Find, Post, Dropped;
      FundsAreSane(db, db.topups, transfers, rest, purse);
    } else {
      var e := Entry(c.user, Credit, c.amount, TransferCredit(c.reference));
      var after := Post(purse, e).value;
      PostForeign(db.orders, db.groups, purse, e);
      TransferCredited(db, transfers, after, c.reference, c.user, c.amount);
      hide Inv, Sane, Open, Find, Post, Dropped;
      FundsAreSane(db, db.topups, transfers, rest, after);
    }
  }

  // ----- charges, credits and withdrawals -----

  lemma FundingForeign(topups: seq<Funding>, transfers: map<nat, Funding>, purse: Book<PurseRef>, after: Book<PurseRef>, e: Entry<PurseRef>)
    requires FundingOk(topups, transfers, purse) && after.entries == purse.entries + [e] && e.ref.Unique?
    ensures FundingOk(topups, transfers, after)
  {
    FindAppendAll(purse.entries, e);
    hide Find;
    forall t | 0 <= t < |topups| ensures FundedOk(t, topups[t], after.entries) {
      assert FundedOk(t, topups[t], purse.entries);
    }
  }

  lemma PostUniqueKeeps(db: Db, e: Entry<PurseRef>)
    requires Inv(db) && e.ref.Unique? && Post(db.purse, e).Ok?
    ensures Sane(db, WithFunds(db, db.topups, db.transfers, db.receipts, Post(db.purse, e).value))
  {
    var purse := Post(db.purse, e).value;
    PostForeign(db.orders, db.groups, db.purse, e);
    FundingForeign(db.topups, db.transfers, db.purse, purse, e);
    hide Inv, Sane, Post;
    FundsAreSane(db, db.topups, db.transfers, db.receipts, purse);
  }

  lemma ChargeWalletKeeps(db: Db, user: nat, amount: nat, id: nat)
    requires Inv(db) && ChargeWallet(db, user, amount, id).Ok?
    ensures Sane(db, ChargeWallet(db, user, amount, id).value)
  {
    hide Inv, Sane, Post;
    PostUniqueKeeps(db, Entry(user, Debit, amount, Unique(id)));
  }

  lemma CreditWalletKeeps(db: Db, user: nat, amount: nat, id: nat)
    requires Inv(db) && CreditWallet(db, user, amount, id).Ok?
    ensures Sane(db, CreditWallet(db, user, amount, id).value)
  {
    hide Inv, Sane, Post;
    PostUniqueKeeps(db, Entry(user, Credit, amount, Unique(id)));
  }

  lemma RiderWithdrawKeeps(db: Db, user: nat, amount: nat, id: nat)
    requires Inv(db) && RiderWithdraw(db, user, amount, id).Ok?
    ensures Sane(db, RiderWithdraw(db, user, amount, id).value)
  {
    hide Inv, Sane, Post;
    PostUniqueKeeps(db, Entry(user, Debit, amount, Unique(id)));
  }

  // ----- store withdrawals -----

  lemma StoresWithdraw(orders: seq<Order>, stores: Book<StoreRef>, e: Entry<StoreRef>)
    requires StoresOk(orders, stores) && e.ref.StoreWithdrawal? && Post(stores, e).Ok?
    ensures StoresOk(orders, Post(stores, e).value)
  {
    var after := Post(stores, e).value;
    PostKeepsSound(stores, e);
    FindAppendAll(stores.entries, e);
    hide Sound, Find, Post;
    forall o | 0 <= o < |orders| ensures SettledOk(o, orders[o], after.entries) {
      assert SettledOk(o, orders[o], stores.entries);
    }
  }

  lemma StoreWithdrawKeeps(db: Db, store: nat, amount: nat, id: nat)
    requires Inv(db) && StoreWithdraw(db, store, amount, id).Ok?
    ensures Sane(db, StoreWithdraw(db, store, amount, id).value)
  {
    var e := Entry(store, Debit, amount, StoreWithdrawal(id));
    StoresWithdraw(db.orders, db.stores, e);
    var n := StoreWithdraw(db, store, amount, id).value;
    hide Linked, OrdersOk, GroupsOk, Stocked, StoresOk, PurseOk, FundingOk, PointsOk, InflightOk, Owned;
    hide OnePayer, CartsApart, Post;
    PointwiseEvolves(db, n);
    hide Evolves;
    UnitsFrame(db, n);
  }

  // ----- vouchers bought with points -----

  lemma PointsSpent(orders: seq<Order>, points: map<nat, int>, claims: seq<Claim>, c: Claim)
    requires PointsOk(orders, points, claims) && c.cost <= Points(points, c.user)
    ensures PointsOk(orders, points[c.user := Points(points, c.user) - c.cost], claims + [c])
  {
    var after := points[c.user := Points(points, c.user) - c.cost];
    forall user: nat ensures Points(after, user) == Earned(orders, user) - Spent(claims + [c], user) {
      assert Points(points, user) == Earned(orders, user) - Spent(claims, user);
      assert (claims + [c])[..|claims|] == claims;
    }
  }

  predicate HasClaimed(claims: seq<Claim>, user: nat, voucher: nat) {
    exists i :: 0 <= i < |claims| && claims[i].user == user && claims[i].voucher == voucher
  }

  lemma ClaimUnfolds(db: Db, user: nat, voucher: nat, cost: nat)
    requires ClaimVoucher(db, user, voucher, cost).Ok?
    ensures ClaimVoucher(db, user, voucher, cost).value
         == if HasClaimed(db.claims, user, voucher) then db
            else WithPoints(db, db.points[user := Points(db.points, user) - cost], db.claims + [Claim(user, voucher, cost)])
    ensures !HasClaimed(db.claims, user, voucher) ==> cost <= Points(db.points, user)
  {
  }

  lemma ClaimVoucherKeeps(db: Db, user: nat, voucher: nat, cost: nat)
    requires Inv(db) && ClaimVoucher(db, user, voucher, cost).Ok?
    ensures Sane(db, ClaimVoucher(db, user, voucher, cost).value)
  {
    hide ClaimVoucher, HasClaimed, Sane, WithPoints, Points, Inv;
    ClaimUnfolds(db, user, voucher, cost);
    if HasClaimed(db.claims, user, voucher) {
      NothingHappens(db);
    } else {
      PurchaseKeeps(db, Claim(user, voucher, cost));
    }
  }

  lemma PurchaseKeeps(db: Db, c: Claim)
    requires Inv(db) && c.cost <= Points(db.points, c.user)
    ensures Sane(db, WithPoints(db, db.points[c.user := Points(db.points, c.user) - c.cost], db.claims + [c]))
  {
    hide Inv, PointsOk, Points, Sane, WithPoints;
    PointsOf(db);
    PointsSpent(db.orders, db.points, db.claims, c);
    PointsAreSane(db, db.points[c.user := Points(db.points, c.user) - c.cost], db.claims + [c]);
  }

  lemma PointsOf(db: Db)
    requires Inv(db)
    ensures PointsOk(db.orders, db.points, db.claims)
  {
    hide Linked, OrdersOk, GroupsOk, Stocked, StoresOk, PurseOk, FundingOk, PointsOk, InflightOk, Owned;
    hide OnePayer, CartsApart;
  }

  function WithPoints(db: Db, points: map<nat, int>, claims: seq<Claim>): Db {
    db.(points := points, claims := claims)
  }

  lemma PointsAreSane(db: Db, points: map<nat, int>, claims: seq<Claim>)
    requires Inv(db) && PointsOk(db.orders, points, claims)
    ensures Sane(db, WithPoints(db, points, claims))
  {
    hide Linked, OrdersOk, GroupsOk, Stocked, StoresOk, PurseOk, FundingOk, PointsOk, InflightOk, Owned;
    hide OnePayer, CartsApart;
    var n := WithPoints(db, points, claims);
    assert Inv(n);
    hide Inv, Units;
    PointwiseEvolves(db, n);
    UnitsFrame(db, n);
  }
}
