/** What a quote is, figure by figure, in terms of the cart rows, the voucher and the coupon. */
module Pricing {
  import opened Outcome
  import opened Money
  import opened Quote

  // ----- from cart rows to lines -----

  /** The price in force: the discount price when there is one. */
  function PriceOf(row: CartRow): int {
    match row.discountPrice
    case Some(price) => price
    case None => row.price
  }

  predicate LineOfRow(row: CartRow, line: Line) {
    && line.cartItem == row.cartItem && line.product == row.product && line.store == row.store
    && line.quantity == row.quantity && line.unitPrice == PriceOf(row)
  }

  /** Price times quantity over all rows. */
  function CartWorth(rows: seq<CartRow>): int {
    if rows == [] then 0
    else CartWorth(rows[..|rows| - 1]) + PriceOf(rows[|rows| - 1]) * rows[|rows| - 1].quantity
  }

  /** Rows and lines correspond one to one, unless a price is negative. */
  lemma {:induction false} LinesFollowRows(rows: seq<CartRow>)
    ensures PriceRows(rows).Ok? <==> forall i :: 0 <= i < |rows| ==> PriceOf(rows[i]) >= 0
    ensures PriceRows(rows).Ok? ==>
      && |PriceRows(rows).value| == |rows|
      && forall i :: 0 <= i < |rows| ==> LineOfRow(rows[i], PriceRows(rows).value[i])
  {
    if rows != [] {
      LinesFollowRows(rows[1..]);
      assert forall i :: 1 <= i < |rows| ==> rows[i] == rows[1..][i - 1];
      if PriceRows(rows).Ok? {
        var lines := PriceRows(rows).value;
        forall i | 0 <= i < |rows| ensures LineOfRow(rows[i], lines[i]) {
          if i > 0 {
            assert lines[i] == PriceRows(rows[1..]).value[i - 1];
          }
        }
      }
    }
  }

  lemma {:induction false} SumFollowsRows(rows: seq<CartRow>, lines: seq<Line>, k: nat)
    requires |lines| == |rows| && k <= |rows| && forall i :: 0 <= i < |rows| ==> LineOfRow(rows[i], lines[i])
    ensures SumLines(lines[..k]) == CartWorth(rows[..k])
  {
    if k > 0 {
      SumFollowsRows(rows, lines, k - 1);
      assert rows[..k][..k - 1] == rows[..k - 1] && lines[..k] == lines[..k - 1] + [lines[k - 1]];
      SumLinesAppend(lines[..k - 1], lines[k - 1]);
    }
  }

  lemma {:induction false} SumLinesAppend(lines: seq<Line>, l: Line)
    ensures SumLines(lines + [l]) == SumLines(lines) + l.unitPrice * l.quantity
  {
    if lines == [] {
      assert lines + [l] == [l] && [l][1..] == [];
    } else {
      SumLinesAppend(lines[1..], l);
      assert (lines + [l])[1..] == lines[1..] + [l];
    }
  }

  lemma LinesAddUp(rows: seq<CartRow>)
    requires PriceRows(rows).Ok?
    ensures SumLines(PriceRows(rows).value) == CartWorth(rows)
  {
    LinesFollowRows(rows);
    var lines := PriceRows(rows).value;
    SumFollowsRows(rows, lines, |rows|);
    assert lines[..|rows|] == lines && rows[..|rows|] == rows;
  }

  // ----- the voucher, order by order -----

  predicate Concerns(v: Voucher, o: StoreOrder) {
    v.store.None? || v.store.value == 0 || v.store.value == o.store
  }

  /** What the voucher takes off the goods and off the fee of an order without discounts. */
  predicate VoucherOff(v: Voucher, o: StoreOrder, off: nat, shipping: nat) {
    if !Concerns(v, o) then off == 0 && shipping == 0
    else if v.freeShipping then off == 0 && shipping == o.shippingFee
    else
      && shipping == 0 && off <= o.subtotal
      && match v.percent
         case Some(p) =>
           && (p >= 10000 ==> off == o.subtotal)
           && (p <= 10000 ==> 2 * (o.subtotal * p) - 10000 < 20000 * off <= 2 * (o.subtotal * p) + 10000)
         case None => off == Min(if v.amount.Some? then v.amount.value else 0, o.subtotal)
  }

  /** A negative percentage or amount is refused where it would apply. */
  predicate Usable(v: Voucher, o: StoreOrder) {
    Concerns(v, o) && !v.freeShipping ==>
      match v.percent
      case Some(p) => o.subtotal * p >= 0
      case None => v.amount.Some? ==> v.amount.value >= 0
  }

  predicate Plain(o: StoreOrder) {
    o.total == o.subtotal + o.shippingFee && o.discount == 0 && o.shippingDiscount == 0
  }

  lemma VoucherDecided(v: Voucher, o: StoreOrder)
    requires Plain(o)
    ensures ApplyVoucher(o, v).Ok? <==> Usable(v, o)
    ensures ApplyVoucher(o, v).Ok? ==>
      VoucherOff(v, o, ApplyVoucher(o, v).value.discount, ApplyVoucher(o, v).value.shippingDiscount)
  {
    if v.percent.Some? {
      Increase(o.subtotal, v.percent.value, 10000);
      Increase(o.subtotal, 10000, v.percent.value);
    }
    if ApplyVoucher(o, v).Ok? {
      VoucherTakesOff(o, v);
    }
  }

  lemma {:induction false} VouchersDecided(os: seq<StoreOrder>, v: Voucher)
    requires forall i :: 0 <= i < |os| ==>
      os[i].total == os[i].subtotal + os[i].shippingFee && os[i].discount == 0 && os[i].shippingDiscount == 0
    ensures ApplyVouchers(os, v).Ok? <==> forall i :: 0 <= i < |os| ==> Usable(v, os[i])
    ensures ApplyVouchers(os, v).Ok? ==>
      var r := ApplyVouchers(os, v).value;
      |r| == |os| && forall i :: 0 <= i < |os| ==> VoucherOff(v, os[i], r[i].discount, r[i].shippingDiscount)
  {
    hide ApplyVoucher, VoucherOff, Usable;
    if os != [] {
      VoucherDecided(v, os[0]);
      VouchersDecided(os[1..], v);
      assert forall i :: 1 <= i < |os| ==> os[i] == os[1..][i - 1];
      if ApplyVouchers(os, v).Ok? {
        var r := ApplyVouchers(os, v).value;
        forall i | 0 <= i < |os| ensures VoucherOff(v, os[i], r[i].discount, r[i].shippingDiscount) {
          if i > 0 {
            assert r[i] == ApplyVouchers(os[1..], v).value[i - 1];
          }
        }
      }
    }
  }

  // ----- the coupon -----

  /** The coupon's face value in ten-thousandths of a kobo: a percentage of the goods, or its amount. */
  function FaceValue(c: Coupon, gross: nat): int {
    if c.percentage && c.percent.Some? then gross * c.percent.value
    else if c.amount.Some? then c.amount.value * 10000
    else 0
  }

  function Ceiling(c: Coupon, payable: nat): int {
    if c.maximum.Some? then Min(c.maximum.value, payable) else payable
  }

  /** The worth is the face value to the nearest kobo, up to the ceiling. */
  predicate WorthIs(c: Coupon, gross: nat, payable: nat, worth: nat) {
    && (FaceValue(c, gross) >= Ceiling(c, payable) * 10000 ==> worth == Ceiling(c, payable))
    && (FaceValue(c, gross) <= Ceiling(c, payable) * 10000 ==>
      2 * FaceValue(c, gross) - 10000 < 20000 * worth <= 2 * FaceValue(c, gross) + 10000)
  }

  predicate UsableCoupon(c: Coupon, gross: nat) {
    FaceValue(c, gross) >= 0 && (c.maximum.Some? ==> c.maximum.value >= 0)
  }

  lemma CouponDecided(c: Coupon, gross: nat, payable: nat)
    ensures CouponWorth(c, gross, payable).Ok? <==> UsableCoupon(c, gross)
    ensures CouponWorth(c, gross, payable).Ok? ==> WorthIs(c, gross, payable, CouponWorth(c, gross, payable).value)
  {
  }

  /** What the stores before the `i`-th can take. */
  function TakenBefore(os: seq<StoreOrder>, coupon: nat, gross: nat, i: nat): nat
    requires i <= |os|
  {
    if i == 0 then 0 else TakenBefore(os, coupon, gross, i - 1) + Takes(os[i - 1], coupon, gross, false)
  }

  /** The coupon's part of the `i`-th store: what is left for it, as far as it can take it. */
  function PartOf(os: seq<StoreOrder>, coupon: nat, gross: nat, remaining: nat, i: nat): int
    requires i < |os|
  {
    var before := TakenBefore(os, coupon, gross, i);
    Min(if remaining <= before then 0 else remaining - before, Takes(os[i], coupon, gross, i == |os| - 1))
  }

  lemma {:induction false} TakenBeforeCons(os: seq<StoreOrder>, coupon: nat, gross: nat, i: nat)
    requires 0 < i <= |os|
    ensures TakenBefore(os, coupon, gross, i)
         == Takes(os[0], coupon, gross, false) + TakenBefore(os[1..], coupon, gross, i - 1)
  {
    if i > 1 {
      TakenBeforeCons(os, coupon, gross, i - 1);
    }
  }

  /** Each store's discount grows by exactly its part; nothing else of it changes but its total. */
  lemma {:induction false} SpreadAt(os: seq<StoreOrder>, coupon: nat, gross: nat, remaining: nat, i: nat)
    requires i < |os|
    ensures |Spread(os, coupon, gross, remaining).0| == |os|
    ensures var part := PartOf(os, coupon, gross, remaining, i);
            0 <= part <= os[i].total && Spread(os, coupon, gross, remaining).0[i] == Discounted(os[i], part)
    decreases |os|
  {
    var a := Share(os[0], coupon, gross, remaining, |os| == 1);
    ShareIsMin(os[0], coupon, gross, remaining, |os| == 1);
    SpreadSound(os, coupon, gross, remaining);
    if i > 0 {
      SpreadAt(os[1..], coupon, gross, remaining - a, i - 1);
      TakenBeforeCons(os, coupon, gross, i);
      hide Share, Takes, Spread;
    }
  }

  // ----- the whole quote -----

  /** What stands in force at checkout: active, started, not expired, and the goods reach the minimum. */
  predicate Eligible(active: bool, startsAt: int, expiresAt: Option<int>, minimum: int, goods: int, now: int) {
    && active && startsAt <= now && goods >= minimum
    && match expiresAt
       case None => true
       case Some(end) => now < end
  }

  function FeeOf(t: Terms): int {
    if t.delivery then t.fee else 0
  }

  /** The orders between voucher and coupon. */
  ghost predicate AfterVoucher(t: Terms, plain: seq<StoreOrder>, vouched: seq<StoreOrder>) {
    && |vouched| == |plain| && SameGoods(plain, vouched)
    && (forall i :: 0 <= i < |plain| ==> Priced(vouched[i]))
    && match t.voucher
       case None => vouched == plain
       case Some(v) =>
         forall i :: 0 <= i < |plain| ==> VoucherOff(v, plain[i], vouched[i].discount, vouched[i].shippingDiscount)
  }

  /** The orders after the coupon. */
  ghost predicate AfterCoupon(t: Terms, gross: nat, vouched: seq<StoreOrder>, orders: seq<StoreOrder>) {
    && |orders| == |vouched|
    && match t.coupon
       case None => orders == vouched
       case Some(c) =>
         exists worth: nat ::
           && WorthIs(c, gross, SumTotals(vouched), worth)
           && forall i :: 0 <= i < |vouched| ==> CouponTaken(vouched, worth, gross, i, orders[i])
  }

  predicate CouponTaken(os: seq<StoreOrder>, worth: nat, gross: nat, i: nat, o: StoreOrder)
    requires i < |os|
  {
    var part := PartOf(os, worth, gross, worth, i);
    0 <= part <= os[i].total && o == Discounted(os[i], part)
  }

  /** The orders as grouped by store, at the fee of the terms. */
  function PlainOrders(rows: seq<CartRow>, t: Terms): seq<StoreOrder>
    requires PriceRows(rows).Ok? && FeeOf(t) >= 0
  {
    OpenOrders(PriceRows(rows).value, StoreIds(PriceRows(rows).value), FeeOf(t))
  }

  lemma PlainIsPlain(rows: seq<CartRow>, t: Terms)
    requires PriceRows(rows).Ok? && FeeOf(t) >= 0
    ensures forall i :: 0 <= i < |PlainOrders(rows, t)| ==>
      Plain(PlainOrders(rows, t)[i]) && PlainOrders(rows, t)[i].shippingFee == FeeOf(t)
    ensures SumSubtotals(PlainOrders(rows, t)) == CartWorth(rows)
  {
    LinesAddUp(rows);
    GroupingPartitions(PriceRows(rows).value, FeeOf(t));
  }

  lemma VouchedDecided(rows: seq<CartRow>, t: Terms)
    requires PriceRows(rows).Ok? && FeeOf(t) >= 0
    ensures var plain := PlainOrders(rows, t);
            && (forall i :: 0 <= i < |plain| ==> Plain(plain[i]))
            && var r := Vouched(plain, t.voucher, SumSubtotals(plain), t.now);
            && (r.Ok? <==> (t.voucher.Some? ==>
              var v := t.voucher.value;
              && Eligible(v.active, v.startsAt, v.expiresAt, v.minimum, CartWorth(rows), t.now)
              && forall i :: 0 <= i < |plain| ==> Usable(v, plain[i])))
            && (r.Ok? ==> AfterVoucher(t, plain, r.value))
  {
    PlainIsPlain(rows, t);
    var plain := PlainOrders(rows, t);
    if t.voucher.Some? {
      VouchersDecided(plain, t.voucher.value);
    }
    hide VoucherOff, Usable, ApplyVouchers, PlainOrders;
  }

  lemma CouponedDecided(t: Terms, gross: nat, vouched: seq<StoreOrder>)
    ensures var r := Couponed(vouched, t.coupon, gross, t.now);
            && (r.Ok? <==> (t.coupon.Some? ==>
              var c := t.coupon.value;
              && Eligible(c.active, c.startsAt, c.expiresAt, c.minimum, gross, t.now)
              && (c.usageLimit.Some? ==> c.usedCount < c.usageLimit.value)
              && UsableCoupon(c, gross)))
            && (r.Ok? ==> AfterCoupon(t, gross, vouched, r.value))
  {
    var r := Couponed(vouched, t.coupon, gross, t.now);
    if t.coupon.Some? {
      var c := t.coupon.value;
      CouponDecided(c, gross, SumTotals(vouched));
      if r.Ok? {
        var worth := CouponWorth(c, gross, SumTotals(vouched)).value;
        SpreadSound(vouched, worth, gross, worth);
        forall i | 0 <= i < |vouched| ensures CouponTaken(vouched, worth, gross, i, r.value[i]) {
          SpreadAt(vouched, worth, gross, worth, i);
        }
      }
    }
    hide Spread, CouponWorth, UsableCoupon, WorthIs, CouponTaken;
  }

  /**
   The whole quote: its lines are the cart's rows; grouped by store they carry the fee; the voucher
   takes its discount off each order, the coupon its part; the figures are the sums.
   */
  lemma QuoteIsExact(rows: seq<CartRow>, t: Terms)
    requires QuoteCart(rows, t).Ok?
    ensures PriceRows(rows).Ok? && FeeOf(t) >= 0
    ensures var q, lines := QuoteCart(rows, t).value, PriceRows(rows).value;
            && |lines| == |rows| && (forall i :: 0 <= i < |rows| ==> LineOfRow(rows[i], lines[i]))
            && Faithful(q, lines) && q.subtotal == CartWorth(rows)
            && q.shippingFee == FeeOf(t) * |q.orders|
            && q.discount == SumDiscounts(q.orders) && q.total == q.subtotal + q.shippingFee - q.discount
            && (forall i :: 0 <= i < |q.orders| ==> q.orders[i].shippingFee == FeeOf(t))
            && exists vouched ::
                 AfterVoucher(t, PlainOrders(rows, t), vouched) && AfterCoupon(t, q.subtotal, vouched, q.orders)
  {
    LinesFollowRows(rows);
    QuoteIsSound(rows, t);
    LinesAddUp(rows);
    VouchedDecided(rows, t);
    PlainIsPlain(rows, t);
    var plain := PlainOrders(rows, t);
    var vouched := Vouched(plain, t.voucher, SumSubtotals(plain), t.now).value;
    CouponedDecided(t, SumSubtotals(plain), vouched);
    QuotedOrders(PriceRows(rows).value, FeeOf(t), t);
    hide Vouched, Couponed, AfterVoucher, AfterCoupon, SumSubtotals, SumDiscounts, LineOfRow, Faithful, SumTotals, CartWorth;
  }

  /** A cart is quoted exactly when every reason to refuse it is absent. */
  lemma QuoteDecided(rows: seq<CartRow>, t: Terms)
    ensures QuoteCart(rows, t).Ok? <==>
      && rows != [] && (t.delivery ==> t.deliveryEnabled && t.fee >= 0)
      && (forall i :: 0 <= i < |rows| ==> rows[i].sellable && rows[i].quantity <= rows[i].stock && PriceOf(rows[i]) >= 0)
      && (t.voucher.Some? ==>
        var v := t.voucher.value;
        && Eligible(v.active, v.startsAt, v.expiresAt, v.minimum, CartWorth(rows), t.now)
        && PriceRows(rows).Ok? && FeeOf(t) >= 0
        && forall i :: 0 <= i < |PlainOrders(rows, t)| ==> Usable(v, PlainOrders(rows, t)[i]))
      && (t.coupon.Some? ==>
        var c := t.coupon.value;
        && Eligible(c.active, c.startsAt, c.expiresAt, c.minimum, CartWorth(rows), t.now)
        && (c.usageLimit.Some? ==> c.usedCount < c.usageLimit.value)
        && CartWorth(rows) >= 0 && UsableCoupon(c, CartWorth(rows)))
  {
    LinesFollowRows(rows);
    assert forall i :: 0 <= i < |rows| ==> (Available(rows[i]) <==> rows[i].sellable && rows[i].quantity <= rows[i].stock);
    if PriceRows(rows).Ok? && FeeOf(t) >= 0 {
      PlainIsPlain(rows, t);
      VouchedDecided(rows, t);
      var plain := PlainOrders(rows, t);
      var vouched := Vouched(plain, t.voucher, SumSubtotals(plain), t.now);
      if vouched.Ok? {
        CouponedDecided(t, SumSubtotals(plain), vouched.value);
      }
      hide Vouched, Couponed, AfterVoucher, AfterCoupon, SumSubtotals, SumDiscounts, Eligible, Usable, UsableCoupon, CartWorth;
    }
    hide PriceRows;
  }
}
