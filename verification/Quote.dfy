/**
 The price of a checkout: cart rows are grouped by store, a voucher is applied store by
 store, a coupon is spread over the stores in proportion to their subtotals.
 */
module Quote {
  import opened Outcome
  import opened Money

  datatype CartRow = CartRow(
    cartItem: nat, product: nat, store: nat, quantity: nat,
    price: int, discountPrice: Option<int>, sellable: bool, stock: int)

  datatype Line = Line(cartItem: nat, product: nat, store: nat, quantity: nat, unitPrice: nat)

  datatype StoreOrder = StoreOrder(
    store: nat, items: seq<Line>, subtotal: nat, shippingFee: nat,
    discount: nat, shippingDiscount: nat, total: nat)

  /** Percentages are in hundredths of a percent, moments in milliseconds. */
  datatype Voucher = Voucher(
    active: bool, startsAt: int, expiresAt: Option<int>, minimum: int,
    store: Option<nat>, freeShipping: bool, percent: Option<int>, amount: Option<int>)

  datatype Coupon = Coupon(
    active: bool, startsAt: int, expiresAt: Option<int>, minimum: int,
    usageLimit: Option<int>, usedCount: int,
    percentage: bool, percent: Option<int>, amount: Option<int>, maximum: Option<int>)

  datatype Quote = Quote(subtotal: nat, shippingFee: nat, discount: nat, total: nat, orders: seq<StoreOrder>)

  // ----- grouping by store -----

  function SumLines(lines: seq<Line>): nat {
    if lines == [] then 0 else lines[0].unitPrice * lines[0].quantity + SumLines(lines[1..])
  }

  function LinesOf(lines: seq<Line>, store: nat): seq<Line> {
    if lines == [] then []
    else (if lines[0].store == store then [lines[0]] else []) + LinesOf(lines[1..], store)
  }

  /** The distinct store ids in ascending order. */
  function InsertId(ids: seq<nat>, id: nat): seq<nat> {
    if ids == [] then [id]
    else if id < ids[0] then [id] + ids
    else if id == ids[0] then ids
    else [ids[0]] + InsertId(ids[1..], id)
  }

  function StoreIds(lines: seq<Line>): seq<nat> {
    if lines == [] then [] else InsertId(StoreIds(lines[1..]), lines[0].store)
  }

  function OpenOrder(lines: seq<Line>, store: nat, fee: nat): StoreOrder {
    var items := LinesOf(lines, store);
    StoreOrder(store, items, SumLines(items), fee, 0, 0, SumLines(items) + fee)
  }

  function OpenOrders(lines: seq<Line>, stores: seq<nat>, fee: nat): (os: seq<StoreOrder>)
    ensures |os| == |stores|
    ensures forall i :: 0 <= i < |os| ==> os[i] == OpenOrder(lines, stores[i], fee)
  {
    seq(|stores|, i requires 0 <= i < |stores| => OpenOrder(lines, stores[i], fee))
  }

  // ----- sums over the store orders -----

  function SumSubtotals(os: seq<StoreOrder>): nat {
    if os == [] then 0 else os[0].subtotal + SumSubtotals(os[1..])
  }

  function SumTotals(os: seq<StoreOrder>): nat {
    if os == [] then 0 else os[0].total + SumTotals(os[1..])
  }

  function SumDiscounts(os: seq<StoreOrder>): nat {
    if os == [] then 0 else os[0].discount + os[0].shippingDiscount + SumDiscounts(os[1..])
  }

  /** What every store order promises about its own figures. */
  predicate Priced(o: StoreOrder) {
    o.total == o.subtotal + o.shippingFee - o.discount - o.shippingDiscount
  }

  ghost predicate AllPriced(os: seq<StoreOrder>, fee: nat) {
    forall i :: 0 <= i < |os| ==> Priced(os[i]) && os[i].shippingFee == fee
  }

  // ----- vouchers -----

  predicate InForce(active: bool, startsAt: int, expiresAt: Option<int>, now: int) {
    active && startsAt <= now && (expiresAt.Some? ==> expiresAt.value > now)
  }

  function Min(a: int, b: int): int {
    if a <= b then a else b
  }

  /** A voucher is only ever applied to an order that carries no discount yet. */
  function ApplyVoucher(o: StoreOrder, v: Voucher): (r: Result<StoreOrder>)
    requires o.total == o.subtotal + o.shippingFee && o.discount == 0 && o.shippingDiscount == 0
    ensures r.Ok? ==> Priced(r.value) && r.value.(discount := 0, shippingDiscount := 0, total := o.total) == o
  {
    if v.store.Some? && v.store.value != 0 && v.store.value != o.store then Ok(o)
    else if v.freeShipping then Ok(o.(shippingDiscount := o.shippingFee, total := o.subtotal))
    else if v.percent.Some? then
      var n := Min(o.subtotal * v.percent.value, o.subtotal * 10000);
      var amount :- ToKobo(n, 10000);
      assert amount <= o.subtotal by {
        HalfUpAtMost(n, 10000, o.subtotal);
        HalfUpUnique(n, 10000, amount);
      }
      Ok(o.(discount := amount, total := o.total - amount))
    else
      var raw := if v.amount.Some? then v.amount.value else 0;
      if raw < 0 then Err(Invalid)
      else Ok(o.(discount := Min(raw, o.subtotal), total := o.total - Min(raw, o.subtotal)))
  }

  /**
   What a voucher takes off: nothing from another store's order, the whole fee for free shipping,
   its percentage of the goods to the nearest kobo but never more than the goods, or its amount
   but never more than the goods.
   */
  lemma VoucherTakesOff(o: StoreOrder, v: Voucher)
    requires o.total == o.subtotal + o.shippingFee && o.discount == 0 && o.shippingDiscount == 0
    requires ApplyVoucher(o, v).Ok?
    ensures var a := ApplyVoucher(o, v).value;
            if v.store.Some? && v.store.value != 0 && v.store.value != o.store then a.total == o.total
            else if v.freeShipping then a.total == o.subtotal && a.shippingDiscount == o.shippingFee && a.discount == 0
            else if v.percent.Some? then
              && a.discount <= o.subtotal && a.shippingDiscount == 0
              && (v.percent.value >= 10000 ==> a.discount == o.subtotal)
              && (v.percent.value <= 10000 ==>
                2 * (o.subtotal * v.percent.value) - 10000 < 20000 * a.discount <= 2 * (o.subtotal * v.percent.value) + 10000)
            else a.discount == Min(if v.amount.Some? then v.amount.value else 0, o.subtotal)
  {
    if v.percent.Some? {
      Increase(o.subtotal, v.percent.value, 10000);
      Increase(o.subtotal, 10000, v.percent.value);
    }
  }

  function ApplyVouchers(os: seq<StoreOrder>, v: Voucher): (r: Result<seq<StoreOrder>>)
    requires forall i :: 0 <= i < |os| ==>
      os[i].total == os[i].subtotal + os[i].shippingFee && os[i].discount == 0 && os[i].shippingDiscount == 0
    ensures r.Ok? ==> SameGoods(os, r.value)
    ensures r.Ok? ==> forall i :: 0 <= i < |r.value| ==> Priced(r.value[i])
  {
    if os == [] then Ok([])
    else
      var first :- ApplyVoucher(os[0], v);
      var rest :- ApplyVouchers(os[1..], v);
      Ok([first] + rest)
  }

  /** Discounts touch neither the goods of an order nor its fee. */
  ghost predicate SameGoods(before: seq<StoreOrder>, after: seq<StoreOrder>) {
    && |before| == |after|
    && (forall i :: 0 <= i < |before| ==>
      && after[i].store == before[i].store && after[i].items == before[i].items
      && after[i].subtotal == before[i].subtotal && after[i].shippingFee == before[i].shippingFee)
  }

  // ----- coupons -----

  /** What the coupon is worth here, capped by its maximum and by what is left to pay. */
  function CouponWorth(c: Coupon, gross: nat, payable: nat): (r: Result<nat>)
    ensures r.Ok? ==> r.value <= payable
  {
    if !(c.percentage && c.percent.Some?) && c.amount.Some? && c.amount.value < 0 then Err(Invalid)
    else
      var raw :=
        if c.percentage && c.percent.Some? then gross * c.percent.value
        else if c.amount.Some? then c.amount.value * 10000
        else 0;
      var capped := if c.maximum.Some? then Min(raw, c.maximum.value * 10000) else raw;
      var n := Min(capped, payable * 10000);
      var worth :- ToKobo(n, 10000);
      assert worth <= payable by {
        HalfUpAtMost(n, 10000, payable);
        HalfUpUnique(n, 10000, worth);
      }
      Ok(worth)
  }

  /** The part of the coupon one store gets; the last store gets all that remains. */
  function Share(o: StoreOrder, coupon: nat, gross: nat, remaining: nat, last: bool): (a: nat)
    ensures a <= remaining && a <= o.total
  {
    var cap := Min(remaining, o.total);
    if last then cap
    else if gross == 0 then 0
    else
      var n := Min(cap * gross, coupon * o.subtotal);
      HalfUpAtMost(n, gross, cap);
      NonNegative(n, gross, HalfUp(n, gross));
      HalfUp(n, gross)
  }

  function Discounted(o: StoreOrder, amount: nat): StoreOrder
    requires amount <= o.total
  {
    o.(discount := o.discount + amount, total := o.total - amount)
  }

  /** The store orders after spreading, and what could not be allocated. */
  function Spread(os: seq<StoreOrder>, coupon: nat, gross: nat, remaining: nat): (r: (seq<StoreOrder>, nat)) {
    if os == [] then ([], remaining)
    else
      var a := Share(os[0], coupon, gross, remaining, |os| == 1);
      var rest := Spread(os[1..], coupon, gross, remaining - a);
      ([Discounted(os[0], a)] + rest.0, rest.1)
  }

  /** The loop that threads `remaining` through the stores computes `Spread`. */
  method SpreadCoupon(os: seq<StoreOrder>, coupon: nat, gross: nat) returns (out: seq<StoreOrder>, remaining: nat)
    ensures (out, remaining) == Spread(os, coupon, gross, coupon)
  {
    out, remaining := [], coupon;
    var i := 0;
    assert os[0..] == os && forall t: seq<StoreOrder> :: [] + t == t;
    while i < |os|
      invariant 0 <= i <= |os|
      invariant Spread(os, coupon, gross, coupon)
             == (out + Spread(os[i..], coupon, gross, remaining).0, Spread(os[i..], coupon, gross, remaining).1)
    {
      var a := Share(os[i], coupon, gross, remaining, i == |os| - 1);
      assert os[i..][1..] == os[i + 1..];
      ghost var rest := Spread(os[i + 1..], coupon, gross, remaining - a).0;
      assert out + ([Discounted(os[i], a)] + rest) == (out + [Discounted(os[i], a)]) + rest;
      out := out + [Discounted(os[i], a)];
      remaining := remaining - a;
      i := i + 1;
    }
    assert os[i..] == [] && out + [] == out;
  }

  /**
   For every input: spreading changes no goods, keeps every order's figures consistent and
   its total at least zero, takes nothing negative from any store, and hands out exactly
   what it does not report as remaining.
   */
  lemma {:induction false} SpreadSound(os: seq<StoreOrder>, coupon: nat, gross: nat, remaining: nat)
    ensures var (out, left) := Spread(os, coupon, gross, remaining);
            && SameGoods(os, out)
            && left <= remaining
            && SumTotals(out) == SumTotals(os) - (remaining - left)
            && SumDiscounts(out) == SumDiscounts(os) + (remaining - left)
            && (forall i :: 0 <= i < |os| ==>
              && out[i].total <= os[i].total && out[i].shippingDiscount == os[i].shippingDiscount
              && out[i].total + out[i].discount == os[i].total + os[i].discount)
  {
    if os != [] {
      var a := Share(os[0], coupon, gross, remaining, |os| == 1);
      SpreadSound(os[1..], coupon, gross, remaining - a);
      var (tail, left) := Spread(os[1..], coupon, gross, remaining - a);
      var out := [Discounted(os[0], a)] + tail;
      assert Spread(os, coupon, gross, remaining) == (out, left);
      assert out[1..] == tail;
      forall i | 0 <= i < |os|
        ensures
          && out[i].store == os[i].store && out[i].items == os[i].items
          && out[i].subtotal == os[i].subtotal && out[i].shippingFee == os[i].shippingFee
          && out[i].total <= os[i].total && out[i].shippingDiscount == os[i].shippingDiscount
          && out[i].total + out[i].discount == os[i].total + os[i].discount
      {
        if i > 0 {
          assert os[i] == os[1..][i - 1] && out[i] == tail[i - 1];
        }
      }
    }
  }

  // ----- what spreading leaves over -----

  /** The store's proportion of the coupon, rounded. */
  function Proportion(o: StoreOrder, coupon: nat, gross: nat): nat {
    if gross == 0 then 0
    else
      NonNegative(coupon * o.subtotal, gross, HalfUp(coupon * o.subtotal, gross));
      HalfUp(coupon * o.subtotal, gross)
  }

  /** The most a store can take: its proportion, the last store anything, and never more than its total. */
  function Takes(o: StoreOrder, coupon: nat, gross: nat, last: bool): nat {
    if last then o.total else Min(o.total, Proportion(o, coupon, gross))
  }

  function Capacity(os: seq<StoreOrder>, coupon: nat, gross: nat): nat {
    if os == [] then 0 else Takes(os[0], coupon, gross, |os| == 1) + Capacity(os[1..], coupon, gross)
  }

  lemma ShareIsMin(o: StoreOrder, coupon: nat, gross: nat, remaining: nat, last: bool)
    ensures Share(o, coupon, gross, remaining, last) == Min(remaining, Takes(o, coupon, gross, last))
  {
    if !last && gross > 0 {
      var cap, n := Min(remaining, o.total), coupon * o.subtotal;
      if n <= cap * gross {
        HalfUpAtMost(n, gross, cap);
      } else {
        HalfUpAtLeast(n, gross, cap);
        HalfUpUnique(cap * gross, gross, cap);
      }
    }
  }

  /** For every input: what is left over is exactly what exceeds the stores' capacity. */
  lemma {:induction false} ResidueExactly(os: seq<StoreOrder>, coupon: nat, gross: nat, remaining: nat)
    ensures Spread(os, coupon, gross, remaining).1
         == if remaining <= Capacity(os, coupon, gross) then 0 else remaining - Capacity(os, coupon, gross)
  {
    if os != [] {
      ShareIsMin(os[0], coupon, gross, remaining, |os| == 1);
      ResidueExactly(os[1..], coupon, gross, remaining - Share(os[0], coupon, gross, remaining, |os| == 1));
    }
  }

  /** So a coupon takes off its worth or the stores' capacity, whichever is less. */
  lemma CouponTakesOff(os: seq<StoreOrder>, coupon: nat, gross: nat)
    ensures SumDiscounts(Spread(os, coupon, gross, coupon).0)
         == SumDiscounts(os) + Min(coupon, Capacity(os, coupon, gross))
  {
    SpreadSound(os, coupon, gross, coupon);
    ResidueExactly(os, coupon, gross, coupon);
  }

  /** Orders that no voucher has touched. */
  ghost predicate Undiscounted(os: seq<StoreOrder>, fee: nat) {
    forall i :: 0 <= i < |os| ==> os[i].total == os[i].subtotal + fee
  }

  /** The rounded proportions of all stores but the last. */
  function Rounded(os: seq<StoreOrder>, coupon: nat, gross: nat): nat {
    if |os| <= 1 then 0 else Proportion(os[0], coupon, gross) + Rounded(os[1..], coupon, gross)
  }

  lemma {:induction false} PlainCapacity(os: seq<StoreOrder>, coupon: nat, gross: nat, fee: nat)
    requires os != [] && Undiscounted(os, fee) && coupon <= gross
    ensures Capacity(os, coupon, gross) == Rounded(os, coupon, gross) + os[|os| - 1].total
  {
    if |os| == 1 {
      assert os[1..] == [];
    } else {
      PlainCapacity(os[1..], coupon, gross, fee);
      if gross > 0 {
        Increase(os[0].subtotal, coupon, gross);
        HalfUpAtMost(coupon * os[0].subtotal, gross, os[0].subtotal);
      }
    }
  }

  /**
   With no voucher and a coupon worth at most the goods, nothing is left over exactly when the
   rounded proportions of all stores but the last, and the last store's total, cover the coupon.
   */
  lemma NothingIsLeftExactly(os: seq<StoreOrder>, coupon: nat, fee: nat)
    requires os != [] && Undiscounted(os, fee) && coupon <= SumSubtotals(os)
    ensures var gross := SumSubtotals(os);
            Spread(os, coupon, gross, coupon).1 == 0 <==> coupon <= Rounded(os, coupon, gross) + os[|os| - 1].total
  {
    ResidueExactly(os, coupon, SumSubtotals(os), coupon);
    PlainCapacity(os, coupon, SumSubtotals(os), fee);
  }

  /** Each rounded proportion falls short of the exact one by less than half a kobo. */
  lemma {:induction false} RoundedFallsShort(os: seq<StoreOrder>, coupon: nat, gross: nat)
    requires os != [] && gross > 0
    ensures var served := SumSubtotals(os) - os[|os| - 1].subtotal;
            2 * (coupon * served) <= 2 * (gross * Rounded(os, coupon, gross)) + gross * (|os| - 1)
            && (|os| > 1 ==> 2 * (coupon * served) < 2 * (gross * Rounded(os, coupon, gross)) + gross * (|os| - 1))
  {
    if |os| == 1 {
      assert os[1..] == [];
    } else {
      RoundedFallsShort(os[1..], coupon, gross);
      var o, rest := os[0], SumSubtotals(os[1..]) - os[|os| - 1].subtotal;
      Distribute(coupon, o.subtotal, rest);
      Distribute(gross, Proportion(o, coupon, gross), Rounded(os[1..], coupon, gross));
      Distribute(gross, |os| - 2, 1);
      Twice(gross, Proportion(o, coupon, gross));
    }
  }

  /**
   So what rounding leaves unallocated over `n` stores is under `(n - 1) / 2` kobo, less the fee of
   one store: nothing at all for up to three stores, or once a fee of `(n - 1) / 2` kobo is charged.
   */
  lemma ResidueBound(os: seq<StoreOrder>, coupon: nat, fee: nat)
    requires os != [] && Undiscounted(os, fee) && coupon <= SumSubtotals(os)
    ensures var left := Spread(os, coupon, SumSubtotals(os), coupon).1;
            left == 0 || 2 * (left + fee) < |os| - 1
  {
    var gross, last := SumSubtotals(os), os[|os| - 1];
    var left := Spread(os, coupon, gross, coupon).1;
    ResidueExactly(os, coupon, gross, coupon);
    PlainCapacity(os, coupon, gross, fee);
    if |os| == 1 {
      assert os[1..] == [];
    } else if left > 0 {
      RoundedFallsShort(os, coupon, gross);
      hide Spread, Capacity, Rounded, SumSubtotals;
      ShortOverall(coupon, gross, Rounded(os, coupon, gross), last.subtotal, fee, left, |os| - 1);
    }
  }

  lemma ShortOverall(coupon: nat, gross: nat, rounded: nat, last: nat, fee: nat, left: nat, n: nat)
    requires coupon <= gross && left == coupon - rounded - last - fee
    requires 2 * (coupon * (gross - last)) < 2 * (gross * rounded) + gross * n
    ensures 2 * (left + fee) < n
  {
    Distribute(coupon, gross - last, last);
    Increase(last, coupon, gross);
    Distribute(gross, left + fee, rounded);
    Distribute(gross, left + fee + rounded, last);
    Twice(gross, left + fee);
    assert gross * coupon == gross * (left + fee) + gross * rounded + gross * last;
    Cancel(gross, 2 * (left + fee), n);
  }

  lemma Cancel(g: nat, x: int, y: int)
    requires g * x < g * y
    ensures x < y
  {
    Increase(g, y, x);
  }

  // ----- the whole quote -----

  function PriceRow(row: CartRow): Result<Line> {
    var unit := if row.discountPrice.Some? then row.discountPrice.value else row.price;
    if unit < 0 then Err(Invalid)
    else Ok(Line(row.cartItem, row.product, row.store, row.quantity, unit))
  }

  function PriceRows(rows: seq<CartRow>): (r: Result<seq<Line>>)
    ensures r.Ok? ==> |r.value| == |rows|
  {
    if rows == [] then Ok([])
    else
      var first :- PriceRow(rows[0]);
      var rest :- PriceRows(rows[1..]);
      Ok([first] + rest)
  }

  predicate Available(row: CartRow) {
    row.sellable && row.quantity <= row.stock
  }

  function Vouched(os: seq<StoreOrder>, voucher: Option<Voucher>, gross: nat, now: int): (r: Result<seq<StoreOrder>>)
    requires forall i :: 0 <= i < |os| ==>
      os[i].total == os[i].subtotal + os[i].shippingFee && os[i].discount == 0 && os[i].shippingDiscount == 0
    ensures r.Ok? ==> SameGoods(os, r.value)
    ensures r.Ok? ==> forall i :: 0 <= i < |r.value| ==> Priced(r.value[i])
  {
    match voucher
    case None => Ok(os)
    case Some(v) =>
      if InForce(v.active, v.startsAt, v.expiresAt, now) && gross >= v.minimum then ApplyVouchers(os, v)
      else Err(Conflict)
  }

  function Couponed(os: seq<StoreOrder>, coupon: Option<Coupon>, gross: nat, now: int): Result<seq<StoreOrder>> {
    match coupon
    case None => Ok(os)
    case Some(c) =>
      if InForce(c.active, c.startsAt, c.expiresAt, now) && gross >= c.minimum
         && (c.usageLimit.Some? ==> c.usedCount < c.usageLimit.value)
      then
        var worth :- CouponWorth(c, gross, SumTotals(os));
        Ok(Spread(os, worth, gross, worth).0)
      else Err(Conflict)
  }

  datatype Terms = Terms(
    delivery: bool, deliveryEnabled: bool, fee: int,
    voucher: Option<Voucher>, coupon: Option<Coupon>, now: int)

  function QuoteCart(rows: seq<CartRow>, t: Terms): Result<Quote> {
    if rows == [] then Err(Invalid)
    else if t.delivery && !t.deliveryEnabled then Err(Invalid)
    else if exists i :: 0 <= i < |rows| && !Available(rows[i]) then Err(Conflict)
    else
      var lines :- PriceRows(rows);
      if t.delivery && t.fee < 0 then Err(Invalid)
      else
        QuoteLines(lines, if t.delivery then t.fee else 0, t)
  }

  function QuoteLines(lines: seq<Line>, fee: nat, t: Terms): Result<Quote> {
    var plain := OpenOrders(lines, StoreIds(lines), fee);
    var gross := SumSubtotals(plain);
    var vouched :- Vouched(plain, t.voucher, gross, t.now);
    var orders :- Couponed(vouched, t.coupon, gross, t.now);
    var discount := SumDiscounts(orders);
    DiscountsAreCovered(plain, t, fee);
    Ok(Quote(gross, fee * |plain|, discount, gross + fee * |plain| - discount, orders))
  }

  // ----- every cart line lands in exactly one store order -----

  ghost predicate Ascending(ids: seq<nat>) {
    forall i, j :: 0 <= i < j < |ids| ==> ids[i] < ids[j]
  }

  lemma {:induction false} InsertIdSorted(ids: seq<nat>, id: nat)
    requires Ascending(ids)
    ensures Ascending(InsertId(ids, id))
    ensures forall x :: x in InsertId(ids, id) <==> x == id || x in ids
  {
    if ids != [] && ids[0] < id {
      InsertIdSorted(ids[1..], id);
      assert ids == [ids[0]] + ids[1..];
    }
  }

  lemma {:induction false} StoreIdsSorted(lines: seq<Line>)
    ensures Ascending(StoreIds(lines))
    ensures forall l :: l in lines ==> l.store in StoreIds(lines)
    ensures lines != [] ==> StoreIds(lines) != []
  {
    if lines != [] {
      StoreIdsSorted(lines[1..]);
      InsertIdSorted(StoreIds(lines[1..]), lines[0].store);
      assert lines == [lines[0]] + lines[1..];
    }
  }

  function LinesIn(lines: seq<Line>, ids: seq<nat>): seq<Line> {
    if lines == [] then []
    else (if lines[0].store in ids then [lines[0]] else []) + LinesIn(lines[1..], ids)
  }

  function AllItems(os: seq<StoreOrder>): seq<Line> {
    if os == [] then [] else os[0].items + AllItems(os[1..])
  }

  lemma {:induction false} LinesInSplit(lines: seq<Line>, id: nat, rest: seq<nat>)
    requires id !in rest
    ensures multiset(LinesIn(lines, [id] + rest)) == multiset(LinesOf(lines, id)) + multiset(LinesIn(lines, rest))
  {
    if lines != [] {
      LinesInSplit(lines[1..], id, rest);
      if lines[0].store == id {
        assert LinesIn(lines, rest) == LinesIn(lines[1..], rest);
      } else {
        assert LinesOf(lines, id) == LinesOf(lines[1..], id);
        if lines[0].store !in rest {
          assert LinesIn(lines, rest) == LinesIn(lines[1..], rest);
          assert LinesIn(lines, [id] + rest) == LinesIn(lines[1..], [id] + rest);
        }
      }
    }
  }

  lemma {:induction false} SumLinesInSplit(lines: seq<Line>, id: nat, rest: seq<nat>)
    requires id !in rest
    ensures SumLines(LinesIn(lines, [id] + rest)) == SumLines(LinesOf(lines, id)) + SumLines(LinesIn(lines, rest))
  {
    if lines != [] {
      SumLinesInSplit(lines[1..], id, rest);
      if lines[0].store == id {
        assert LinesIn(lines, rest) == LinesIn(lines[1..], rest);
        SumLinesPrepend(lines[0], LinesIn(lines[1..], [id] + rest));
        SumLinesPrepend(lines[0], LinesOf(lines[1..], id));
      } else {
        assert LinesOf(lines, id) == LinesOf(lines[1..], id);
        if lines[0].store in rest {
          SumLinesPrepend(lines[0], LinesIn(lines[1..], [id] + rest));
          SumLinesPrepend(lines[0], LinesIn(lines[1..], rest));
        } else {
          assert LinesIn(lines, rest) == LinesIn(lines[1..], rest);
          assert LinesIn(lines, [id] + rest) == LinesIn(lines[1..], [id] + rest);
        }
      }
    }
  }

  lemma SumLinesPrepend(l: Line, ls: seq<Line>)
    ensures SumLines([l] + ls) == l.unitPrice * l.quantity + SumLines(ls)
  {
    assert ([l] + ls)[1..] == ls;
  }

  lemma {:induction false} LinesInAll(lines: seq<Line>, ids: seq<nat>)
    requires forall l :: l in lines ==> l.store in ids
    ensures LinesIn(lines, ids) == lines
  {
    if lines != [] {
      LinesInAll(lines[1..], ids);
      assert lines == [lines[0]] + lines[1..];
    }
  }

  lemma {:induction false} LinesInNone(lines: seq<Line>)
    ensures LinesIn(lines, []) == []
  {
    if lines != [] {
      LinesInNone(lines[1..]);
    }
  }

  lemma {:induction false} OrdersCover(lines: seq<Line>, ids: seq<nat>, fee: nat)
    requires Ascending(ids)
    ensures multiset(AllItems(OpenOrders(lines, ids, fee))) == multiset(LinesIn(lines, ids))
    ensures SumSubtotals(OpenOrders(lines, ids, fee)) == SumLines(LinesIn(lines, ids))
  {
    if ids == [] {
      LinesInNone(lines);
    } else {
      OrdersCover(lines, ids[1..], fee);
      LinesInSplit(lines, ids[0], ids[1..]);
      SumLinesInSplit(lines, ids[0], ids[1..]);
      assert [ids[0]] + ids[1..] == ids;
      hide LinesIn, LinesOf, SumLines;
      assert OpenOrders(lines, ids, fee)[1..] == OpenOrders(lines, ids[1..], fee);
    }
  }

  lemma {:induction false} SameGoodsSameItems(a: seq<StoreOrder>, b: seq<StoreOrder>)
    requires SameGoods(a, b)
    ensures AllItems(a) == AllItems(b) && SumSubtotals(a) == SumSubtotals(b)
  {
    if a != [] {
      SameGoodsSameItems(a[1..], b[1..]);
    }
  }

  /** Figures that are consistent order by order are consistent for the whole quote. */
  lemma {:induction false} TotalsAddUp(os: seq<StoreOrder>, fee: nat)
    requires AllPriced(os, fee)
    ensures SumTotals(os) == SumSubtotals(os) + fee * |os| - SumDiscounts(os)
  {
    if os != [] {
      TotalsAddUp(os[1..], fee);
      Distribute(fee, |os| - 1, 1);
    }
  }

  /** Discounting keeps goods, fees and consistency, whatever voucher and coupon are applied. */
  lemma DiscountsKeepGoods(plain: seq<StoreOrder>, t: Terms, gross: nat, fee: nat)
    requires forall i :: 0 <= i < |plain| ==>
      && plain[i].total == plain[i].subtotal + plain[i].shippingFee && plain[i].shippingFee == fee
      && plain[i].discount == 0 && plain[i].shippingDiscount == 0
    ensures var v := Vouched(plain, t.voucher, gross, t.now);
            v.Ok? ==> var c := Couponed(v.value, t.coupon, gross, t.now);
            c.Ok? ==> SameGoods(plain, c.value) && AllPriced(c.value, fee)
  {
    var v := Vouched(plain, t.voucher, gross, t.now);
    if v.Ok? && t.coupon.Some? {
      var c := Couponed(v.value, t.coupon, gross, t.now);
      if c.Ok? {
        var worth := CouponWorth(t.coupon.value, gross, SumTotals(v.value)).value;
        SpreadSound(v.value, worth, gross, worth);
      }
    }
  }

  /** Discounts never exceed the goods and the fees, and the figures of the quote add up. */
  lemma DiscountsAreCovered(plain: seq<StoreOrder>, t: Terms, fee: nat)
    requires forall i :: 0 <= i < |plain| ==>
      && plain[i].total == plain[i].subtotal + plain[i].shippingFee && plain[i].shippingFee == fee
      && plain[i].discount == 0 && plain[i].shippingDiscount == 0
    ensures var gross := SumSubtotals(plain);
            var v := Vouched(plain, t.voucher, gross, t.now);
            v.Ok? ==> var c := Couponed(v.value, t.coupon, gross, t.now);
            c.Ok? ==> SumTotals(c.value) == gross + fee * |plain| - SumDiscounts(c.value)
  {
    var gross := SumSubtotals(plain);
    DiscountsKeepGoods(plain, t, gross, fee);
    var v := Vouched(plain, t.voucher, gross, t.now);
    if v.Ok? {
      var c := Couponed(v.value, t.coupon, gross, t.now);
      if c.Ok? {
        SameGoodsSameItems(plain, c.value);
        TotalsAddUp(c.value, fee);
      }
    }
  }

  /** Grouping partitions the cart: nothing is lost, duplicated or put in another store's order. */
  lemma GroupingPartitions(lines: seq<Line>, fee: nat)
    ensures var os := OpenOrders(lines, StoreIds(lines), fee);
            && (lines != [] ==> os != [])
            && (forall i, j :: 0 <= i < j < |os| ==> os[i].store < os[j].store)
            && multiset(AllItems(os)) == multiset(lines)
            && SumSubtotals(os) == SumLines(lines)
  {
    var ids := StoreIds(lines);
    StoreIdsSorted(lines);
    OrdersCover(lines, ids, fee);
    LinesInAll(lines, ids);
  }

  lemma QuotedOrders(lines: seq<Line>, fee: nat, t: Terms)
    requires QuoteLines(lines, fee, t).Ok?
    ensures var q := QuoteLines(lines, fee, t).value;
            && SameGoods(OpenOrders(lines, StoreIds(lines), fee), q.orders)
            && AllPriced(q.orders, fee)
            && q.subtotal == SumSubtotals(q.orders)
            && q.total == SumTotals(q.orders)
  {
    var q := QuoteLines(lines, fee, t).value;
    var plain := OpenOrders(lines, StoreIds(lines), fee);
    DiscountsKeepGoods(plain, t, SumSubtotals(plain), fee);
    DiscountsAreCovered(plain, t, fee);
    SameGoodsSameItems(plain, q.orders);
  }

  /** What a quote promises about the cart lines it was computed from. */
  ghost predicate Faithful(q: Quote, lines: seq<Line>) {
    && (forall i :: 0 <= i < |q.orders| ==>
      && q.orders[i].items == LinesOf(lines, q.orders[i].store)
      && q.orders[i].subtotal == SumLines(q.orders[i].items)
      && Priced(q.orders[i]))
    && (forall i, j :: 0 <= i < j < |q.orders| ==> q.orders[i].store < q.orders[j].store)
    && multiset(AllItems(q.orders)) == multiset(lines)
    && q.subtotal == SumLines(lines)
    && q.total == SumTotals(q.orders)
  }

  lemma LinesAreFaithful(lines: seq<Line>, fee: nat, t: Terms)
    requires QuoteLines(lines, fee, t).Ok?
    ensures Faithful(QuoteLines(lines, fee, t).value, lines)
    ensures lines != [] ==> QuoteLines(lines, fee, t).value.orders != []
  {
    var q := QuoteLines(lines, fee, t).value;
    var plain := OpenOrders(lines, StoreIds(lines), fee);
    QuotedOrders(lines, fee, t);
    GroupingPartitions(lines, fee);
    SameGoodsSameItems(plain, q.orders);
  }

  /**
   For every cart, voucher and coupon: each cart line lands in exactly one order, that of
   its store; each order's total is its subtotal and fee less its discounts and never
   negative; the quote's figures are the sums over its orders.
   */
  lemma QuoteIsSound(rows: seq<CartRow>, t: Terms)
    requires QuoteCart(rows, t).Ok?
    ensures QuoteCart(rows, t).value.orders != []
    ensures PriceRows(rows).Ok? && Faithful(QuoteCart(rows, t).value, PriceRows(rows).value)
  {
    LinesAreFaithful(PriceRows(rows).value, if t.delivery then t.fee else 0, t);
  }
}
