/** A cart on which spreading a coupon really loses a kobo, taken through the whole quote. */
module Residue {
  import opened Outcome
  import opened Money
  import opened Quote

  const FOUR_KOBO_OFF := Coupon(true, 0, None, 0, None, 0, false, None, Some(4), None)

  const COLLECTED := Terms(false, false, 0, None, Some(FOUR_KOBO_OFF), 1)

  /** One item, the only one of its store. */
  function Item(store: nat, price: nat): CartRow {
    CartRow(store, store, store, 1, price, None, true, 1)
  }

  function Priced1(store: nat, price: nat): Line {
    Line(store, store, store, 1, price)
  }

  function Sold(store: nat, price: nat, off: nat): StoreOrder
    requires off <= price
  {
    StoreOrder(store, [Priced1(store, price)], price, 0, off, 0, price - off)
  }

  /** Four stores, the last of them giving its goods away. */
  const CART := [Item(1, 2), Item(2, 2), Item(3, 2), Item(4, 0)]

  const LINES := [Priced1(1, 2), Priced1(2, 2), Priced1(3, 2), Priced1(4, 0)]

  const PLAIN := [Sold(1, 2, 0), Sold(2, 2, 0), Sold(3, 2, 0), Sold(4, 0, 0)]

  const SPREAD := [Sold(1, 2, 1), Sold(2, 2, 1), Sold(3, 2, 1), Sold(4, 0, 0)]

  // ----- one element at a time -----

  lemma PriceCons(r: CartRow, tail: seq<CartRow>)
    requires PriceRow(r).Ok? && PriceRows(tail).Ok?
    ensures PriceRows([r] + tail) == Ok([PriceRow(r).value] + PriceRows(tail).value)
  {
    assert ([r] + tail)[1..] == tail;
  }

  lemma GroupCons(l: Line, tail: seq<Line>, store: nat)
    ensures StoreIds([l] + tail) == InsertId(StoreIds(tail), l.store)
    ensures LinesOf([l] + tail, store) == (if l.store == store then [l] else []) + LinesOf(tail, store)
  {
    assert ([l] + tail)[1..] == tail;
  }

  lemma InsertCons(id: nat, ids: seq<nat>)
    requires ids == [] || id < ids[0]
    ensures InsertId(ids, id) == [id] + ids
  {
  }

  lemma SumsCons(o: StoreOrder, tail: seq<StoreOrder>)
    ensures SumSubtotals([o] + tail) == o.subtotal + SumSubtotals(tail)
    ensures SumTotals([o] + tail) == o.total + SumTotals(tail)
    ensures SumDiscounts([o] + tail) == o.discount + o.shippingDiscount + SumDiscounts(tail)
  {
    assert ([o] + tail)[1..] == tail;
  }

  lemma SpreadCons(o: StoreOrder, tail: seq<StoreOrder>, coupon: nat, gross: nat, remaining: nat)
    ensures var a := Share(o, coupon, gross, remaining, tail == []);
            var rest := Spread(tail, coupon, gross, remaining - a);
            Spread([o] + tail, coupon, gross, remaining) == ([Discounted(o, a)] + rest.0, rest.1)
  {
    assert ([o] + tail)[1..] == tail;
  }

  // ----- the quote of the cart -----

  lemma CartIsPriced()
    ensures PriceRows(CART) == Ok(LINES)
  {
    var r1, r2, r3, r4 := Item(1, 2), Item(2, 2), Item(3, 2), Item(4, 0);
    assert CART == [r1] + ([r2] + ([r3] + ([r4] + [])));
    PriceCons(r4, []);
    PriceCons(r3, [r4] + []);
    PriceCons(r2, [r3] + ([r4] + []));
    PriceCons(r1, [r2] + ([r3] + ([r4] + [])));
    assert LINES == [Priced1(1, 2)] + ([Priced1(2, 2)] + ([Priced1(3, 2)] + ([Priced1(4, 0)] + [])));
  }

  lemma CartIsGrouped()
    ensures StoreIds(LINES) == [1, 2, 3, 4]
    ensures forall s: nat :: 1 <= s <= 4 ==> LinesOf(LINES, s) == [LINES[s - 1]]
  {
    var l1, l2, l3, l4 := Priced1(1, 2), Priced1(2, 2), Priced1(3, 2), Priced1(4, 0);
    assert LINES == [l1] + ([l2] + ([l3] + ([l4] + [])));
    forall s: nat
      ensures StoreIds(LINES) == [1, 2, 3, 4] && (1 <= s <= 4 ==> LinesOf(LINES, s) == [LINES[s - 1]])
    {
      GroupCons(l4, [], s);
      GroupCons(l3, [l4] + [], s);
      GroupCons(l2, [l3] + ([l4] + []), s);
      GroupCons(l1, [l2] + ([l3] + ([l4] + [])), s);
      InsertCons(4, []);
      InsertCons(3, [4] + []);
      InsertCons(2, [3] + ([4] + []));
      InsertCons(1, [2] + ([3] + ([4] + [])));
    }
  }

  lemma OrdersAreOpened()
    ensures OpenOrders(LINES, StoreIds(LINES), 0) == PLAIN
  {
    CartIsGrouped();
    hide StoreIds, LinesOf;
    var os := OpenOrders(LINES, [1, 2, 3, 4], 0);
    forall i | 0 <= i < 4 ensures os[i] == PLAIN[i] {
      var l := LINES[i];
      assert LinesOf(LINES, i + 1) == [l];
      assert SumLines([l]) == l.unitPrice;
    }
  }

  lemma OrdersAddUp()
    ensures SumSubtotals(PLAIN) == 6 && SumTotals(PLAIN) == 6 && SumDiscounts(SPREAD) == 3
  {
    var a, b, c, d := Sold(1, 2, 0), Sold(2, 2, 0), Sold(3, 2, 0), Sold(4, 0, 0);
    assert PLAIN == [a] + ([b] + ([c] + ([d] + [])));
    SumsCons(d, []);
    SumsCons(c, [d] + []);
    SumsCons(b, [c] + ([d] + []));
    SumsCons(a, [b] + ([c] + ([d] + [])));
    var e, f, g := Sold(1, 2, 1), Sold(2, 2, 1), Sold(3, 2, 1);
    assert SPREAD == [e] + ([f] + ([g] + ([d] + [])));
    SumsCons(g, [d] + []);
    SumsCons(f, [g] + ([d] + []));
    SumsCons(e, [f] + ([g] + ([d] + [])));
  }

  /** A third of four kobo is one and a bit, three times over; the last store has nothing to take it from. */
  lemma OneKoboIsLeft()
    ensures Spread(PLAIN, 4, 6, 4) == (SPREAD, 1)
  {
    var a, b, c, d := Sold(1, 2, 0), Sold(2, 2, 0), Sold(3, 2, 0), Sold(4, 0, 0);
    assert PLAIN == [a] + ([b] + ([c] + ([d] + [])));
    HalfUpUnique(8, 6, 1);
    hide HalfUp;
    SpreadCons(a, [b] + ([c] + ([d] + [])), 4, 6, 4);
    SpreadCons(b, [c] + ([d] + []), 4, 6, 3);
    SpreadCons(c, [d] + [], 4, 6, 2);
    SpreadCons(d, [], 4, 6, 1);
    assert Spread([], 4, 6, 1) == ([], 1);
    hide Spread;
    assert SPREAD == [Sold(1, 2, 1)] + ([Sold(2, 2, 1)] + ([Sold(3, 2, 1)] + ([d] + [])));
  }

  lemma CouponIsApplied()
    ensures Couponed(PLAIN, Some(FOUR_KOBO_OFF), 6, 1) == Ok(SPREAD)
  {
    HalfUpUnique(40000, 10000, 4);
    OrdersAddUp();
    OneKoboIsLeft();
    hide HalfUp, SumTotals, SumSubtotals, SumDiscounts, Spread;
    assert CouponWorth(FOUR_KOBO_OFF, 6, 6) == Ok(4);
  }

  lemma LinesAreQuoted()
    ensures QuoteLines(LINES, 0, COLLECTED) == Ok(Quote(6, 0, 3, 3, SPREAD))
  {
    OrdersAreOpened();
    OrdersAddUp();
    CouponIsApplied();
    hide OpenOrders, StoreIds, SumSubtotals, SumTotals, SumDiscounts, Couponed;
    assert COLLECTED.voucher == None && COLLECTED.coupon == Some(FOUR_KOBO_OFF) && COLLECTED.now == 1;
    assert Vouched(PLAIN, None, 6, 1) == Ok(PLAIN);
  }

  /** Of a coupon of four kobo on six kobo of goods only three are taken off. */
  lemma ResidueIsReal()
    ensures QuoteCart(CART, COLLECTED).Ok?
    ensures var q := QuoteCart(CART, COLLECTED).value; q.subtotal == 6 && q.discount == 3 && q.total == 3
  {
    CartIsPriced();
    LinesAreQuoted();
    hide PriceRows, QuoteLines;
    assert forall i :: 0 <= i < |CART| ==> Available(CART[i]);
  }
}
