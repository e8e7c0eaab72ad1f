/** Reserving and returning the lines of an order move exactly their quantities. */
module StockMoves {
  import opened Outcome
  import opened Shop
  import opened Invariant
  import Q = Quote

  ghost predicate Shelved(ps: map<nat, Product>) {
    forall p :: p in ps ==> ps[p].stock >= 0
  }

  /** The same products are listed, each with its stock changed by what `lines` say of it. */
  ghost predicate Shifted(ps: map<nat, Product>, after: map<nat, Product>, lines: seq<Q.Line>, sign: int) {
    && after.Keys == ps.Keys
    && (forall p :: Stock(after, p) == Stock(ps, p) + (if p in ps then sign * LineQuantity(lines, p) else 0))
  }

  /** Returning succeeds for known products and gives back every unit, no more. */
  lemma {:induction false} ReturnLinesEffect(ps: map<nat, Product>, lines: seq<Q.Line>)
    requires LinesKnown(lines, ps)
    ensures ReturnLines(ps, lines).Ok?
    ensures Shifted(ps, ReturnLines(ps, lines).value, lines, 1)
    ensures Shelved(ps) ==> Shelved(ReturnLines(ps, lines).value)
  {
    if lines != [] {
      var next := ReturnLine(ps, lines[0]).value;
      ReturnLinesEffect(next, lines[1..]);
      var after := ReturnLines(next, lines[1..]).value;
      forall p ensures Stock(after, p) == Stock(ps, p) + (if p in ps then LineQuantity(lines, p) else 0) {
        assert Stock(after, p) == Stock(next, p) + (if p in next then 1 * LineQuantity(lines[1..], p) else 0);
      }
    }
  }

  /** A reservation that succeeds takes every unit from stock that was there. */
  lemma {:induction false} ReserveLinesEffect(ps: map<nat, Product>, lines: seq<Q.Line>)
    requires ReserveLines(ps, lines).Ok?
    ensures LinesKnown(lines, ps)
    ensures Shifted(ps, ReserveLines(ps, lines).value, lines, -1)
    ensures Shelved(ps) ==> Shelved(ReserveLines(ps, lines).value)
  {
    if lines != [] {
      var next := ReserveLine(ps, lines[0]).value;
      ReserveLinesEffect(next, lines[1..]);
      var after := ReserveLines(next, lines[1..]).value;
      forall p ensures Stock(after, p) == Stock(ps, p) + (if p in ps then -1 * LineQuantity(lines, p) else 0) {
        assert Stock(after, p) == Stock(next, p) + (if p in next then -1 * LineQuantity(lines[1..], p) else 0);
      }
    }
  }

  lemma {:induction false} UnknownHasNoLines(lines: seq<Q.Line>, ps: map<nat, Product>, p: nat)
    requires LinesKnown(lines, ps) && p !in ps
    ensures LineQuantity(lines, p) == 0
  {
    if lines != [] {
      assert lines[0].product in ps;
      UnknownHasNoLines(lines[1..], ps, p);
    }
  }

  /** Each line is on sale at the price it was quoted. */
  ghost predicate OnSale(ps: map<nat, Product>, lines: seq<Q.Line>) {
    forall i :: 0 <= i < |lines| ==>
      lines[i].product in ps && ps[lines[i].product].sellable && ps[lines[i].product].price == lines[i].unitPrice
  }

  /** The shelf covers what the lines ask of each product together. */
  ghost predicate Covered(ps: map<nat, Product>, lines: seq<Q.Line>) {
    forall p :: p in ps ==> LineQuantity(lines, p) <= ps[p].stock
  }

  /** A reservation succeeds exactly when everything is on sale as quoted and the shelf covers it all. */
  lemma {:induction false} ReservationDecided(ps: map<nat, Product>, lines: seq<Q.Line>)
    requires Shelved(ps)
    ensures ReserveLines(ps, lines).Ok? <==> OnSale(ps, lines) && Covered(ps, lines)
  {
    if lines != [] {
      var l, rest := lines[0], lines[1..];
      if ReserveLine(ps, l).Ok? {
        var next := ReserveLine(ps, l).value;
        ReservationDecided(next, rest);
        SaleShifts(ps, next, lines);
        forall p | p in ps
          ensures LineQuantity(lines, p) <= ps[p].stock <==> LineQuantity(rest, p) <= next[p].stock
        {
        }
      } else if l.product in ps {
        assert LineQuantity(lines, l.product) >= l.quantity;
      }
    }
  }

  lemma SaleShifts(ps: map<nat, Product>, next: map<nat, Product>, lines: seq<Q.Line>)
    requires lines != [] && ReserveLine(ps, lines[0]) == Ok(next)
    ensures OnSale(next, lines[1..]) <==> OnSale(ps, lines)
  {
    if OnSale(next, lines[1..]) {
      forall i | 0 <= i < |lines|
        ensures lines[i].product in ps && ps[lines[i].product].sellable && ps[lines[i].product].price == lines[i].unitPrice
      {
        if i > 0 {
          assert lines[i] == lines[1..][i - 1];
        }
      }
    }
  }
}
