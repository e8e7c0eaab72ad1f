/** The status table of an order and the history rows written at every change. */
module OrderLife {
  import opened Outcome

  datatype Status =
    | OrderReceived | Confirmed | Preparing | ReadyForPickup | RiderAssigned
    | OutForDelivery | PickedUp | Delivered | Completed | Cancelled

  function Successors(s: Status): set<Status> {
    match s
    case OrderReceived => {Confirmed, Cancelled}
    case Confirmed => {Preparing, Cancelled}
    case Preparing => {ReadyForPickup, RiderAssigned, Cancelled}
    case ReadyForPickup => {PickedUp, RiderAssigned, Cancelled}
    case RiderAssigned => {PickedUp, OutForDelivery, Cancelled}
    case OutForDelivery => {PickedUp, Delivered, Cancelled}
    case PickedUp => {OutForDelivery, Delivered, Completed}
    case Delivered => {Completed}
    case Completed => {}
    case Cancelled => {}
  }

  predicate CanTransition(from: Status, to: Status) {
    to in Successors(from)
  }

  const STORE_MANAGED: set<Status> := {Preparing, ReadyForPickup}

  const ADMIN_MANAGED: set<Status> :=
    {Preparing, ReadyForPickup, RiderAssigned, PickedUp, OutForDelivery, Delivered, Completed}

  /** The table, plus the one move that packing makes outside it. */
  predicate Edge(from: Status, to: Status) {
    CanTransition(from, to) || (from == Confirmed && to == ReadyForPickup)
  }

  datatype Row = Row(from: Option<Status>, to: Status)

  const OPENING := [Row(None, OrderReceived)]

  /** The rows form one connected walk from ORDER_RECEIVED to the current status. */
  ghost predicate Walk(h: seq<Row>, current: Status) {
    && |h| > 0
    && h[0] == Row(None, OrderReceived)
    && h[|h| - 1].to == current
    && (forall i :: 0 < i < |h| ==> h[i].from == Some(h[i - 1].to) && Edge(h[i - 1].to, h[i].to))
  }

  /** Payment confirms an order or a release cancels it: the second row says which. */
  predicate WasConfirmed(h: seq<Row>) {
    |h| > 1 && h[1].to == Confirmed
  }

  lemma WalkExtends(h: seq<Row>, from: Status, to: Status)
    requires Walk(h, from) && Edge(from, to)
    ensures Walk(h + [Row(Some(from), to)], to)
  {
    var g := h + [Row(Some(from), to)];
    forall i | 0 < i < |g| ensures g[i].from == Some(g[i - 1].to) && Edge(g[i - 1].to, g[i].to) {
      if i < |h| {
        assert g[i] == h[i] && g[i - 1] == h[i - 1];
      }
    }
  }

  lemma WalkStep(h: seq<Row>, current: Status, i: nat)
    requires Walk(h, current) && i + 1 < |h|
    ensures Edge(h[i].to, h[i + 1].to)
  {
  }

  /** COMPLETED and CANCELLED end every walk: nothing is ever recorded after them. */
  lemma TerminalIsLast(h: seq<Row>, current: Status, i: nat)
    requires Walk(h, current) && i < |h| && h[i].to in {Completed, Cancelled}
    ensures i == |h| - 1 && current == h[i].to
  {
    if i < |h| - 1 {
      WalkStep(h, current, i);
    }
  }

  /** A walk never returns to ORDER_RECEIVED, so an unpaid order has its opening row alone. */
  lemma ReceivedIsFirst(h: seq<Row>)
    requires Walk(h, OrderReceived)
    ensures h == OPENING
  {
    if |h| > 1 {
      WalkStep(h, OrderReceived, |h| - 2);
    }
  }

  /** An order beyond ORDER_RECEIVED was confirmed, unless its release is all that ever happened to it. */
  lemma ConfirmedOrReleased(h: seq<Row>, current: Status)
    requires Walk(h, current) && current != OrderReceived
    ensures WasConfirmed(h) || (|h| == 2 && current == Cancelled)
  {
    WalkStep(h, current, 0);
    if h[1].to == Cancelled {
      TerminalIsLast(h, current, 1);
    }
  }
}
