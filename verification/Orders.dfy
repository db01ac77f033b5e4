/**
 * The order entity: pricing at creation, and the status transitions every handler goes through.
 * Identifiers are numbers, and 0 is the blank identifier.
 */
module Orders {
  import opened Common
  import Text

  type Id = nat

  const PAYMENT_TTL := 300

  datatype Status = Pending | Paid | InTransit | Fulfilled | Canceled

  datatype OrderError = InvalidOrder | InvalidTransition | PaymentAmountMismatch | InvalidShipment

  datatype Line = Line(skuId: string, sku: string, quantity: int, unitPrice: int)

  /** What the customer owes. It is fixed when the order is created. */
  datatype Bill = Bill(subtotal: int, discount: int, shipping: int, total: int)

  /** The stored row of an order; its lines are rows of their own. */
  datatype Row = Row(status: Status, reservation: Id, payment: Id, bill: Bill, due: int)

  datatype NewOrderRow = NewOrderRow(row: Row, lines: seq<Line>)

  // ---------------------------------------------------------------- pricing

  function Subtotal(lines: seq<Line>): int {
    if lines == [] then 0
    else Subtotal(lines[..|lines| - 1]) + lines[|lines| - 1].quantity * lines[|lines| - 1].unitPrice
  }

  lemma SubtotalAppend(lines: seq<Line>, l: Line)
    ensures Subtotal(lines + [l]) == Subtotal(lines) + l.quantity * l.unitPrice
  {
    assert (lines + [l])[..|lines|] == lines;
  }

  /** The subtotal adds quantity times price, line by line, however the lines are grouped. */
  lemma {:induction false} SubtotalAdds(a: seq<Line>, b: seq<Line>)
    ensures Subtotal(a + b) == Subtotal(a) + Subtotal(b)
    ensures |b| == 1 ==> Subtotal(b) == b[0].quantity * b[0].unitPrice
  {
    NothingCostsNothing();
    hide Subtotal;
    if b == [] {
      assert a + b == a;
    } else {
      var init, last := b[..|b| - 1], b[|b| - 1];
      SubtotalAdds(a, init);
      assert b == init + [last] && a + b == (a + init) + [last];
      SubtotalAppend(init, last);
      SubtotalAppend(a + init, last);
      assert |b| == 1 ==> init == [];
    }
  }

  lemma NothingCostsNothing()
    ensures Subtotal([]) == 0
  {
  }

  function NormalizeLine(up: char -> char, l: Line): Line {
    l.(skuId := Text.TrimSpace(l.skuId), sku := Text.MapRunes(up, Text.TrimSpace(l.sku)))
  }

  predicate Sellable(l: Line) {
    (l.sku != "" || l.skuId != "") && l.quantity > 0 && l.unitPrice >= 0
  }

  function Normalized(up: char -> char, lines: seq<Line>): (out: seq<Line>)
    ensures |out| == |lines|
    ensures forall i :: 0 <= i < |lines| ==> out[i] == NormalizeLine(up, lines[i])
  {
    seq(|lines|, i requires 0 <= i < |lines| => NormalizeLine(up, lines[i]))
  }

  /** A bill these lines may carry: every line sellable, goods never below zero, delivery always paid. */
  ghost predicate ValidBill(lines: seq<Line>, b: Bill) {
    lines != [] && (forall i :: 0 <= i < |lines| ==> Sellable(lines[i]))
    && b.subtotal == Subtotal(lines)
    && 0 <= b.discount <= b.subtotal && 0 <= b.shipping
    && b.total == b.subtotal - b.discount + b.shipping
  }

  /** The bill NewOrder puts on an order, when it accepts the input at all. */
  function BillFor(up: char -> char, lines: seq<Line>, discount: int, shipping: int): Option<Bill> {
    var kept := Normalized(up, lines);
    if (exists i :: 0 <= i < |kept| && !Sellable(kept[i])) || kept == [] then None
    else if discount < 0 || discount > Subtotal(kept) || shipping < 0 then None
    else Some(Bill(Subtotal(kept), discount, shipping, Subtotal(kept) - discount + shipping))
  }

  /** NewOrder accepts exactly the inputs that have a valid bill, and such an order never costs less than delivery. */
  lemma BillForIsValid(up: char -> char, lines: seq<Line>, discount: int, shipping: int)
    ensures match BillFor(up, lines, discount, shipping)
            case Some(b) => ValidBill(Normalized(up, lines), b) && b.discount == discount
                            && b.total >= b.shipping == shipping
            case None => forall b :: ValidBill(Normalized(up, lines), b) ==>
                                       b.discount != discount || b.shipping != shipping
  {
  }

  /** A line as a customer may order it: some identifier that is not blank, at least one piece, no negative price. */
  ghost predicate Orderable(l: Line) {
    (!Text.Blank(l.sku) || !Text.Blank(l.skuId)) && l.quantity >= 1 && l.unitPrice >= 0
  }

  lemma OrderableLines(up: char -> char, l: Line)
    ensures Sellable(NormalizeLine(up, l)) <==> Orderable(l)
  {
    Text.TrimmedAway(l.sku);
    Text.TrimmedAway(l.skuId);
    hide Text.TrimSpace;
  }

  lemma {:induction false} NormalizingKeepsSubtotal(up: char -> char, lines: seq<Line>)
    ensures Subtotal(Normalized(up, lines)) == Subtotal(lines)
  {
    if lines != [] {
      NormalizingKeepsSubtotal(up, lines[..|lines| - 1]);
      assert Normalized(up, lines)[..|lines| - 1] == Normalized(up, lines[..|lines| - 1]);
    }
  }

  /** Which orders are accepted, and what they cost, from the lines as they were sent. */
  lemma WhatAnOrderCosts(up: char -> char, lines: seq<Line>, discount: int, shipping: int)
    ensures BillFor(up, lines, discount, shipping).Some? <==>
            lines != [] && (forall i :: 0 <= i < |lines| ==> Orderable(lines[i]))
            && 0 <= discount <= Subtotal(lines) && shipping >= 0
    ensures var bill := BillFor(up, lines, discount, shipping);
      bill.Some? ==> bill.value.total == Subtotal(lines) - discount + shipping
  {
    NormalizingKeepsSubtotal(up, lines);
    forall i | 0 <= i < |lines| ensures Sellable(Normalized(up, lines)[i]) <==> Orderable(lines[i]) {
      OrderableLines(up, lines[i]);
    }
    hide Subtotal, Sellable, Orderable, NormalizeLine;
  }

  method NewOrder(up: char -> char, id: Id, customer: Id, reservation: Id, items: seq<Line>,
                  discount: int, shipping: int, now: int)
    returns (r: Result<NewOrderRow, OrderError>)
    ensures var bill := BillFor(up, items, discount, shipping);
            r == if id == 0 || customer == 0 || reservation == 0 || bill == None then Err(InvalidOrder)
                 else Ok(NewOrderRow(Row(Pending, reservation, 0, bill.value, now + PAYMENT_TTL),
                                     Normalized(up, items)))
  {
    hide NormalizeLine;
    if id == 0 || customer == 0 || reservation == 0 {
      return Err(InvalidOrder);
    }
    var copied: seq<Line> := [];
    var subtotal := 0;
    for i := 0 to |items|
      invariant copied == Normalized(up, items)[..i]
      invariant forall k :: 0 <= k < i ==> Sellable(copied[k])
      invariant subtotal == Subtotal(copied)
    {
      var item := NormalizeLine(up, items[i]);
      if !Sellable(item) {
        assert item == Normalized(up, items)[i];
        return Err(InvalidOrder);
      }
      SubtotalAppend(copied, item);
      subtotal := subtotal + item.quantity * item.unitPrice;
      copied := copied + [item];
    }
    assert copied == Normalized(up, items);
    if |copied| == 0 || discount < 0 || discount > subtotal || shipping < 0 {
      return Err(InvalidOrder);
    }
    return Ok(NewOrderRow(Row(Pending, reservation, 0,
                              Bill(subtotal, discount, shipping, subtotal - discount + shipping),
                              now + PAYMENT_TTL), copied));
  }

  // ------------------------------------------------------------ transitions

  function PaidRow(row: Row, payment: Id, amount: int): Result<Row, OrderError> {
    if row.status != Pending then Err(InvalidTransition)
    else if payment == 0 then Err(InvalidOrder)
    else if amount != row.bill.total then Err(PaymentAmountMismatch)
    else Ok(row.(status := Paid, payment := payment))
  }

  const CARRIERS := {"cj", "hanjin", "lotte", "logen", "epost", "other"}

  datatype Tracking = Tracking(carrier: string, number: string, note: string)

  datatype Shipment = Shipment(shippedBy: string, tracking: Tracking)

  /** NormalizeShipmentTracking; lower is the rune table of strings.ToLower. */
  function NormalTracking(lower: char -> char, given: Tracking): Option<Tracking> {
    var carrier := Text.MapRunes(lower, Text.TrimSpace(given.carrier));
    var number, note := Text.TrimSpace(given.number), Text.TrimSpace(given.note);
    if carrier !in CARRIERS || number == "" || |number| > 64 then None
    else if carrier != "other" then Some(Tracking(carrier, number, ""))
    else if note == "" || |note| > 120 then None
    else Some(Tracking(carrier, number, note))
  }

  /** Which tracking is accepted, and that it is kept, trimmed and with its carrier in lower case. */
  lemma AcceptedTracking(lower: char -> char, given: Tracking)
    ensures var carrier := Text.MapRunes(lower, Text.TrimSpace(given.carrier));
      var number, note := Text.TrimSpace(given.number), Text.TrimSpace(given.note);
      var accepted := NormalTracking(lower, given);
      && (accepted.Some? <==> carrier in ["cj", "hanjin", "lotte", "logen", "epost", "other"]
                              && !Text.Blank(given.number) && |number| <= 64
                              && (carrier == "other" ==> !Text.Blank(given.note) && |note| <= 120))
      && (accepted.Some? ==>
            accepted.value == Tracking(carrier, number, if carrier == "other" then note else ""))
  {
    Text.TrimmedAway(given.number);
    Text.TrimmedAway(given.note);
    hide Text.TrimSpace, Text.MapRunes;
  }

  /** What Ship itself refuses, before it looks at lengths or letter case. */
  function ShipmentRefusal(shippedBy: string, t: Tracking): Option<OrderError> {
    if Text.TrimSpace(shippedBy) == "" then Some(InvalidOrder)
    else if t.carrier == "" || t.number == "" || t.carrier !in CARRIERS then Some(InvalidShipment)
    else if t.carrier == "other" && Text.TrimSpace(t.note) == "" then Some(InvalidShipment)
    else None
  }

  /** What Ship stores: a note is kept only for a carrier outside the list. */
  function ShipmentFor(shippedBy: string, t: Tracking): Shipment {
    Shipment(Text.TrimSpace(shippedBy), t.(note := if t.carrier == "other" then Text.TrimSpace(t.note) else ""))
  }

  /** Tracking that has been normalized is stored as it is and cannot be refused once the stock is committed. */
  lemma NormalTrackingShips(lower: char -> char, given: Tracking, shippedBy: string)
    requires NormalTracking(lower, given).Some? && Text.TrimSpace(shippedBy) != ""
    ensures var t := NormalTracking(lower, given).value;
      ShipmentRefusal(shippedBy, t) == None && ShipmentFor(shippedBy, t) == Shipment(Text.TrimSpace(shippedBy), t)
  {
    Text.TrimSpaceTrims(given.note);
    Text.TrimSpaceTrims(Text.TrimSpace(given.note));
    hide Text.TrimSpace;
  }

  function ShippedRow(row: Row, shippedBy: string, t: Tracking): Result<Row, OrderError> {
    if row.status != Paid then Err(InvalidTransition)
    else match ShipmentRefusal(shippedBy, t)
         case Some(e) => Err(e)
         case None => Ok(row.(status := InTransit))
  }

  function CanceledRow(row: Row): Result<Row, OrderError> {
    if row.status != Pending && row.status != Paid then Err(InvalidTransition)
    else Ok(row.(status := Canceled))
  }

  function ReinstatedRow(row: Row, reservation: Id, now: int): Result<Row, OrderError> {
    if row.status != Canceled then Err(InvalidTransition)
    else if reservation == 0 then Err(InvalidOrder)
    else Ok(row.(status := Pending, reservation := reservation, due := now + PAYMENT_TTL))
  }

  function FulfilledRow(row: Row): Result<Row, OrderError> {
    if row.status != InTransit then Err(InvalidTransition) else Ok(row.(status := Fulfilled))
  }

  predicate PaymentExpired(row: Row, now: int) {
    row.status == Pending && now > row.due
  }

  /** The object a handler loads, changes and saves back. A refused transition changes nothing. */
  class Order {
    var status: Status
    var reservation: Id
    var payment: Id
    var due: int
    var shipment: Option<Shipment>
    const bill: Bill

    constructor (row: Row)
      ensures Snapshot() == row && shipment == None
    {
      shipment := None;
      status, reservation, payment, due, bill := row.status, row.reservation, row.payment, row.due, row.bill;
    }

    function Snapshot(): Row
      reads this
    {
      Row(status, reservation, payment, bill, due)
    }

    ghost function After(before: Row, r: Result<Row, OrderError>): (Row, Option<OrderError>) {
      match r
      case Ok(row) => (row, None)
      case Err(e) => (before, Some(e))
    }

    method MarkPaid(p: Id, amount: int) returns (err: Option<OrderError>)
      modifies this
      ensures (Snapshot(), err) == After(old(Snapshot()), PaidRow(old(Snapshot()), p, amount))
    {
      if status != Pending {
        return Some(InvalidTransition);
      }
      if p == 0 {
        return Some(InvalidOrder);
      }
      if amount != bill.total {
        return Some(PaymentAmountMismatch);
      }
      status := Paid;
      payment := p;
      return None;
    }

    method Ship(shippedBy: string, t: Tracking) returns (err: Option<OrderError>)
      modifies this`status, this`shipment
      ensures (Snapshot(), err) == After(old(Snapshot()), ShippedRow(old(Snapshot()), shippedBy, t))
      ensures err.Some? ==> shipment == old(shipment)
      ensures err == None ==> shipment == Some(ShipmentFor(shippedBy, t))
    {
      if status != Paid {
        return Some(InvalidTransition);
      }
      var trimmed := Text.TrimSpace(shippedBy);
      if trimmed == "" {
        return Some(InvalidOrder);
      }
      if t.carrier == "" || t.number == "" {
        return Some(InvalidShipment);
      }
      if t.carrier !in CARRIERS {
        return Some(InvalidShipment);
      }
      if t.carrier == "other" && Text.TrimSpace(t.note) == "" {
        return Some(InvalidShipment);
      }
      status := InTransit;
      var note := "";
      if t.carrier == "other" {
        note := Text.TrimSpace(t.note);
      }
      shipment := Some(Shipment(trimmed, Tracking(t.carrier, t.number, note)));
      return None;
    }

    method Cancel() returns (err: Option<OrderError>)
      modifies this
      ensures (Snapshot(), err) == After(old(Snapshot()), CanceledRow(old(Snapshot())))
    {
      if status != Pending && status != Paid {
        return Some(InvalidTransition);
      }
      status := Canceled;
      return None;
    }

    method Reinstate(r: Id, now: int) returns (err: Option<OrderError>)
      modifies this
      ensures (Snapshot(), err) == After(old(Snapshot()), ReinstatedRow(old(Snapshot()), r, now))
    {
      if status != Canceled {
        return Some(InvalidTransition);
      }
      if r == 0 {
        return Some(InvalidOrder);
      }
      status := Pending;
      reservation := r;
      due := now + PAYMENT_TTL;
      return None;
    }

    method Fulfill() returns (err: Option<OrderError>)
      modifies this
      ensures (Snapshot(), err) == After(old(Snapshot()), FulfilledRow(old(Snapshot())))
    {
      if status != InTransit {
        return Some(InvalidTransition);
      }
      status := Fulfilled;
      return None;
    }
  }
}
