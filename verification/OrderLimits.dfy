/**
 * Why the guard is needed. One refund that lands while the order's shipment and a slower delivery of the same
 * payment are under way is enough: the order is paid again, and leaves while other stock of its own is on hold.
 */
module OrderLimits {
  import opened Common
  import opened Orders
  import opened OrderProtocol

  /** A draft whose order is accepted, under no idempotency key. */
  predicate Plain(d: Draft) {
    d.customer != 0 && d.key == None && BillFor(d.up, d.lines, d.discount, d.shipping).Some?
  }

  function BillOf(d: Draft): Bill
    requires Plain(d)
  {
    BillFor(d.up, d.lines, d.discount, d.shipping).value
  }

  function New(d: Draft): Row requires Plain(d) { Row(Pending, 1, 0, BillOf(d), PAYMENT_TTL) }
  function Expired(d: Draft): Row requires Plain(d) { New(d).(status := Canceled) }
  function PaidWith(d: Draft, p: PayId, r: ResId): Row requires Plain(d) { Row(Paid, r, p, BillOf(d), PAYMENT_TTL) }
  function Refunded(d: Draft, p: PayId): Row requires Plain(d) { PaidWith(d, p, 3).(status := Canceled) }
  function Revival(d: Draft, p: PayId): Pc requires Plain(d) { PayReserve(1, p, BillOf(d).total, Expired(d), false) }
  function Saving(d: Draft, p: PayId, r: ResId): Pc requires Plain(d) {
    PaySave(1, p, BillOf(d).total, PaidWith(d, p, r), true, false)
  }
  function Bought(d: Draft): map<OrderId, int> requires Plain(d) { map[1 := BillOf(d).total] }
  function Led1(a: ResStatus): map<ResId, Reservation> { map[1 := Reservation(1, a)] }
  function Led2(): map<ResId, Reservation> { Led1(Released)[2 := Reservation(1, Active)] }
  function Led3(c: ResStatus): map<ResId, Reservation> { Led2()[3 := Reservation(1, c)] }

  function Stored(d: Draft, row: Row, ledger: map<ResId, Reservation>, ops: map<OpId, Pc>,
        paidBy: map<OrderId, int>): State {
    State(map[1 := row], map[1 := Normalized(d.up, d.lines)], ledger, map[], 2, ops, paidBy, map[])
  }

  /** The k-th state of the schedule. */
  function StateAt(d: Draft, p: PayId, k: nat): State
    requires Plain(d)
  {
    match k
    case 0 => EMPTY
    case 1 => EMPTY.(ops := map[1 := CreateReserve(1, d)], nextOrder := 2)
    case 2 => EMPTY.(ops := map[1 := CreateSave(1, d, 1)], nextOrder := 2, ledger := Led1(Active))
    case 3 => Stored(d, New(d), Led1(Active), map[], map[])
    case 4 => Stored(d, New(d), Led1(Active), map[2 := ExpireCancel(1, 1000)], map[])
    case 5 => Stored(d, Expired(d), Led1(Active), map[2 := Release(1)], map[])
    case 6 => Stored(d, Expired(d), Led1(Released), map[], map[])
    case 7 => Stored(d, Expired(d), Led1(Released), map[3 := Revival(d, p)], map[])
    case 8 => Stored(d, Expired(d), Led2(), map[3 := Saving(d, p, 2)], map[])
    case 9 => Stored(d, Expired(d), Led2(), map[3 := Saving(d, p, 2), 4 := Revival(d, p)], map[])
    case 10 => Stored(d, Expired(d), Led3(Active), map[3 := Saving(d, p, 2), 4 := Saving(d, p, 3)], map[])
    case 11 => Stored(d, PaidWith(d, p, 3), Led3(Active), map[3 := Saving(d, p, 2)], Bought(d))
    case 12 => Stored(d, PaidWith(d, p, 3), Led3(Active),
        map[3 := Saving(d, p, 2), 5 := ShipCommit(1, PaidWith(d, p, 3))], Bought(d))
    case 13 => Stored(d, PaidWith(d, p, 3), Led3(Committed),
        map[3 := Saving(d, p, 2), 5 := ShipSave(1, PaidWith(d, p, 3))], Bought(d))
    case 14 => Stored(d, PaidWith(d, p, 3), Led3(Committed),
        map[3 := Saving(d, p, 2), 5 := ShipSave(1, PaidWith(d, p, 3)), 6 := RefundCancel(1, p)],
        Bought(d))
    case 15 => Stored(d, Refunded(d, p), Led3(Committed),
        map[3 := Saving(d, p, 2), 5 := ShipSave(1, PaidWith(d, p, 3)), 6 := Release(3)], Bought(d))
    case 16 => Stored(d, Refunded(d, p), Led3(Committed),
        map[3 := Saving(d, p, 2), 5 := ShipSave(1, PaidWith(d, p, 3))], Bought(d))
    case 17 => Stored(d, PaidWith(d, p, 2), Led3(Committed), map[5 := ShipSave(1, PaidWith(d, p, 3))], Bought(d))
    case _ => Stored(d, PaidWith(d, p, 2).(status := InTransit), Led3(Committed), map[], Bought(d))
  }

  function ActionAt(d: Draft, p: PayId, k: nat): Action
    requires Plain(d)
  {
    match k
    case 0 => BeginCreate(1, d)
    case 1 => Advance(1, Succeeds(0, 1))
    case 2 => Advance(1, Succeeds(0, 9))
    case 3 => BeginExpire(2, 1, 1000)
    case 4 => Advance(2, Succeeds(0, 9))
    case 5 => Advance(2, Succeeds(0, 9))
    case 6 => BeginPay(3, 1, p, BillOf(d).total)
    case 7 => Advance(3, Succeeds(0, 2))
    case 8 => BeginPay(4, 1, p, BillOf(d).total)
    case 9 => Advance(4, Succeeds(0, 3))
    case 10 => Advance(4, Succeeds(0, 9))
    case 11 => BeginShip(5, 1)
    case 12 => Advance(5, Succeeds(0, 9))
    case 13 => BeginRefund(6, 1, p, 0)
    case 14 => Advance(6, Succeeds(0, 9))
    case 15 => Advance(6, Succeeds(0, 9))
    case 16 => Advance(3, Succeeds(0, 9))
    case _ => Advance(5, Succeeds(0, 9))
  }

  const STEPS := 18

  /** The step that refunds while the delivery of handler 3 is about to save. */
  const REFUND := 14

  ghost predicate Hop(d: Draft, p: PayId, k: nat)
    requires Plain(d)
  {
    Enabled(StateAt(d, p, k), ActionAt(d, p, k))
    && Step(StateAt(d, p, k), ActionAt(d, p, k)) == StateAt(d, p, k + 1)
    && (Guarded(StateAt(d, p, k), ActionAt(d, p, k)) <==> k != REFUND)
  }

  lemma Hop0(d: Draft, p: PayId)
    requires Plain(d) && p != 0
    ensures Hop(d, p, 0)
    ensures Hop(d, p, 1)
    ensures Hop(d, p, 2)
  {
    hide BillFor, Normalized;
  }

  lemma Hop3(d: Draft, p: PayId)
    requires Plain(d) && p != 0
    ensures Hop(d, p, 3)
  {
    hide BillFor, Normalized;
  }

  lemma Hop4(d: Draft, p: PayId)
    requires Plain(d) && p != 0
    ensures Hop(d, p, 4)
  {
    hide BillFor, Normalized;
  }

  lemma Hop5(d: Draft, p: PayId)
    requires Plain(d) && p != 0
    ensures Hop(d, p, 5)
  {
    hide BillFor, Normalized;
  }

  lemma Hop6(d: Draft, p: PayId)
    requires Plain(d) && p != 0
    ensures Hop(d, p, 6)
  {
    hide BillFor, Normalized;
  }

  lemma Hop7(d: Draft, p: PayId)
    requires Plain(d) && p != 0
    ensures Hop(d, p, 7)
  {
    hide BillFor, Normalized;
  }

  lemma Hop8(d: Draft, p: PayId)
    requires Plain(d) && p != 0
    ensures Hop(d, p, 8)
  {
    hide BillFor, Normalized;
  }

  lemma Hop9(d: Draft, p: PayId)
    requires Plain(d) && p != 0
    ensures Hop(d, p, 9)
  {
    hide BillFor, Normalized;
  }

  lemma Hop10(d: Draft, p: PayId)
    requires Plain(d) && p != 0
    ensures Hop(d, p, 10)
  {
    hide BillFor, Normalized;
  }

  lemma Hop11(d: Draft, p: PayId)
    requires Plain(d) && p != 0
    ensures Hop(d, p, 11)
  {
    hide BillFor, Normalized;
  }

  lemma Hop12(d: Draft, p: PayId)
    requires Plain(d) && p != 0
    ensures Hop(d, p, 12)
  {
    hide BillFor, Normalized;
  }

  lemma Hop13(d: Draft, p: PayId)
    requires Plain(d) && p != 0
    ensures Hop(d, p, 13)
  {
    hide BillFor, Normalized;
  }

  lemma RefundLands(d: Draft, p: PayId)
    requires Plain(d) && p != 0
    ensures Enabled(StateAt(d, p, REFUND), ActionAt(d, p, REFUND))
    ensures Step(StateAt(d, p, REFUND), ActionAt(d, p, REFUND)) == StateAt(d, p, REFUND + 1)
  {
    hide BillFor, Normalized;
  }

  lemma RefundIsUnguarded(d: Draft, p: PayId)
    requires Plain(d) && p != 0 && Enabled(StateAt(d, p, REFUND), ActionAt(d, p, REFUND))
    ensures !Guarded(StateAt(d, p, REFUND), ActionAt(d, p, REFUND))
  {
    hide BillFor, Normalized, Step;
    var s := StateAt(d, p, REFUND);
    assert 3 in s.ops && Paying(s.ops[3]) && s.ops[3].o == 1;
    assert 5 in s.ops && Shipping(s.ops[5]) && s.ops[5].o == 1;
  }

  lemma Hop14(d: Draft, p: PayId)
    requires Plain(d) && p != 0
    ensures Hop(d, p, 14)
  {
    hide StateAt, ActionAt, Step, Enabled, Guarded, BillFor, Normalized;
    RefundLands(d, p);
    RefundIsUnguarded(d, p);
  }

  lemma Hop15(d: Draft, p: PayId)
    requires Plain(d) && p != 0
    ensures Hop(d, p, 15)
  {
    hide BillFor, Normalized;
  }

  lemma Hop16(d: Draft, p: PayId)
    requires Plain(d) && p != 0
    ensures Hop(d, p, 16)
  {
    hide BillFor, Normalized;
  }

  lemma Hop17(d: Draft, p: PayId)
    requires Plain(d) && p != 0
    ensures Hop(d, p, 17)
  {
    hide BillFor, Normalized;
  }

  /**
   * The schedule runs from the empty store, every delivery carries the same payment, no call fails, and every
   * step but the refund's is guarded. Yet the order, canceled with its payment, is paid again by the late
   * delivery, and leaves with one reservation committed and another, the one it names, still active.
   */
  lemma GuardIsNeeded(d: Draft, p: PayId)
    requires Plain(d) && p != 0
    ensures StateAt(d, p, 0) == EMPTY
    ensures forall k :: 0 <= k < STEPS ==> Hop(d, p, k) && OnePayment(Config(_ => p), ActionAt(d, p, k))
    ensures StateAt(d, p, 16).orders == map[1 := Refunded(d, p)]
    ensures StateAt(d, p, STEPS) ==
            Stored(d, PaidWith(d, p, 2).(status := InTransit),
                   Led1(Released)[2 := Reservation(1, Active)][3 := Reservation(1, Committed)], map[], Bought(d))
  {
    hide Hop, BillFor, Normalized;
    forall k | 0 <= k < STEPS
      ensures Hop(d, p, k)
    {
      Hop0(d, p); Hop3(d, p); Hop4(d, p); Hop5(d, p); Hop6(d, p); Hop7(d, p); Hop8(d, p); Hop9(d, p);
      Hop10(d, p); Hop11(d, p); Hop12(d, p); Hop13(d, p); Hop14(d, p); Hop15(d, p); Hop16(d, p); Hop17(d, p);
    }
  }

  /**
   * The guard forbids no more than it must: three steps earlier, before any shipment, the same order may be
   * canceled although the delivery is reviving it. Its payment is then not final, but its stock stays sound.
   */
  lemma GuardAllowsRevivals(d: Draft, p: PayId)
    requires Plain(d) && p != 0
    ensures var s, cancel := StateAt(d, p, 11), OperatorCancel(6, 1);
      Enabled(s, cancel) && ClosesPaid(s, EffectOf(s, cancel)) && Guarded(s, cancel) && RevivalInFlight(s, 1)
  {
    hide BillFor, Normalized;
    var s := StateAt(d, p, 11);
    assert 3 in s.ops && Reviving(s.ops[3]) && s.ops[3].o == 1;
  }
}
