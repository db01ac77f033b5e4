/** What each handler of the order service achieves when nobody interferes and no call fails. */
module OrderAlone {
  import opened Common
  import opened Orders
  import opened OrderProtocol

  /** Handler id makes its calls, one outcome each, until it is done. */
  function Solo(s: State, id: OpId, outcomes: seq<Outcome>): State
    decreases |outcomes|
  {
    if outcomes == [] || id !in s.ops || !Enabled(s, Advance(id, outcomes[0])) then s
    else Solo(Step(s, Advance(id, outcomes[0])), id, outcomes[1..])
  }

  /** From its first call on. */
  function Alone(s: State, a: Action, outcomes: seq<Outcome>): State
    requires Enabled(s, a) && !a.Advance?
  {
    Solo(Step(s, a), a.id, outcomes)
  }

  ghost predicate FreshIds(s: State, ids: seq<ResId>) {
    (forall i :: 0 <= i < |ids| ==> ids[i] != 0 && ids[i] !in s.ledger)
    && forall i, j :: 0 <= i < j < |ids| ==> ids[i] != ids[j]
  }

  /** At one time now, with these fresh ids on offer. */
  function Calls(now: int, ids: seq<ResId>): seq<Outcome> {
    seq(|ids|, i requires 0 <= i < |ids| => Succeeds(now, ids[i]))
  }

  lemma OneCall(s: State, id: OpId, o: Outcome, rest: seq<Outcome>, t: State)
    requires id in s.ops && Enabled(s, Advance(id, o)) && Step(s, Advance(id, o)) == t
    ensures Solo(s, id, [o] + rest) == Solo(t, id, rest)
  {
    assert ([o] + rest)[1..] == rest;
  }

  lemma NoCall(s: State, id: OpId, outcomes: seq<Outcome>)
    requires id !in s.ops
    ensures Solo(s, id, outcomes) == s
  {
  }

  /** Three calls, or fewer when the handler is done earlier. */
  lemma ThreeCalls(s: State, id: OpId, now: int, ids: seq<ResId>)
    requires |ids| == 3
    ensures Calls(now, ids) == [Succeeds(now, ids[0])] + ([Succeeds(now, ids[1])] + [Succeeds(now, ids[2])])
  {
  }

  lemma Ready(s: State, id: OpId, now: int, r: ResId)
    requires id in s.ops && PcKnown(s, s.ops[id]) && r != 0 && r !in s.ledger
    ensures Enabled(s, Advance(id, Succeeds(now, r)))
  {
  }

  // ------------------------------------------------------------ single calls

  lemma ReserveCall(s: State, id: OpId, now: int, r: ResId, next: Pc)
    requires Enabled(s, Advance(id, Succeeds(now, r)))
    requires StepOk(s, s.ops[id], now, r).Reserve? && StepOk(s, s.ops[id], now, r).r == r
    requires StepOk(s, s.ops[id], now, r).cont == next
    ensures Step(s, Advance(id, Succeeds(now, r))) ==
            s.(ops := s.ops[id := next], ledger := s.ledger[r := Reservation(StepOk(s, s.ops[id], now, r).o, Active)])
  {
    hide StepOk;
  }

  /** The ledger once r is released: only an active reservation changes. */
  function Freed(ledger: map<ResId, Reservation>, r: ResId): map<ResId, Reservation>
    requires r in ledger
  {
    if ledger[r].status == Active then ledger[r := ledger[r].(status := Released)] else ledger
  }

  lemma ReleaseCall(s: State, id: OpId, outcome: Outcome, r: ResId)
    requires Enabled(s, Advance(id, outcome)) && s.ops[id] == Release(r) && r in s.ledger
    ensures Step(s, Advance(id, outcome)) == s.(ops := s.ops - {id}, ledger := Freed(s.ledger, r))
  {
  }

  lemma CommitCall(s: State, id: OpId, o: OrderId, row: Row, now: int, q: ResId)
    requires Enabled(s, Advance(id, Succeeds(now, q))) && s.ops[id] == ShipCommit(o, row)
    requires row.reservation in s.ledger && s.ledger[row.reservation].status == Active
    ensures Step(s, Advance(id, Succeeds(now, q))) ==
            s.(ops := s.ops[id := ShipSave(o, row)],
               ledger := s.ledger[row.reservation := s.ledger[row.reservation].(status := Committed)])
  {
  }

  /** commitReservationForShip on a reservation that was closed before. */
  lemma RecommitCall(s: State, id: OpId, o: OrderId, row: Row, now: int, q: ResId)
    requires Enabled(s, Advance(id, Succeeds(now, q))) && s.ops[id] == ShipCommit(o, row)
    requires row.reservation in s.ledger && s.ledger[row.reservation].status != Active
    ensures Step(s, Advance(id, Succeeds(now, q))) ==
            if s.ledger[row.reservation].status == Committed then s.(ops := s.ops[id := ShipSave(o, row)])
            else s.(ops := s.ops - {id})
  {
  }

  lemma ShippedCall(s: State, id: OpId, o: OrderId, row: Row, now: int, q: ResId)
    requires Enabled(s, Advance(id, Succeeds(now, q))) && s.ops[id] == ShipSave(o, row) && s.orders[o].status == Paid
    ensures Step(s, Advance(id, Succeeds(now, q))) ==
            s.(ops := s.ops - {id}, orders := s.orders[o := s.orders[o].(status := InTransit)])
  {
  }

  lemma CancelCall(s: State, id: OpId, now: int, q: ResId)
    requires Enabled(s, Advance(id, Succeeds(now, q))) && (s.ops[id].ExpireCancel? || s.ops[id].RefundCancel?)
    requires StepOk(s, s.ops[id], now, q) == StoreCanceled(s.ops[id].o)
    ensures var o := s.ops[id].o;
      Step(s, Advance(id, Succeeds(now, q))) ==
      s.(ops := s.ops[id := Release(s.orders[o].reservation)],
         orders := s.orders[o := s.orders[o].(status := Canceled)])
  {
    hide StepOk;
  }

  lemma PaidCall(s: State, id: OpId, now: int, q: ResId)
    requires Enabled(s, Advance(id, Succeeds(now, q))) && s.ops[id].PaySave?
    requires s.orders[s.ops[id].o].status == if s.ops[id].reinstated then Canceled else Pending
    ensures var pc, t := s.ops[id], Step(s, Advance(id, Succeeds(now, q)));
      t.ops == s.ops - {id} && t.ledger == s.ledger
      && t.orders == s.orders[pc.o := s.orders[pc.o].(
           status := Paid, payment := pc.local.payment, reservation := pc.local.reservation,
           due := if pc.reinstated then pc.local.due else s.orders[pc.o].due)]
  {
  }

  // ---------------------------------------------------------------- deliveries

  /** What a delivery may pay: a pending order, or one canceled without this payment. */
  predicate Payable(row: Row, p: PayId, amount: int) {
    (row.status == Pending || row.status == Canceled) && !AlreadyApplied(row, p) && p != 0 && amount == row.bill.total
  }

  /** The row it leaves: paid, on the stock the order has or on offered stock, or as it was. */
  function Delivered(row: Row, p: PayId, amount: int, offered: ResId, now: int): Row {
    if !Payable(row, p, amount) then row
    else if row.status == Pending then row.(status := Paid, payment := p)
    else row.(status := Paid, payment := p, reservation := offered, due := now + PAYMENT_TTL)
  }

  /** The stock it leaves: a canceled order's delivery reserves, and releases what it cannot pay for. */
  function DeliveredStock(ledger: map<ResId, Reservation>, o: OrderId, row: Row, p: PayId, amount: int, offered: ResId)
    : map<ResId, Reservation>
  {
    if row.status != Canceled || AlreadyApplied(row, p) then ledger
    else ledger[offered := Reservation(o, if Payable(row, p, amount) then Active else Released)]
  }

  lemma PayPending(s: State, id: OpId, o: OrderId, p: PayId, amount: int, now: int, ids: seq<ResId>)
    requires id !in s.ops && o in s.orders && |ids| == 3 && FreshIds(s, ids)
    requires s.orders[o].status == Pending && Payable(s.orders[o], p, amount)
    ensures var t := Alone(s, BeginPay(id, o, p, amount), Calls(now, ids));
      t.orders == s.orders[o := s.orders[o].(status := Paid, payment := p)] && t.ledger == s.ledger && t.ops == s.ops
  {
    var row := s.orders[o];
    var paid := row.(status := Paid, payment := p);
    var s1 := s.(ops := s.ops[id := PayReread(o, p, amount, paid)]);
    var s2 := s.(ops := s.ops[id := PaySave(o, p, amount, paid, false, false)]);
    var c := [Succeeds(now, ids[0]), Succeeds(now, ids[1]), Succeeds(now, ids[2])];
    assert Step(s, BeginPay(id, o, p, amount)) == s1;
    assert Step(s1, Advance(id, c[0])) == s2;
    hide Step, Enabled, Solo, StepOk, Begin;
    ThreeCalls(s, id, now, ids);
    Ready(s1, id, now, ids[0]);
    Ready(s2, id, now, ids[1]);
    var s3 := Step(s2, Advance(id, c[1]));
    PaidCall(s2, id, now, ids[1]);
    assert s3.ops == s.ops;
    OneCall(s1, id, c[0], [c[1]] + [c[2]], s2);
    OneCall(s2, id, c[1], [c[2]], s3);
    NoCall(s3, id, [c[2]]);
  }

  lemma PayCanceled(s: State, id: OpId, o: OrderId, p: PayId, amount: int, now: int, ids: seq<ResId>)
    requires id !in s.ops && o in s.orders && |ids| == 3 && FreshIds(s, ids)
    requires s.orders[o].status == Canceled && Payable(s.orders[o], p, amount)
    ensures var t := Alone(s, BeginPay(id, o, p, amount), Calls(now, ids));
      t.ledger == s.ledger[ids[0] := Reservation(o, Active)] && t.ops == s.ops
      && t.orders ==
           s.orders[o := s.orders[o].(status := Paid, payment := p, reservation := ids[0], due := now + PAYMENT_TTL)]
  {
    var row := s.orders[o];
    var paid := row.(status := Paid, payment := p, reservation := ids[0], due := now + PAYMENT_TTL);
    var s1 := s.(ops := s.ops[id := PayReserve(o, p, amount, row, false)]);
    var s2 := s.(ops := s.ops[id := PaySave(o, p, amount, paid, true, false)],
                 ledger := s.ledger[ids[0] := Reservation(o, Active)]);
    var c := [Succeeds(now, ids[0]), Succeeds(now, ids[1]), Succeeds(now, ids[2])];
    assert ids[1] !in s2.ledger;
    assert Step(s, BeginPay(id, o, p, amount)) == s1;
    assert StepOk(s1, s1.ops[id], now, ids[0]) == Reserve(o, ids[0], s2.ops[id]);
    hide Step, Enabled, Solo, StepOk, Begin;
    ThreeCalls(s, id, now, ids);
    Ready(s1, id, now, ids[0]);
    ReserveCall(s1, id, now, ids[0], s2.ops[id]);
    assert s1.ops[id := s2.ops[id]] == s2.ops;
    Ready(s2, id, now, ids[1]);
    var s3 := Step(s2, Advance(id, c[1]));
    PaidCall(s2, id, now, ids[1]);
    assert s3.ops == s.ops;
    OneCall(s1, id, c[0], [c[1]] + [c[2]], s2);
    OneCall(s2, id, c[1], [c[2]], s3);
    NoCall(s3, id, [c[2]]);
  }

  lemma PayWrongly(s: State, id: OpId, o: OrderId, p: PayId, amount: int, now: int, ids: seq<ResId>)
    requires id !in s.ops && o in s.orders && |ids| == 3 && FreshIds(s, ids)
    requires s.orders[o].status == Canceled && !AlreadyApplied(s.orders[o], p) && !Payable(s.orders[o], p, amount)
    ensures var t := Alone(s, BeginPay(id, o, p, amount), Calls(now, ids));
      t.ledger == s.ledger[ids[0] := Reservation(o, Released)] && t.ops == s.ops && t.orders == s.orders
  {
    var s1 := s.(ops := s.ops[id := PayReserve(o, p, amount, s.orders[o], false)]);
    var s2 := s.(ops := s.ops[id := Release(ids[0])], ledger := s.ledger[ids[0] := Reservation(o, Active)]);
    var c := [Succeeds(now, ids[0]), Succeeds(now, ids[1]), Succeeds(now, ids[2])];
    assert ids[1] !in s2.ledger;
    assert Step(s, BeginPay(id, o, p, amount)) == s1;
    assert StepOk(s1, s1.ops[id], now, ids[0]) == Reserve(o, ids[0], s2.ops[id]);
    hide Step, Enabled, Solo, StepOk, Begin;
    ThreeCalls(s, id, now, ids);
    Ready(s1, id, now, ids[0]);
    ReserveCall(s1, id, now, ids[0], s2.ops[id]);
    assert s1.ops[id := s2.ops[id]] == s2.ops;
    Ready(s2, id, now, ids[1]);
    var s3 := Step(s2, Advance(id, c[1]));
    ReleaseCall(s2, id, c[1], ids[0]);
    assert s3.ops == s.ops && s3.ledger == s.ledger[ids[0] := Reservation(o, Released)];
    OneCall(s1, id, c[0], [c[1]] + [c[2]], s2);
    OneCall(s2, id, c[1], [c[2]], s3);
    NoCall(s3, id, [c[2]]);
  }

  lemma PayNothing(s: State, id: OpId, o: OrderId, p: PayId, amount: int, outcomes: seq<Outcome>)
    requires id !in s.ops && o in s.orders && !Payable(s.orders[o], p, amount)
    requires s.orders[o].status == Canceled ==> AlreadyApplied(s.orders[o], p)
    ensures var t := Alone(s, BeginPay(id, o, p, amount), outcomes);
      t.ledger == s.ledger && t.ops == s.ops && t.orders == s.orders
  {
    var t := Step(s, BeginPay(id, o, p, amount));
    assert t.ops == s.ops;
    NoCall(t, id, outcomes);
  }

  /**
   * A delivery left alone pays exactly a payable order: a pending one with the stock it has, a canceled one
   * with stock reserved anew. A refused revival gives its reservation back, and nothing else ever changes.
   */
  lemma DeliveryAlone(s: State, id: OpId, o: OrderId, p: PayId, amount: int, now: int, ids: seq<ResId>)
    requires id !in s.ops && o in s.orders && |ids| == 3 && FreshIds(s, ids)
    ensures var row, t := s.orders[o], Alone(s, BeginPay(id, o, p, amount), Calls(now, ids));
      && t.ops == s.ops
      && t.orders == s.orders[o := Delivered(row, p, amount, ids[0], now)]
      && t.ledger == DeliveredStock(s.ledger, o, row, p, amount, ids[0])
  {
    hide Alone;
    var row := s.orders[o];
    if row.status == Canceled && !AlreadyApplied(row, p) {
      if Payable(row, p, amount) {
        PayCanceled(s, id, o, p, amount, now, ids);
      } else {
        PayWrongly(s, id, o, p, amount, now, ids);
      }
    } else if Payable(row, p, amount) {
      PayPending(s, id, o, p, amount, now, ids);
    } else {
      PayNothing(s, id, o, p, amount, Calls(now, ids));
    }
  }

  lemma TwoCalls(now: int, ids: seq<ResId>)
    requires |ids| == 2
    ensures Calls(now, ids) == [Succeeds(now, ids[0])] + [Succeeds(now, ids[1])]
  {
  }

  /**
   * A create left alone stores the order its draft asks for, holding fresh stock, or leaves only a released
   * reservation.
   */
  lemma CreateAlone(s: State, id: OpId, draft: Draft, now: int, ids: seq<ResId>)
    requires id !in s.ops && |ids| == 3 && FreshIds(s, ids)
    requires !(draft.key.Some? && draft.key.value in s.idem)
    ensures var o, t := s.nextOrder, Alone(s, BeginCreate(id, draft), Calls(now, ids));
      var row := NewRow(o, draft, ids[0], now);
      && t.ops == s.ops && t.nextOrder == o + 1
      && t.orders == (if row.Some? then s.orders[o := row.value] else s.orders)
      && t.ledger == s.ledger[ids[0] := Reservation(o, if row.Some? then Active else Released)]
      && t.idem == if row.Some? && draft.key.Some? then s.idem[draft.key.value := IdemRecord(o, draft.hash)] else s.idem
  {
    var o := s.nextOrder;
    var s2 := CreateReserved(s, id, draft, now, ids);
    hide Solo, NewRow, Step, Enabled;
    SavedAlone(s2, id, o, draft, ids[0], now, ids[1..]);
    assert s2.ops - {id} == s.ops;
  }

  // A create up to its first reservation.
  lemma CreateReserved(s: State, id: OpId, draft: Draft, now: int, ids: seq<ResId>) returns (t: State)
    requires id !in s.ops && |ids| == 3 && FreshIds(s, ids)
    requires !(draft.key.Some? && draft.key.value in s.idem)
    ensures t == s.(ops := s.ops[id := CreateSave(s.nextOrder, draft, ids[0])], nextOrder := s.nextOrder + 1,
                    ledger := s.ledger[ids[0] := Reservation(s.nextOrder, Active)])
    ensures FreshIds(t, ids[1..])
    ensures Alone(s, BeginCreate(id, draft), Calls(now, ids)) == Solo(t, id, Calls(now, ids[1..]))
  {
    var o := s.nextOrder;
    var s1 := s.(ops := s.ops[id := CreateReserve(o, draft)], nextOrder := o + 1);
    t := s1.(ops := s.ops[id := CreateSave(o, draft, ids[0])], ledger := s.ledger[ids[0] := Reservation(o, Active)]);
    assert FreshIds(t, ids[1..]);
    assert Step(s, BeginCreate(id, draft)) == s1;
    hide Step, Solo, NewRow, Begin, FreshIds;
    Ready(s1, id, now, ids[0]);
    ReserveCall(s1, id, now, ids[0], t.ops[id]);
    assert s1.ops[id := t.ops[id]] == t.ops;
    hide StepOk, Enabled;
    ThreeCalls(s, id, now, ids);
    TwoCalls(now, ids[1..]);
    OneCall(s1, id, Succeeds(now, ids[0]), Calls(now, ids[1..]), t);
  }

  lemma SavedAlone(s: State, id: OpId, o: OrderId, draft: Draft, r: ResId, now: int, ids: seq<ResId>)
    requires id in s.ops && s.ops[id] == CreateSave(o, draft, r) && |ids| == 2 && FreshIds(s, ids)
    requires r in s.ledger && s.ledger[r] == Reservation(o, Active) && !(draft.key.Some? && draft.key.value in s.idem)
    ensures var t, row := Solo(s, id, Calls(now, ids)), NewRow(o, draft, r, now);
      && t.ops == s.ops - {id} && t.nextOrder == s.nextOrder
      && t.orders == (if row.Some? then s.orders[o := row.value] else s.orders)
      && t.ledger == (if row.Some? then s.ledger else s.ledger[r := Reservation(o, Released)])
      && t.idem == if row.Some? && draft.key.Some? then s.idem[draft.key.value := IdemRecord(o, draft.hash)] else s.idem
  {
    hide NewRow, Normalized;
    var c := [Succeeds(now, ids[0]), Succeeds(now, ids[1])];
    var s1 := Step(s, Advance(id, c[0]));
    TwoCalls(now, ids);
    OneCall(s, id, c[0], [c[1]], s1);
    if NewRow(o, draft, r, now).Some? {
      NoCall(s1, id, [c[1]]);
    } else {
      assert s1.ops[id] == Release(r) && s1.ledger == s.ledger;
      var s2 := Step(s1, Advance(id, c[1]));
      assert [c[1]] == [c[1]] + [];
      OneCall(s1, id, c[1], [], s2);
    }
  }

  /** Whether a shipment of this order can go through: it is paid, and its stock is at hand or committed already. */
  predicate Shippable(s: State, o: OrderId) {
    o in s.orders && s.orders[o].status == Paid
    && s.orders[o].reservation in s.ledger && s.ledger[s.orders[o].reservation].status != Released
  }

  /**
   * A shipment left alone sends a shippable order and commits its stock, or finds it committed by an earlier
   * attempt; otherwise nothing changes.
   */
  lemma ShipmentAlone(s: State, id: OpId, o: OrderId, now: int, ids: seq<ResId>)
    requires id !in s.ops && o in s.orders && |ids| == 2 && FreshIds(s, ids) && s.orders[o].reservation in s.ledger
    ensures var row, t := s.orders[o], Alone(s, BeginShip(id, o), Calls(now, ids));
      && t.ops == s.ops
      && t.orders == (if Shippable(s, o) then s.orders[o := row.(status := InTransit)] else s.orders)
      && t.ledger == if Shippable(s, o)
                     then s.ledger[row.reservation := s.ledger[row.reservation].(status := Committed)] else s.ledger
  {
    hide Step, Solo, Begin, StepOk;
    var row, s1 := s.orders[o], Step(s, BeginShip(id, o));
    BeginShipment(s, id, o);
    if row.status != Paid {
      NoCall(s1, id, Calls(now, ids));
    } else {
      ShipmentGoesOn(s, s1, id, o, row, now, ids);
    }
  }

  lemma BeginShipment(s: State, id: OpId, o: OrderId)
    requires id !in s.ops && o in s.orders
    ensures var t, row := Step(s, BeginShip(id, o)), s.orders[o];
      if row.status == Paid then t == s.(ops := s.ops[id := ShipCommit(o, row)])
      else t.ops == s.ops && t.orders == s.orders && t.ledger == s.ledger
  {
  }

  lemma ShipmentGoesOn(s: State, s1: State, id: OpId, o: OrderId, row: Row, now: int, ids: seq<ResId>)
    requires id !in s.ops && o in s.orders && s.orders[o] == row && |ids| == 2 && FreshIds(s, ids)
    requires row.status == Paid && row.reservation in s.ledger && s1 == s.(ops := s.ops[id := ShipCommit(o, row)])
    ensures var t := Solo(s1, id, Calls(now, ids));
      && t.ops == s.ops
      && t.orders == (if Shippable(s, o) then s.orders[o := row.(status := InTransit)] else s.orders)
      && t.ledger == if Shippable(s, o)
                     then s.ledger[row.reservation := s.ledger[row.reservation].(status := Committed)] else s.ledger
  {
    hide Step, Solo, Begin, StepOk;
    Ready(s1, id, now, ids[0]);
    var s2 := Step(s1, Advance(id, Succeeds(now, ids[0])));
    hide Enabled;
    if s.ledger[row.reservation].status == Active {
      CommitCall(s1, id, o, row, now, ids[0]);
      ShipmentSaved(s, s1, s2, id, o, row, now, ids);
    } else if s.ledger[row.reservation].status == Committed {
      RecommitCall(s1, id, o, row, now, ids[0]);
      ShipmentSaved(s, s1, s2, id, o, row, now, ids);
      assert s.ledger[row.reservation := s.ledger[row.reservation].(status := Committed)] == s.ledger;
    } else {
      RecommitCall(s1, id, o, row, now, ids[0]);
      TwoCalls(now, ids);
      OneCall(s1, id, Succeeds(now, ids[0]), [Succeeds(now, ids[1])], s2);
      NoCall(s2, id, [Succeeds(now, ids[1])]);
      assert s2.ops == s.ops;
    }
  }

  // The last call of a shipment whose stock is committed.
  lemma ShipmentSaved(s: State, s1: State, s2: State, id: OpId, o: OrderId, row: Row, now: int, ids: seq<ResId>)
    requires id !in s.ops && o in s.orders && |ids| == 2 && FreshIds(s, ids) && s.orders[o].status == Paid
    requires id in s1.ops && Enabled(s1, Advance(id, Succeeds(now, ids[0])))
    requires Step(s1, Advance(id, Succeeds(now, ids[0]))) == s2
    requires s2.orders == s.orders && s2.ledger.Keys == s.ledger.Keys && s2.ops == s.ops[id := ShipSave(o, row)]
    ensures var t := Solo(s1, id, Calls(now, ids));
      t.ops == s.ops && t.ledger == s2.ledger && t.orders == s.orders[o := s.orders[o].(status := InTransit)]
  {
    hide Step, Solo, StepOk;
    assert ids[1] !in s2.ledger;
    Ready(s2, id, now, ids[1]);
    ShippedCall(s2, id, o, row, now, ids[1]);
    var s3 := Step(s2, Advance(id, Succeeds(now, ids[1])));
    assert s3.ops == s.ops;
    LastTwo(s1, id, now, ids, s2, s3);
  }

  lemma LastTwo(s: State, id: OpId, now: int, ids: seq<ResId>, t: State, u: State)
    requires |ids| == 2 && id in s.ops && id in t.ops && id !in u.ops
    requires Enabled(s, Advance(id, Succeeds(now, ids[0]))) && Step(s, Advance(id, Succeeds(now, ids[0]))) == t
    requires Enabled(t, Advance(id, Succeeds(now, ids[1]))) && Step(t, Advance(id, Succeeds(now, ids[1]))) == u
    ensures Solo(s, id, Calls(now, ids)) == u
  {
    TwoCalls(now, ids);
    hide Step, Enabled;
    OneCall(s, id, Succeeds(now, ids[0]), [Succeeds(now, ids[1])], t);
    assert [Succeeds(now, ids[1])] == [Succeeds(now, ids[1])] + [];
    OneCall(t, id, Succeeds(now, ids[1]), [], u);
  }

  /**
   * Expiry or a refund left alone cancels the order it is meant for and gives back what stock is still on
   * hold; stock already committed or released stays as it is. Otherwise nothing changes.
   */
  lemma CancelAlone(s: State, a: Action, now: int, ids: seq<ResId>)
    requires (a.BeginExpire? || a.BeginRefund?) && a.id !in s.ops && a.o in s.orders && |ids| == 2 && FreshIds(s, ids)
    requires s.orders[a.o].reservation in s.ledger
    ensures var row, t := s.orders[a.o], Alone(s, a, Calls(now, ids));
      && t.ops == s.ops
      && t.orders == (if CancelDue(row, a) then s.orders[a.o := row.(status := Canceled)] else s.orders)
      && t.ledger == if CancelDue(row, a) then Freed(s.ledger, row.reservation) else s.ledger
  {
    var row, id := s.orders[a.o], a.id;
    var s1 := Step(s, a);
    BeginCancel(s, a);
    hide Step, Solo, Begin, StepOk;
    if CancelDue(row, a) {
      Ready(s1, id, now, ids[0]);
      CancelCall(s1, id, now, ids[0]);
      var s2 := Step(s1, Advance(id, Succeeds(now, ids[0])));
      Ready(s2, id, now, ids[1]);
      ReleaseCall(s2, id, Succeeds(now, ids[1]), row.reservation);
      var s3 := Step(s2, Advance(id, Succeeds(now, ids[1])));
      assert s3.ops == s.ops;
      LastTwo(s1, id, now, ids, s2, s3);
    } else {
      NoCall(s1, id, Calls(now, ids));
    }
  }

  /** When an expiry or a refund is for this order. */
  predicate CancelDue(row: Row, a: Action)
    requires a.BeginExpire? || a.BeginRefund?
  {
    if a.BeginExpire? then row.status == Pending && a.now > row.due
    else a.remaining <= 0 && a.p != 0 && row.payment == a.p && row.status == Paid
  }

  lemma BeginCancel(s: State, a: Action)
    requires (a.BeginExpire? || a.BeginRefund?) && a.id !in s.ops && a.o in s.orders
    ensures var t := Step(s, a);
      if CancelDue(s.orders[a.o], a) then
        t == s.(ops := s.ops[a.id := if a.BeginExpire? then ExpireCancel(a.o, a.now) else RefundCancel(a.o, a.p)])
        && forall now: int, q: ResId :: StepOk(t, t.ops[a.id], now, q) == StoreCanceled(a.o)
      else t.orders == s.orders && t.ledger == s.ledger && t.ops == s.ops
  {
  }

  /** A fulfilment left alone fulfils exactly an order in transit, and changes nothing else. */
  lemma FulfilmentAlone(s: State, id: OpId, o: OrderId, now: int, r: ResId)
    requires id !in s.ops && o in s.orders && r != 0 && r !in s.ledger
    ensures var row, t := s.orders[o], Alone(s, BeginFulfill(id, o), [Succeeds(now, r)]);
      && t.ops == s.ops && t.ledger == s.ledger
      && t.orders == if row.status == InTransit then s.orders[o := row.(status := Fulfilled)] else s.orders
  {
    var row, s1 := s.orders[o], Step(s, BeginFulfill(id, o));
    assert s1.orders == s.orders && s1.ledger == s.ledger;
    if row.status == InTransit {
      assert s1 == s.(ops := s.ops[id := FulfillSave(o, row.(status := Fulfilled))]);
      var s2 := Step(s1, Advance(id, Succeeds(now, r)));
      assert s2.ops == s.ops;
      assert [Succeeds(now, r)] == [Succeeds(now, r)] + [];
      OneCall(s1, id, Succeeds(now, r), [], s2);
      NoCall(s2, id, []);
    } else {
      assert s1.ops == s.ops;
      NoCall(s1, id, [Succeeds(now, r)]);
    }
  }
}
