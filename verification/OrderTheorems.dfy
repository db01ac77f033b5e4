/**
 * What the order service guarantees about stock over whole runs: any number of deliveries of an order's payment,
 * with expiry, shipping, refunds and operator cancels, as long as no paid order is canceled while its stock is
 * at risk.
 */
module OrderTheorems {
  import opened Common
  import opened Orders
  import opened OrderProtocol
  import opened OrderInvariants

  // ------------------------------------------------------- the invariant, run-wide

  /** Starting a create takes the next order number; nobody else can know it. */
  lemma CreateStarts(cfg: Config, s: State, id: OpId, draft: Draft)
    requires Inv(cfg, s) && id !in s.ops
    ensures Inv(cfg, s.(ops := s.ops[id := CreateReserve(s.nextOrder, draft)], nextOrder := s.nextOrder + 1))
  {
    var s' := s.(ops := s.ops[id := CreateReserve(s.nextOrder, draft)], nextOrder := s.nextOrder + 1);
    CreateIsApart(cfg, s, id, draft);
    hide LedgerOk, RowOk, PcOk, Compatible;
    forall r | r in s'.ledger ensures LedgerOk(s', r) {
      ReservationFramed(s, s', id, r);
    }
  }

  // The order number just taken is nobody else's.
  lemma CreateIsApart(cfg: Config, s: State, id: OpId, draft: Draft)
    requires RowsOk(cfg, s) && PcsOk(cfg, s) && PairsOk(s) && id !in s.ops
    ensures var s' := s.(ops := s.ops[id := CreateReserve(s.nextOrder, draft)], nextOrder := s.nextOrder + 1);
      RowsOk(cfg, s') && PcsOk(cfg, s') && PairsOk(s')
  {
    var s' := s.(ops := s.ops[id := CreateReserve(s.nextOrder, draft)], nextOrder := s.nextOrder + 1);
    forall o | o in s'.orders ensures RowOk(cfg, s', o) {
      assert RowOk(cfg, s, o);
    }
    forall j | j in s'.ops ensures PcOk(cfg, s', s'.ops[j]) {
      if j != id {
        assert PcOk(cfg, s, s.ops[j]);
      }
    }
    forall i, j | i in s'.ops && j in s'.ops && i != j ensures Compatible(s'.ops[i], s'.ops[j]) {
      assert i != id ==> PcOk(cfg, s, s.ops[i]);
      assert j != id ==> PcOk(cfg, s, s.ops[j]);
    }
  }

  lemma ReservationFramed(s: State, s': State, id: OpId, r: ResId)
    requires r in s.ledger && LedgerOk(s, r) && s'.ledger == s.ledger && s'.orders == s.orders
    requires id !in s.ops && forall i :: i in s.ops ==> i in s'.ops && s'.ops[i] == s.ops[i]
    ensures LedgerOk(s', r)
  {
    HolderKept(s, s', id, r);
  }

  lemma StepKeeps(cfg: Config, s: State, a: Action)
    requires Inv(cfg, s) && Allowed(cfg, s, a)
    ensures Inv(cfg, Step(s, a))
  {
    hide RowOk, PcOk, LedgerOk, Compatible, Legal, StepFailed, StepOk;
    if a.BeginCreate? && Begin(s, a) != DONE {
      CreateStarts(cfg, s, a.id, a.draft);
    } else if a.BeginCreate? {
      RepeatIsLegal(cfg, s, a.id);
      Preserve(cfg, s, a.id, DONE);
    } else {
      StepIsLegal(cfg, s, a);
      Preserve(cfg, s, a.id, EffectOf(s, a));
    }
  }

  lemma RepeatIsLegal(cfg: Config, s: State, id: OpId)
    requires id !in s.ops
    ensures Legal(cfg, s, id, DONE)
  {
  }

  lemma RunKeeps(cfg: Config, states: seq<State>, actions: seq<Action>, i: nat)
    requires Run(cfg, states, actions) && i < |states|
    ensures Inv(cfg, states[i])
  {
    if i > 0 {
      RunKeeps(cfg, states, actions, i - 1);
      StepKeeps(cfg, states[i - 1], actions[i - 1]);
    }
  }

  // ----------------------------------------------------------------- safety

  /**
   * In every reachable state, whatever the interleaving: a pending order holds an active
   * reservation, a paid one is never left with a released one, and goods in transit or delivered
   * were committed. No order names another order's reservation.
   */
  lemma OrdersHoldTheirStock(cfg: Config, states: seq<State>, actions: seq<Action>, i: nat, o: OrderId)
    requires Run(cfg, states, actions) && i < |states| && o in states[i].orders
    ensures var s := states[i]; var row := s.orders[o];
            row.reservation in s.ledger && s.ledger[row.reservation].order == o
            && (row.status == Pending ==> s.ledger[row.reservation].status == Active)
            && (row.status == Paid ==> s.ledger[row.reservation].status != Released)
            && (row.status in {InTransit, Fulfilled} ==> s.ledger[row.reservation].status == Committed)
  {
    RunKeeps(cfg, states, actions, i);
    assert RowOk(cfg, states[i], o);
  }

  /**
   * When nothing is in flight no stock is stranded: a reservation is active exactly when a pending
   * order, or a paid one whose shipment has not committed it, names it; and no two orders share one.
   */
  lemma NoReservationLeaks(cfg: Config, states: seq<State>, actions: seq<Action>, i: nat)
    requires Run(cfg, states, actions) && i < |states| && states[i].ops == map[]
    ensures var s := states[i];
            && (forall r :: r in s.ledger ==>
                  (s.ledger[r].status == Active <==> NamedLive(s, r) && s.ledger[r].status != Committed))
            && (forall o, q :: o in s.orders && q in s.orders && o != q ==>
                  s.orders[o].reservation != s.orders[q].reservation)
  {
    RunKeeps(cfg, states, actions, i);
    var s := states[i];
    forall r | r in s.ledger
      ensures s.ledger[r].status == Active <==> NamedLive(s, r) && s.ledger[r].status != Committed
    {
      assert LedgerOk(s, r);
      if NamedLive(s, r) {
        assert RowOk(cfg, s, s.ledger[r].order);
      }
    }
    forall o, q | o in s.orders && q in s.orders && o != q
      ensures s.orders[o].reservation != s.orders[q].reservation
    {
      assert RowOk(cfg, s, o) && RowOk(cfg, s, q);
    }
  }

  /** Over a whole run at most one reservation of an order is ever committed: goods leave once. */
  lemma GoodsLeaveOnce(cfg: Config, states: seq<State>, actions: seq<Action>, i: nat, r1: ResId, r2: ResId)
    requires Run(cfg, states, actions) && i < |states|
    requires r1 in states[i].ledger && r2 in states[i].ledger
    requires states[i].ledger[r1].order == states[i].ledger[r2].order
    requires states[i].ledger[r1].status == states[i].ledger[r2].status == Committed
    ensures r1 == r2
  {
    RunKeeps(cfg, states, actions, i);
    assert LedgerOk(states[i], r1) && LedgerOk(states[i], r2);
  }
}
