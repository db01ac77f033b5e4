/**
 * What every interleaving of the order handlers keeps. Each clause speaks of one row, one
 * reservation, one handler or one pair of handlers, so that a step is checked piece by piece.
 */
module OrderInvariants {
  import opened Common
  import opened Orders
  import opened OrderProtocol

  // -------------------------------------------------------------- ownership

  /** The reservation a handler must still store or give back. */
  function Owned(pc: Pc): Option<ResId> {
    match pc
    case CreateSave(_, _, r) => Some(r)
    case PaySave(_, _, _, local, reinstated, _) => if reinstated then Some(local.reservation) else None
    case PayRecheck(_, _, _, r) => r
    case Release(r) => Some(r)
    case _ => None
  }

  predicate Owns(pc: Pc, r: ResId) {
    Owned(pc) == Some(r)
  }

  predicate Named(s: State, r: ResId)
    requires r in s.ledger
  {
    s.ledger[r].order in s.orders && s.orders[s.ledger[r].order].reservation == r
  }

  predicate NamedLive(s: State, r: ResId)
    requires r in s.ledger
  {
    Named(s, r) && s.orders[s.ledger[r].order].status in {Pending, Paid}
  }

  ghost predicate HeldByHandler(s: State, r: ResId) {
    exists id :: id in s.ops && Owns(s.ops[id], r)
  }

  // -------------------------------------------------------------- invariant

  ghost predicate RowOk(cfg: Config, s: State, o: OrderId)
    requires o in s.orders
  {
    var row := s.orders[o];
    && o < s.nextOrder
    && row.reservation in s.ledger && s.ledger[row.reservation].order == o
    && (row.payment != 0 ==> row.payment == cfg.payOf(o))
    && match row.status
       case Pending => s.ledger[row.reservation].status == Active && row.payment == 0
       case Paid => s.ledger[row.reservation].status != Released && row.payment != 0
       case InTransit => s.ledger[row.reservation].status == Committed && row.payment != 0
       case Fulfilled => s.ledger[row.reservation].status == Committed && row.payment != 0
       case Canceled => true
  }

  ghost predicate LedgerOk(s: State, r: ResId)
    requires r in s.ledger
  {
    r != 0
    && match s.ledger[r].status
       case Active => HeldByHandler(s, r) || NamedLive(s, r)
       case Committed => Named(s, r) && s.orders[s.ledger[r].order].payment != 0
       case Released => true
  }

  /** An owned reservation is nobody's but its handler's, except that a canceled order may still name it. */
  predicate OwnedOk(s: State, pc: Pc) {
    Owned(pc).Some? ==>
      var r := Owned(pc).value;
      && r in s.ledger
      && (Named(s, r) ==> pc.Release? && s.orders[s.ledger[r].order].status == Canceled)
      && (!pc.Release? ==> s.ledger[r].status == Active && s.ledger[r].order == pc.o)
  }

  /** An order a payment is about to revive: if it was paid before it was canceled, its goods have not left. */
  predicate Revivable(s: State, o: OrderId) {
    o in s.orders && s.orders[o].status != Pending
    && (s.orders[o].status == Canceled && s.orders[o].payment != 0 ==> !StockCommitted(s, o))
  }

  predicate PaidCopy(p: PayId, local: Row) {
    local.status == Paid && local.payment == p && p != 0
  }

  /** A shipment in flight ships this stock, and nobody is about to give a canceled order other stock meanwhile. */
  predicate ShipOk(s: State, o: OrderId, local: Row) {
    o in s.orders && s.orders[o].reservation == local.reservation && s.orders[o].payment != 0
    && (s.orders[o].status == Canceled ==> !PayingInFlight(s, o))
  }

  predicate PcOk(cfg: Config, s: State, pc: Pc) {
    && OwnedOk(s, pc)
    && (Paying(pc) ==> Revivable(s, pc.o))
    && match pc
       case CreateReserve(o, _) => o < s.nextOrder && o !in s.orders
       case CreateSave(o, _, _) => o < s.nextOrder && o !in s.orders
       case PayReserve(o, p, _, local, _) =>
         o in s.orders && p == cfg.payOf(o) && s.orders[o].status != Pending && local.status == Canceled
       case PayReread(o, p, _, local) =>
         o in s.orders && p == cfg.payOf(o) && PaidCopy(p, local)
         && (s.orders[o].status == Pending ==> s.orders[o].reservation == local.reservation)
       case PaySave(o, p, _, local, reinstated, _) =>
         o in s.orders && p == cfg.payOf(o) && PaidCopy(p, local)
         && (!reinstated && s.orders[o].status == Pending ==> s.orders[o].reservation == local.reservation)
       case PayRecheck(o, p, _, r) =>
         o in s.orders && p == cfg.payOf(o) && (r.Some? ==> p != 0 && s.orders[o].payment == p)
       case ExpireCancel(o, _) => o in s.orders
       case RefundCancel(o, _) => o in s.orders
       case ShipCommit(o, local) => ShipOk(s, o, local)
       case ShipSave(o, local) => ShipOk(s, o, local) && StockCommitted(s, o)
       case FulfillSave(o, local) =>
         o in s.orders && s.orders[o].status in {InTransit, Fulfilled} && local.status == Fulfilled
         && local.reservation == s.orders[o].reservation && local.payment == s.orders[o].payment
       case Release(_) => true
  }

  /** Two handlers in flight never own one reservation or create one order. */
  predicate Compatible(a: Pc, b: Pc) {
    && (Owned(a).Some? ==> Owned(a) != Owned(b))
    && (IsCreate(a) && IsCreate(b) ==> a.o != b.o)
  }

  ghost predicate RowsOk(cfg: Config, s: State) {
    forall o :: o in s.orders ==> RowOk(cfg, s, o)
  }

  ghost predicate LedgersOk(s: State) {
    forall r :: r in s.ledger ==> LedgerOk(s, r)
  }

  ghost predicate PcsOk(cfg: Config, s: State) {
    forall id :: id in s.ops ==> PcOk(cfg, s, s.ops[id])
  }

  ghost predicate PairsOk(s: State) {
    forall i, j :: i in s.ops && j in s.ops && i != j ==> Compatible(s.ops[i], s.ops[j])
  }

  ghost predicate Inv(cfg: Config, s: State) {
    RowsOk(cfg, s) && LedgersOk(s) && PcsOk(cfg, s) && PairsOk(s)
  }

  // ---------------------------------------------------- what a step may do

  function Mine(s: State, id: OpId): Option<ResId> {
    if id in s.ops then Owned(s.ops[id]) else None
  }

  /** A payment that will revive an order canceled with its payment was on its way already. */
  ghost predicate NoNewPaying(s: State, id: OpId, pc: Pc) {
    Paying(pc) && pc.o in s.orders && s.orders[pc.o].status == Canceled && s.orders[pc.o].payment != 0 ==>
      id in s.ops && Paying(s.ops[id]) && s.ops[id].o == pc.o
  }

  /** The effects a handler may have on shared state: each is one the other handlers tolerate. */
  ghost predicate Legal(cfg: Config, s: State, id: OpId, e: Effect) {
    match e
    case Move(next) =>
      (match next
       case None => Mine(s, id) == None
       case Some(pc) => PcOk(cfg, s, pc) && Owned(pc) == Mine(s, id) && !IsCreate(pc) && NoNewPaying(s, id, pc))
    case Reserve(o, r, cont) =>
      id in s.ops && Mine(s, id) == None && r != 0 && r !in s.ledger && Owned(cont) == Some(r)
      && PcOk(cfg, Apply(s, id, e), cont) && NoNewPaying(s, id, cont) && !Shipping(cont)
      && (IsCreate(cont) ==> IsCreate(s.ops[id]) && s.ops[id].o == cont.o)
    case Commit(r, cont) =>
      id in s.ops && s.ops[id].ShipCommit? && PcOk(cfg, s, s.ops[id])
      && s.ops[id].local.reservation == r && r in s.ledger && s.ledger[r].status == Active
      && cont == ShipSave(s.ops[id].o, s.ops[id].local)
    case Free(r) => id in s.ops && s.ops[id] == Release(r)
    case Insert(o, row, d) =>
      id in s.ops && s.ops[id].CreateSave? && s.ops[id].o == o && s.ops[id].r == row.reservation
      && row.status == Pending && row.payment == 0
    case StorePaid(o, p, r, _, _) =>
      id in s.ops && s.ops[id].PaySave? && s.ops[id].o == o && o in s.orders
      && p == cfg.payOf(o) != 0
      && (if s.ops[id].reinstated
          then s.orders[o].status == Canceled && Mine(s, id) == Some(r)
          else s.orders[o].status == Pending && r == s.orders[o].reservation)
    case StoreCanceled(o) =>
      o in s.orders && Mine(s, id) == None
      && s.orders[o].status in {Pending, Paid} && (s.orders[o].status == Paid ==> !StockAtRisk(s, o))
    case StoreShipped(o) =>
      id in s.ops && s.ops[id].ShipSave? && s.ops[id].o == o && o in s.orders && s.orders[o].status == Paid
    case StoreFulfilled(o, row) =>
      id in s.ops && s.ops[id] == FulfillSave(o, row)
  }

  // ------------------------------------------------ one piece at a time

  ghost predicate Ready(cfg: Config, s: State, id: OpId, e: Effect) {
    RowsOk(cfg, s) && Legal(cfg, s, id, e) && (id in s.ops ==> PcOk(cfg, s, s.ops[id]))
  }

  ghost predicate Other(cfg: Config, s: State, id: OpId, j: OpId) {
    j in s.ops && j != id && PcOk(cfg, s, s.ops[j]) && (id in s.ops ==> Compatible(s.ops[id], s.ops[j]))
  }

  /** A reservation keeps its holder when the stepping handler still owns what it owned. */
  lemma HolderKept(s: State, s': State, id: OpId, r: ResId)
    requires forall i :: i != id && i in s.ops ==> i in s'.ops && s'.ops[i] == s.ops[i]
    requires Mine(s, id) == Some(r) ==> Mine(s', id) == Some(r)
    ensures HeldByHandler(s, r) ==> HeldByHandler(s', r)
  {
    if HeldByHandler(s, r) {
      var i :| i in s.ops && Owns(s.ops[i], r);
      assert i in s'.ops && Owns(s'.ops[i], r);
    }
  }

  predicate Saves(e: Effect) {
    e.Insert? || e.StorePaid? || e.StoreCanceled? || e.StoreShipped? || e.StoreFulfilled?
  }

  lemma RowAfterSave(cfg: Config, s: State, id: OpId, e: Effect, o: OrderId)
    requires Ready(cfg, s, id, e) && o in Apply(s, id, e).orders && Saves(e)
    ensures RowOk(cfg, Apply(s, id, e), o)
  {
  }

  lemma RowAfterOther(cfg: Config, s: State, id: OpId, e: Effect, o: OrderId)
    requires Ready(cfg, s, id, e) && o in Apply(s, id, e).orders && !Saves(e)
    ensures RowOk(cfg, Apply(s, id, e), o)
  {
  }

  lemma HandlerAfterSave(cfg: Config, s: State, id: OpId, e: Effect, j: OpId)
    requires Ready(cfg, s, id, e) && Other(cfg, s, id, j) && Saves(e)
    ensures PcOk(cfg, Apply(s, id, e), s.ops[j])
  {
  }

  lemma HandlerAfterOther(cfg: Config, s: State, id: OpId, e: Effect, j: OpId)
    requires Ready(cfg, s, id, e) && Other(cfg, s, id, j) && !Saves(e)
    ensures PcOk(cfg, Apply(s, id, e), s.ops[j])
  {
  }

  lemma ReservationAfterSave(cfg: Config, s: State, id: OpId, e: Effect, r: ResId)
    requires Ready(cfg, s, id, e) && Saves(e)
    requires (r in s.ledger ==> LedgerOk(s, r)) && r in Apply(s, id, e).ledger
    ensures LedgerOk(Apply(s, id, e), r)
  {
    var s' := Apply(s, id, e);
    if id in s'.ops && Owns(s'.ops[id], r) {
    } else if Mine(s, id) != Some(r) {
      HolderKept(s, s', id, r);
    }
  }

  lemma ReservationAfterOther(cfg: Config, s: State, id: OpId, e: Effect, r: ResId)
    requires Ready(cfg, s, id, e) && !Saves(e)
    requires (r in s.ledger ==> LedgerOk(s, r)) && r in Apply(s, id, e).ledger
    ensures LedgerOk(Apply(s, id, e), r)
  {
    var s' := Apply(s, id, e);
    if id in s'.ops && Owns(s'.ops[id], r) {
    } else if Mine(s, id) != Some(r) {
      HolderKept(s, s', id, r);
    }
  }

  /** The stepping handler is where it may be, and still clashes with nobody. */
  lemma SelfKept(cfg: Config, s: State, id: OpId, e: Effect)
    requires Ready(cfg, s, id, e) && id in Apply(s, id, e).ops
    ensures PcOk(cfg, Apply(s, id, e), Apply(s, id, e).ops[id])
  {
  }

  lemma PairKept(cfg: Config, s: State, id: OpId, e: Effect, j: OpId)
    requires Ready(cfg, s, id, e) && Other(cfg, s, id, j) && id in Apply(s, id, e).ops
    ensures Compatible(Apply(s, id, e).ops[id], s.ops[j])
    ensures Compatible(s.ops[j], Apply(s, id, e).ops[id])
  {
  }

  lemma OthersUntouched(s: State, id: OpId, e: Effect)
    ensures forall j :: j != id ==> (j in Apply(s, id, e).ops <==> j in s.ops)
                                    && (j in s.ops ==> Apply(s, id, e).ops[j] == s.ops[j])
  {
  }

  /** Every legal effect keeps the invariant. */
  lemma Preserve(cfg: Config, s: State, id: OpId, e: Effect)
    requires Inv(cfg, s) && Legal(cfg, s, id, e)
    ensures Inv(cfg, Apply(s, id, e))
  {
    hide Apply, RowOk, PcOk, LedgerOk, Compatible, Legal;
    var s' := Apply(s, id, e);
    assert Ready(cfg, s, id, e);
    OthersUntouched(s, id, e);
    forall o | o in s'.orders ensures RowOk(cfg, s', o) {
      if Saves(e) {
        RowAfterSave(cfg, s, id, e, o);
      } else {
        RowAfterOther(cfg, s, id, e, o);
      }
    }
    forall r | r in s'.ledger ensures LedgerOk(s', r) {
      if Saves(e) {
        ReservationAfterSave(cfg, s, id, e, r);
      } else {
        ReservationAfterOther(cfg, s, id, e, r);
      }
    }
    forall j | j in s'.ops ensures PcOk(cfg, s', s'.ops[j]) {
      if j == id {
        SelfKept(cfg, s, id, e);
      } else if Saves(e) {
        HandlerAfterSave(cfg, s, id, e, j);
      } else {
        HandlerAfterOther(cfg, s, id, e, j);
      }
    }
    forall i, j | i in s'.ops && j in s'.ops && i != j ensures Compatible(s'.ops[i], s'.ops[j]) {
      if i == id {
        PairKept(cfg, s, id, e, j);
      } else if j == id {
        PairKept(cfg, s, id, e, i);
      }
    }
  }

  // ------------------------------------------------------ every step is legal

  lemma BeginIsLegal(cfg: Config, s: State, a: Action)
    requires RowsOk(cfg, s) && !a.Advance? && !a.BeginCreate? && Allowed(cfg, s, a)
    ensures Legal(cfg, s, a.id, Begin(s, a))
  {
  }

  lemma FailureIsLegal(cfg: Config, s: State, id: OpId)
    requires RowsOk(cfg, s) && id in s.ops && PcOk(cfg, s, s.ops[id])
    ensures Legal(cfg, s, id, StepFailed(s.ops[id]))
  {
  }

  lemma ReinstatementIsLegal(cfg: Config, s: State, id: OpId, now: int, newId: ResId)
    requires RowsOk(cfg, s) && id in s.ops && PcOk(cfg, s, s.ops[id]) && newId != 0 && newId !in s.ledger
    requires s.ops[id].PayReserve?
    ensures Legal(cfg, s, id, StepPayReserve(s.ops[id], now, newId))
  {
  }

  lemma PayStepIsLegal(cfg: Config, s: State, id: OpId, now: int, newId: ResId)
    requires RowsOk(cfg, s) && id in s.ops && PcOk(cfg, s, s.ops[id])
    requires IsPay(s.ops[id]) && !s.ops[id].PayReserve?
    ensures Legal(cfg, s, id, StepOk(s, s.ops[id], now, newId))
  {
  }

  lemma OtherStepIsLegal(cfg: Config, s: State, id: OpId, now: int, newId: ResId)
    requires RowsOk(cfg, s) && id in s.ops && PcOk(cfg, s, s.ops[id]) && newId != 0 && newId !in s.ledger
    requires !IsPay(s.ops[id]) && PcKnown(s, s.ops[id])
    requires ClosesPaid(s, StepOk(s, s.ops[id], now, newId)) ==>
      !StockAtRisk(s, StepOk(s, s.ops[id], now, newId).o)
    ensures Legal(cfg, s, id, StepOk(s, s.ops[id], now, newId))
  {
  }

  lemma StepIsLegal(cfg: Config, s: State, a: Action)
    requires Inv(cfg, s) && Allowed(cfg, s, a) && !a.BeginCreate?
    ensures Legal(cfg, s, a.id, EffectOf(s, a))
  {
    hide RowOk, PcOk, LedgerOk, Compatible, Legal, StepFailed, StepOk, Begin;
    if !a.Advance? {
      BeginIsLegal(cfg, s, a);
    } else if a.outcome.Fails? {
      FailureIsLegal(cfg, s, a.id);
    } else if s.ops[a.id].PayReserve? {
      ReinstatementIsLegal(cfg, s, a.id, a.outcome.now, a.outcome.newId);
      assert EffectOf(s, a) == StepPayReserve(s.ops[a.id], a.outcome.now, a.outcome.newId) by {
        PayReserveStep(s, s.ops[a.id], a.outcome.now, a.outcome.newId);
      }
    } else if IsPay(s.ops[a.id]) {
      PayStepIsLegal(cfg, s, a.id, a.outcome.now, a.outcome.newId);
    } else {
      OtherStepIsLegal(cfg, s, a.id, a.outcome.now, a.outcome.newId);
    }
  }

  lemma PayReserveStep(s: State, pc: Pc, now: int, newId: ResId)
    requires pc.PayReserve? && pc.o in s.orders
    ensures StepOk(s, pc, now, newId) == StepPayReserve(pc, now, newId)
  {
  }
}
