/**
 * What every run of the order service keeps, with no guard on cancels: whose payment an order carries and
 * what was paid for it, what it charges, and which request it answers.
 */
module OrderMoney {
  import opened Common
  import opened Orders
  import opened OrderProtocol

  /** Everything the handlers can do; only the payment of an order is fixed. */
  predicate Unrestricted(cfg: Config, s: State, a: Action) {
    OnePayment(cfg, a) && Enabled(s, a)
  }

  ghost predicate Possible(cfg: Config, s: State, actions: seq<Action>)
    decreases |actions|
  {
    actions == [] || (Unrestricted(cfg, s, actions[0]) && Possible(cfg, Step(s, actions[0]), actions[1..]))
  }

  function Reached(cfg: Config, s: State, actions: seq<Action>): State
    requires Possible(cfg, s, actions)
    decreases |actions|
  {
    if actions == [] then s else Reached(cfg, Step(s, actions[0]), actions[1..])
  }

  // --------------------------------------------------------------- invariant

  predicate Sent(s: State, o: OrderId) {
    o in s.orders && s.orders[o].status in {InTransit, Fulfilled}
  }

  /** A reservation made for this order. */
  predicate MadeFor(s: State, r: ResId, o: OrderId) {
    r in s.ledger && s.ledger[r].order == o
  }

  predicate RowFree(cfg: Config, s: State, o: OrderId)
    requires o in s.orders
  {
    var row := s.orders[o];
    && o < s.nextOrder && MadeFor(s, row.reservation, o)
    && (row.payment != 0 ==> row.payment == cfg.payOf(o) && o in s.paidBy && s.paidBy[o] == row.bill.total)
    && (row.status == Pending ==> row.payment == 0)
    && (row.status in {Paid, InTransit, Fulfilled} ==> row.payment != 0)
  }

  /** A local copy about to be stored paid. */
  predicate PaidInFullCopy(cfg: Config, s: State, o: OrderId, p: PayId, amount: int, local: Row) {
    o in s.orders && p == cfg.payOf(o) == local.payment != 0 && local.status == Paid
    && amount == local.bill.total && local.bill == s.orders[o].bill && MadeFor(s, local.reservation, o)
  }

  predicate PcFree(cfg: Config, s: State, pc: Pc) {
    match pc
    case CreateReserve(o, _) => o < s.nextOrder && o !in s.orders
    case CreateSave(o, _, r) => o < s.nextOrder && o !in s.orders && MadeFor(s, r, o)
    case PayReserve(o, p, _, local, _) =>
      o in s.orders && p == cfg.payOf(o) && s.orders[o].status != Pending
      && local.status == Canceled && local.bill == s.orders[o].bill
    case PayReread(o, p, amount, local) => PaidInFullCopy(cfg, s, o, p, amount, local)
    case PaySave(o, p, amount, local, reinstated, _) =>
      PaidInFullCopy(cfg, s, o, p, amount, local) && (reinstated ==> s.orders[o].status != Pending)
    case PayRecheck(o, p, _, r) =>
      o in s.orders && p == cfg.payOf(o) && (r.Some? ==> p != 0 && s.orders[o].payment == p && r.value in s.ledger)
    case ShipCommit(o, local) => o in s.orders && local.reservation in s.ledger
    case FulfillSave(o, local) => Sent(s, o) && local == s.orders[o].(status := Fulfilled)
    case Release(r) => r in s.ledger
    case _ => pc.o in s.orders
  }

  predicate Apart(a: Pc, b: Pc) {
    IsCreate(a) && IsCreate(b) ==> a.o != b.o
  }

  ghost predicate BillOk(s: State, o: OrderId)
    requires o in s.orders
  {
    o in s.lines && ValidBill(s.lines[o], s.orders[o].bill)
  }

  ghost predicate KeysOk(s: State) {
    && (forall k :: k in s.idem ==> s.idem[k].order in s.keyOf && s.keyOf[s.idem[k].order] == k)
    && (forall o :: o in s.keyOf ==> o in s.orders && s.keyOf[o] in s.idem && s.idem[s.keyOf[o]].order == o)
  }

  ghost predicate InvFree(cfg: Config, s: State) {
    && (forall o :: o in s.orders ==> RowFree(cfg, s, o) && BillOk(s, o))
    && (forall id :: id in s.ops ==> PcFree(cfg, s, s.ops[id]))
    && (forall i, j :: i in s.ops && j in s.ops && i != j ==> Apart(s.ops[i], s.ops[j]))
    && KeysOk(s)
  }

  // ------------------------------------------------------- effects that keep it

  /** The effects the handlers have: what they store is the order's own. */
  ghost predicate Sensible(cfg: Config, s: State, id: OpId, e: Effect) {
    match e
    case Move(next) => next.Some? ==> PcFree(cfg, s, next.value) && !IsCreate(next.value)
    case Reserve(o, r, cont) =>
      id in s.ops && r !in s.ledger && PcFree(cfg, Apply(s, id, e), cont)
      && (IsCreate(cont) ==> IsCreate(s.ops[id]) && s.ops[id].o == cont.o)
    case Commit(r, cont) => PcFree(cfg, s, cont) && !IsCreate(cont)
    case Free(r) => true
    case Insert(o, row, d) =>
      id in s.ops && s.ops[id] == CreateSave(o, d, row.reservation) && row.status == Pending && row.payment == 0
      && ValidBill(Normalized(d.up, d.lines), row.bill) && (d.key.Some? ==> d.key.value !in s.idem)
    case StorePaid(o, p, r, _, amount) =>
      o in s.orders && s.orders[o].status in {Pending, Canceled} && p == cfg.payOf(o) != 0
      && amount == s.orders[o].bill.total && MadeFor(s, r, o)
    case StoreCanceled(o) => o in s.orders && s.orders[o].status in {Pending, Paid}
    case StoreShipped(o) => o in s.orders && s.orders[o].status == Paid
    case StoreFulfilled(o, row) => Sent(s, o) && row == s.orders[o].(status := Fulfilled)
  }

  /** An order that is stored stays stored, with its lines, its bill and, once paid, its payment. */
  ghost predicate Continues(s: State, s': State, o: OrderId) {
    o in s.orders && o in s.lines ==>
      && o in s'.orders && o in s'.lines && s'.lines[o] == s.lines[o]
      && s'.orders[o].bill == s.orders[o].bill
      && (s.orders[o].payment != 0 ==> s'.orders[o].payment == s.orders[o].payment)
  }

  // What the other handlers rely on.
  ghost predicate Onward(s: State, t: State, id: OpId, o: OrderId) {
    && s.nextOrder <= t.nextOrder
    && (forall r :: r in s.ledger ==> r in t.ledger && t.ledger[r].order == s.ledger[r].order)
    && (o in s.orders ==> o in t.orders && t.orders[o].bill == s.orders[o].bill
                          && (s.orders[o].status != Pending ==> t.orders[o].status != Pending)
                          && (s.orders[o].payment != 0 ==> t.orders[o].payment == s.orders[o].payment))
    && (Sent(s, o) ==> Sent(t, o) && t.orders[o].(status := Fulfilled) == s.orders[o].(status := Fulfilled))
    && (o in t.orders && o !in s.orders ==> id in s.ops && s.ops[id].CreateSave? && s.ops[id].o == o)
  }

  ghost predicate Ready(cfg: Config, s: State, id: OpId, e: Effect) {
    && (forall o :: o in s.orders ==> RowFree(cfg, s, o))
    && Sensible(cfg, s, id, e) && (id in s.ops ==> PcFree(cfg, s, s.ops[id]))
  }

  lemma EffectGoesOnward(cfg: Config, s: State, id: OpId, e: Effect, o: OrderId)
    requires Ready(cfg, s, id, e)
    ensures Onward(s, Apply(s, id, e), id, o)
  {
    hide ValidBill, Normalized;
  }

  lemma OnwardKeepsPc(cfg: Config, s: State, t: State, id: OpId, pc: Pc)
    requires PcFree(cfg, s, pc) && (id in s.ops ==> Apart(s.ops[id], pc))
    requires Onward(s, t, id, if pc.Release? then 0 else pc.o)
    ensures PcFree(cfg, t, pc)
  {
  }

  lemma RowStaysFree(cfg: Config, s: State, id: OpId, e: Effect, o: OrderId)
    requires Ready(cfg, s, id, e) && o in Apply(s, id, e).orders
    ensures RowFree(cfg, Apply(s, id, e), o)
  {
    hide ValidBill, Normalized;
    assert o in s.orders ==> RowFree(cfg, s, o);
  }

  lemma OwnPcStaysFree(cfg: Config, s: State, id: OpId, e: Effect)
    requires Ready(cfg, s, id, e) && id in Apply(s, id, e).ops
    ensures PcFree(cfg, Apply(s, id, e), Apply(s, id, e).ops[id])
  {
    hide ValidBill, Normalized;
  }

  lemma CreatorsStayApart(cfg: Config, s: State, id: OpId, e: Effect, j: OpId)
    requires Ready(cfg, s, id, e) && j in s.ops && j != id && id in Apply(s, id, e).ops
    requires id in s.ops ==> Apart(s.ops[id], s.ops[j])
    ensures Apart(Apply(s, id, e).ops[id], s.ops[j]) && Apart(s.ops[j], Apply(s, id, e).ops[id])
  {
    hide ValidBill, Normalized;
  }

  lemma BillStaysOk(cfg: Config, s: State, id: OpId, e: Effect, o: OrderId)
    requires Ready(cfg, s, id, e) && (o in s.orders ==> BillOk(s, o)) && o in Apply(s, id, e).orders
    ensures BillOk(Apply(s, id, e), o)
  {
    hide ValidBill, Normalized;
    EffectGoesOnward(cfg, s, id, e, o);
  }

  lemma KeysStayOk(cfg: Config, s: State, id: OpId, e: Effect)
    requires KeysOk(s) && Ready(cfg, s, id, e)
    ensures KeysOk(Apply(s, id, e))
  {
    hide ValidBill, Normalized;
  }

  lemma OnlyOneMoves(s: State, id: OpId, e: Effect)
    ensures forall j :: j != id ==>
      (j in Apply(s, id, e).ops <==> j in s.ops) && (j in s.ops ==> Apply(s, id, e).ops[j] == s.ops[j])
  {
  }

  /** Every sensible effect keeps the invariant. */
  lemma SensibleKeeps(cfg: Config, s: State, id: OpId, e: Effect)
    requires InvFree(cfg, s) && Sensible(cfg, s, id, e)
    ensures InvFree(cfg, Apply(s, id, e))
  {
    hide Apply, RowFree, PcFree, Apart, BillOk, KeysOk, Sensible, Onward;
    var t := Apply(s, id, e);
    assert Ready(cfg, s, id, e);
    OnlyOneMoves(s, id, e);
    KeysStayOk(cfg, s, id, e);
    forall o | o in t.orders ensures RowFree(cfg, t, o) && BillOk(t, o) {
      RowStaysFree(cfg, s, id, e, o);
      BillStaysOk(cfg, s, id, e, o);
    }
    forall j | j in t.ops ensures PcFree(cfg, t, t.ops[j]) {
      if j == id {
        OwnPcStaysFree(cfg, s, id, e);
      } else {
        EffectGoesOnward(cfg, s, id, e, if s.ops[j].Release? then 0 else s.ops[j].o);
        OnwardKeepsPc(cfg, s, t, id, s.ops[j]);
      }
    }
    forall i, j | i in t.ops && j in t.ops && i != j ensures Apart(t.ops[i], t.ops[j]) {
      if i == id {
        CreatorsStayApart(cfg, s, id, e, j);
      } else if j == id {
        CreatorsStayApart(cfg, s, id, e, i);
      }
    }
  }

  // -------------------------------------------------- every step has such an effect

  lemma BeginIsSensible(cfg: Config, s: State, a: Action)
    requires (forall o :: o in s.orders ==> RowFree(cfg, s, o))
    requires Unrestricted(cfg, s, a) && !a.Advance? && !a.BeginCreate?
    ensures Sensible(cfg, s, a.id, Begin(s, a))
  {
    hide BillFor, ValidBill, Normalized;
    assert a.o in s.orders ==> RowFree(cfg, s, a.o);
  }

  lemma FailureIsSensible(cfg: Config, s: State, id: OpId)
    requires id in s.ops && PcFree(cfg, s, s.ops[id])
    ensures Sensible(cfg, s, id, StepFailed(s.ops[id]))
  {
    hide BillFor, ValidBill, Normalized;
  }

  lemma ReinstatementIsSensible(cfg: Config, s: State, id: OpId, now: int, newId: ResId)
    requires id in s.ops && s.ops[id].PayReserve? && PcFree(cfg, s, s.ops[id]) && newId != 0 && newId !in s.ledger
    ensures Sensible(cfg, s, id, StepOk(s, s.ops[id], now, newId))
  {
    hide ValidBill, Normalized, BillFor;
  }

  lemma PayStepIsSensible(cfg: Config, s: State, id: OpId, now: int, newId: ResId)
    requires (forall o :: o in s.orders ==> RowFree(cfg, s, o))
    requires id in s.ops && PcFree(cfg, s, s.ops[id]) && IsPay(s.ops[id]) && !s.ops[id].PayReserve?
    ensures Sensible(cfg, s, id, StepOk(s, s.ops[id], now, newId))
  {
    hide BillFor, ValidBill, Normalized;
    assert RowFree(cfg, s, s.ops[id].o);
  }

  lemma OtherStepIsSensible(cfg: Config, s: State, id: OpId, now: int, newId: ResId)
    requires (forall o :: o in s.orders ==> RowFree(cfg, s, o))
    requires id in s.ops && PcFree(cfg, s, s.ops[id]) && newId != 0 && newId !in s.ledger
    requires !IsPay(s.ops[id]) && PcKnown(s, s.ops[id])
    ensures Sensible(cfg, s, id, StepOk(s, s.ops[id], now, newId))
  {
    hide ValidBill, Normalized, BillFor;
    if s.ops[id].CreateSave? {
      var d := s.ops[id].draft;
      BillForIsValid(d.up, d.lines, d.discount, d.shipping);
    }
  }

  lemma StepIsSensible(cfg: Config, s: State, a: Action)
    requires InvFree(cfg, s) && Unrestricted(cfg, s, a) && !a.BeginCreate?
    ensures Sensible(cfg, s, a.id, EffectOf(s, a))
  {
    hide RowFree, PcFree, BillOk, KeysOk, Sensible, StepOk, StepFailed, Begin;
    if !a.Advance? {
      BeginIsSensible(cfg, s, a);
    } else if a.outcome.Fails? {
      FailureIsSensible(cfg, s, a.id);
    } else if s.ops[a.id].PayReserve? {
      ReinstatementIsSensible(cfg, s, a.id, a.outcome.now, a.outcome.newId);
    } else if IsPay(s.ops[a.id]) {
      PayStepIsSensible(cfg, s, a.id, a.outcome.now, a.outcome.newId);
    } else {
      OtherStepIsSensible(cfg, s, a.id, a.outcome.now, a.outcome.newId);
    }
  }

  /** A create takes the next order number, which nobody else has. */
  lemma CreateStartsFree(cfg: Config, s: State, id: OpId, draft: Draft)
    requires InvFree(cfg, s) && id !in s.ops
    ensures InvFree(cfg, s.(ops := s.ops[id := CreateReserve(s.nextOrder, draft)], nextOrder := s.nextOrder + 1))
  {
    hide BillOk;
    var t := s.(ops := s.ops[id := CreateReserve(s.nextOrder, draft)], nextOrder := s.nextOrder + 1);
    forall o | o in t.orders ensures RowFree(cfg, t, o) && BillOk(t, o) {
      assert RowFree(cfg, s, o);
      BillOnly(s, t, o);
    }
    forall j | j in t.ops ensures PcFree(cfg, t, t.ops[j]) {
      if j != id {
        assert PcFree(cfg, s, s.ops[j]);
      }
    }
    forall i, j | i in t.ops && j in t.ops && i != j ensures Apart(t.ops[i], t.ops[j]) {
      assert i != id ==> PcFree(cfg, s, s.ops[i]);
      assert j != id ==> PcFree(cfg, s, s.ops[j]);
    }
  }

  lemma BillOnly(s: State, t: State, o: OrderId)
    requires o in s.orders && BillOk(s, o) && t.orders == s.orders && t.lines == s.lines
    ensures BillOk(t, o)
  {
  }

  lemma FreeStepKeeps(cfg: Config, s: State, a: Action)
    requires InvFree(cfg, s) && Unrestricted(cfg, s, a)
    ensures InvFree(cfg, Step(s, a))
  {
    hide InvFree, Sensible, StepOk, StepFailed;
    if a.BeginCreate? && Begin(s, a) != DONE {
      CreateStartsFree(cfg, s, a.id, a.draft);
    } else if a.BeginCreate? {
      RepeatIsSensible(cfg, s, a.id);
      SensibleKeeps(cfg, s, a.id, DONE);
    } else {
      StepIsSensible(cfg, s, a);
      SensibleKeeps(cfg, s, a.id, EffectOf(s, a));
    }
  }

  lemma RepeatIsSensible(cfg: Config, s: State, id: OpId)
    ensures Sensible(cfg, s, id, DONE)
  {
  }

  lemma {:induction false} FreeRunKeeps(cfg: Config, s: State, actions: seq<Action>)
    requires InvFree(cfg, s) && Possible(cfg, s, actions)
    ensures InvFree(cfg, Reached(cfg, s, actions))
    decreases |actions|
  {
    hide InvFree, Step, Enabled;
    if actions != [] {
      FreeStepKeeps(cfg, s, actions[0]);
      FreeRunKeeps(cfg, Step(s, actions[0]), actions[1..]);
    }
  }

  lemma EmptyIsFree(cfg: Config)
    ensures InvFree(cfg, EMPTY)
  {
  }

  // ------------------------------------------------------------------ money

  /**
   * Whoever was ever paid was paid in full: the paying event's amount is the order's total, which is
   * its goods less a discount no larger than them, plus delivery, and so never less than delivery.
   */
  lemma PaidInFull(cfg: Config, past: seq<Action>, o: OrderId)
    requires Possible(cfg, EMPTY, past) && o in Reached(cfg, EMPTY, past).orders
    ensures var s := Reached(cfg, EMPTY, past); var row := s.orders[o];
            && o in s.lines && row.bill.total == Subtotal(s.lines[o]) - row.bill.discount + row.bill.shipping
            && row.bill.total >= row.bill.shipping >= 0
            && (row.status in {Paid, InTransit, Fulfilled} ==> row.payment != 0)
            && (row.payment != 0 ==> row.payment == cfg.payOf(o) && o in s.paidBy && s.paidBy[o] == row.bill.total)
  {
    EmptyIsFree(cfg);
    FreeRunKeeps(cfg, EMPTY, past);
    var s := Reached(cfg, EMPTY, past);
    hide Reached, Possible;
    assert RowFree(cfg, s, o) && BillOk(s, o);
  }

  lemma StepContinues(cfg: Config, s: State, a: Action, o: OrderId)
    requires InvFree(cfg, s) && Unrestricted(cfg, s, a)
    ensures Continues(s, Step(s, a), o)
  {
    hide RowFree, PcFree, BillOk, KeysOk, Sensible, StepOk, StepFailed, Apply;
    if a.BeginCreate? {
      CreateTouchesNothing(s, a);
    } else {
      var e := EffectOf(s, a);
      StepIsSensible(cfg, s, a);
      EffectGoesOnward(cfg, s, a.id, e, o);
      if o in s.orders && o in s.lines {
        LinesStay(cfg, s, a.id, e, o);
      }
    }
  }

  lemma CreateTouchesNothing(s: State, a: Action)
    requires a.BeginCreate? && Enabled(s, a)
    ensures var s' := Step(s, a); s'.orders == s.orders && s'.lines == s.lines && s'.ledger == s.ledger
  {
  }

  lemma LinesStay(cfg: Config, s: State, id: OpId, e: Effect, o: OrderId)
    requires Ready(cfg, s, id, e) && o in s.orders && o in s.lines
    ensures o in Apply(s, id, e).lines && Apply(s, id, e).lines[o] == s.lines[o]
  {
    hide ValidBill, Normalized;
  }

  lemma {:induction false} RunContinues(cfg: Config, s: State, actions: seq<Action>, o: OrderId)
    requires InvFree(cfg, s) && Possible(cfg, s, actions) && o in s.orders
    ensures o in s.lines && Continues(s, Reached(cfg, s, actions), o)
    decreases |actions|
  {
    hide Step, Enabled, RowFree, PcFree, KeysOk, ValidBill;
    assert BillOk(s, o);
    if actions != [] {
      FreeStepKeeps(cfg, s, actions[0]);
      StepContinues(cfg, s, actions[0], o);
      RunContinues(cfg, Step(s, actions[0]), actions[1..], o);
    }
  }

  /** The charge an order was created with is the charge it keeps, through expiry, refund and reinstatement. */
  lemma ChargeNeverChanges(cfg: Config, past: seq<Action>, more: seq<Action>, o: OrderId)
    requires Possible(cfg, EMPTY, past) && Possible(cfg, Reached(cfg, EMPTY, past), more)
    requires o in Reached(cfg, EMPTY, past).orders
    ensures var s := Reached(cfg, EMPTY, past); var t := Reached(cfg, s, more);
            && o in t.orders && t.orders[o].bill == s.orders[o].bill
            && o in s.lines && o in t.lines && t.lines[o] == s.lines[o]
            && (s.orders[o].payment != 0 ==> t.orders[o].payment == s.orders[o].payment)
  {
    hide InvFree;
    EmptyIsFree(cfg);
    FreeRunKeeps(cfg, EMPTY, past);
    RunContinues(cfg, Reached(cfg, EMPTY, past), more, o);
  }

  // ------------------------------------------------------------ idempotency

  /** However creates race, an idempotency key has at most one order, and the key's record names it. */
  lemma OneOrderPerKey(cfg: Config, past: seq<Action>, o: OrderId, q: OrderId)
    requires Possible(cfg, EMPTY, past)
    requires o in Reached(cfg, EMPTY, past).keyOf && q in Reached(cfg, EMPTY, past).keyOf
    requires Reached(cfg, EMPTY, past).keyOf[o] == Reached(cfg, EMPTY, past).keyOf[q]
    ensures var s := Reached(cfg, EMPTY, past);
            o == q && o in s.orders && s.keyOf[o] in s.idem && s.idem[s.keyOf[o]].order == o
  {
    EmptyIsFree(cfg);
    FreeRunKeeps(cfg, EMPTY, past);
  }

  // ------------------------------------------------------------ termination

  /** How many more calls the handler at pc can make. */
  function CallsLeft(pc: Pc): nat {
    match pc
    case CreateReserve(_, _) => 3
    case CreateSave(_, _, _) => 2
    case PayReread(_, _, _, _) => 7
    case PayReserve(_, _, _, _, last) => if last then 3 else 6
    case PaySave(_, _, _, _, _, last) => if last then 2 else 5
    case PayRecheck(_, _, _, _) => 4
    case ExpireCancel(_, _) => 2
    case RefundCancel(_, _) => 2
    case ShipCommit(_, _) => 2
    case ShipSave(_, _) => 1
    case FulfillSave(_, _) => 1
    case Release(_) => 1
  }

  /** A handler reconciles once and then stops: no handler runs forever, whatever the others do. */
  lemma HandlersFinish(s: State, a: Action)
    requires Enabled(s, a) && a.Advance?
    ensures a.id in Step(s, a).ops ==> CallsLeft(Step(s, a).ops[a.id]) < CallsLeft(s.ops[a.id])
  {
  }

  /** A handler in flight always works on a stored order. */
  lemma HandlerKnown(cfg: Config, s: State, id: OpId)
    requires InvFree(cfg, s) && id in s.ops
    ensures PcKnown(s, s.ops[id])
  {
    assert PcFree(cfg, s, s.ops[id]);
  }

  /** And a handler is never stuck: in every reachable state its next call can fail or succeed, with any fresh id. */
  lemma HandlersNeverStuck(cfg: Config, past: seq<Action>, id: OpId, outcome: Outcome)
    requires Possible(cfg, EMPTY, past) && id in Reached(cfg, EMPTY, past).ops
    requires outcome.Succeeds? ==> outcome.newId != 0 && outcome.newId !in Reached(cfg, EMPTY, past).ledger
    ensures Unrestricted(cfg, Reached(cfg, EMPTY, past), Advance(id, outcome))
  {
    EmptyIsFree(cfg);
    FreeRunKeeps(cfg, EMPTY, past);
    HandlerKnown(cfg, Reached(cfg, EMPTY, past), id);
  }
}
