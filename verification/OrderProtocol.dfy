/**
 * The order service as a transition system. Several handlers run at once; between two calls to the
 * repository or to the stock service any other handler may take steps. A handler in flight is a
 * program counter holding its local copies, and one action is one such call together with the local
 * work that follows it.
 */
module OrderProtocol {
  import opened Common
  import opened Orders

  type OrderId = Id
  type ResId = Id
  type PayId = Id
  type OpId = nat
  type Key = nat

  // ------------------------------------------------------------ shared state

  datatype ResStatus = Active | Committed | Released

  datatype Reservation = Reservation(order: OrderId, status: ResStatus)

  datatype IdemRecord = IdemRecord(order: OrderId, hash: nat)

  /** What a create request asks for once its lines are priced. */
  datatype Draft = Draft(up: char -> char, customer: Id, lines: seq<Line>, discount: int, shipping: int,
                         key: Option<Key>, hash: nat)

  /** Where an in-flight handler stands: the call it makes next, and its local copies. */
  datatype Pc =
    // CreateOrder
    | CreateReserve(o: OrderId, draft: Draft)
    | CreateSave(o: OrderId, draft: Draft, r: ResId)
    // MarkOrderPaid
    | PayReserve(o: OrderId, p: PayId, amount: int, local: Row, last: bool)
    | PayReread(o: OrderId, p: PayId, amount: int, local: Row)
    | PaySave(o: OrderId, p: PayId, amount: int, local: Row, reinstated: bool, last: bool)
    | PayRecheck(o: OrderId, p: PayId, amount: int, reinstatement: Option<ResId>)
    // cancelExpiredPendingOrder, CancelOrderForRefund
    | ExpireCancel(o: OrderId, now: int)
    | RefundCancel(o: OrderId, p: PayId)
    // ShipOrder, FulfillOrder
    | ShipCommit(o: OrderId, local: Row)
    | ShipSave(o: OrderId, local: Row)
    | FulfillSave(o: OrderId, local: Row)
    // the release every failure, lost race and cancellation ends with
    | Release(r: ResId)

  /** ledger and orders are the stores; nextOrder numbers orders; paidBy and keyOf are history. */
  datatype State = State(
    orders: map<OrderId, Row>,
    lines: map<OrderId, seq<Line>>,
    ledger: map<ResId, Reservation>,
    idem: map<Key, IdemRecord>,
    nextOrder: OrderId,
    ops: map<OpId, Pc>,
    paidBy: map<OrderId, int>,
    keyOf: map<OrderId, Key>)

  /** How the next call of a handler turns out: it fails, or it succeeds at a time, with a fresh id. */
  datatype Outcome = Fails | Succeeds(now: int, newId: ResId)

  datatype Action =
    | BeginCreate(id: OpId, draft: Draft)
    | BeginPay(id: OpId, o: OrderId, p: PayId, amount: int)
    | BeginExpire(id: OpId, o: OrderId, now: int)
    | BeginRefund(id: OpId, o: OrderId, p: PayId, remaining: int)
    | BeginShip(id: OpId, o: OrderId)
    | BeginFulfill(id: OpId, o: OrderId)
    | OperatorCancel(id: OpId, o: OrderId)
    | Advance(id: OpId, outcome: Outcome)

  // ------------------------------------------------------- one handler's step

  /** What one call does to the shared state, and where the handler goes next. */
  datatype Effect =
    | Move(next: Option<Pc>)
    | Reserve(o: OrderId, r: ResId, cont: Pc)
    | Commit(r: ResId, cont: Pc)
    | Free(r: ResId)
    | Insert(o: OrderId, row: Row, draft: Draft)
    | StorePaid(o: OrderId, p: PayId, r: ResId, due: int, amount: int)
    | StoreCanceled(o: OrderId)
    | StoreShipped(o: OrderId)
    | StoreFulfilled(o: OrderId, row: Row)

  const DONE := Move(None)

  /** The draft as a stored row, or None when NewOrder refuses it. */
  function NewRow(o: OrderId, d: Draft, r: ResId, now: int): Option<Row> {
    if o == 0 || d.customer == 0 || r == 0 then None
    else match BillFor(d.up, d.lines, d.discount, d.shipping)
         case None => None
         case Some(b) => Some(Row(Pending, r, 0, b, now + PAYMENT_TTL))
  }

  predicate AlreadyApplied(row: Row, p: PayId) {
    row.payment == p && row.status != Pending
  }

  /** After a failure or a lost race: give back what this handler reserved, if anything. */
  function GiveBack(r: Option<ResId>): Effect {
    match r
    case None => DONE
    case Some(x) => Move(Some(Release(x)))
  }

  function StartPay(row: Row, o: OrderId, p: PayId, amount: int): Effect {
    if AlreadyApplied(row, p) then DONE
    else if row.status == Canceled then Move(Some(PayReserve(o, p, amount, row, false)))
    else match PaidRow(row, p, amount)
         case Err(_) => DONE
         case Ok(paid) => Move(Some(PayReread(o, p, amount, paid)))
  }

  function StepPayReserve(pc: Pc, now: int, r: ResId): Effect
    requires pc.PayReserve?
  {
    match ReinstatedRow(pc.local, r, now)
    case Err(_) => Reserve(pc.o, r, Release(r))
    case Ok(pending) =>
      match PaidRow(pending, pc.p, pc.amount)
      case Err(_) => Reserve(pc.o, r, Release(r))
      case Ok(paid) => Reserve(pc.o, r, PaySave(pc.o, pc.p, pc.amount, paid, true, pc.last))
  }

  function StepPayReread(pc: Pc, seen: Row): Effect
    requires pc.PayReread?
  {
    if AlreadyApplied(seen, pc.p) then DONE
    else if seen.status == Canceled then Move(Some(PayReserve(pc.o, pc.p, pc.amount, seen, false)))
    else Move(Some(PaySave(pc.o, pc.p, pc.amount, pc.local, false, false)))
  }

  /** Where a guarded save that found the status moved on leaves its handler. */
  function StepNotSaved(pc: Pc): Effect
    requires pc.PaySave?
  {
    var mine := if pc.reinstated then Some(pc.local.reservation) else None;
    if pc.last then GiveBack(mine) else Move(Some(PayRecheck(pc.o, pc.p, pc.amount, mine)))
  }

  /** persistPaid: the guarded save, which leaves the row alone when its status has moved on. */
  function StepPaySave(pc: Pc, stored: Row): Effect
    requires pc.PaySave?
  {
    if stored.status == (if pc.reinstated then Canceled else Pending) then
      var due := if pc.reinstated then pc.local.due else stored.due;
      StorePaid(pc.o, pc.local.payment, pc.local.reservation, due, pc.amount)
    else StepNotSaved(pc)
  }

  function StepPayRecheck(pc: Pc, seen: Row): Effect
    requires pc.PayRecheck?
  {
    if AlreadyApplied(seen, pc.p) then GiveBack(pc.reinstatement)
    else if seen.status == Canceled then Move(Some(PayReserve(pc.o, pc.p, pc.amount, seen, true)))
    else GiveBack(pc.reinstatement)
  }

  /** What the handler at pc does when its next call fails. */
  function StepFailed(pc: Pc): Effect {
    match pc
    case CreateSave(_, _, r) => Move(Some(Release(r)))
    case PaySave(_, _, _, local, reinstated, _) => GiveBack(if reinstated then Some(local.reservation) else None)
    case PayRecheck(_, _, _, r) => GiveBack(r)
    case Release(r) => Free(r)
    case _ => DONE
  }

  /** What the handler at pc does when its next call succeeds. */
  function StepOk(s: State, pc: Pc, now: int, newId: ResId): Effect
    requires !pc.CreateReserve? && !pc.CreateSave? && !pc.Release? ==> pc.o in s.orders
    requires pc.ShipCommit? ==> pc.local.reservation in s.ledger
  {
    match pc
    case CreateReserve(o, d) => Reserve(o, newId, CreateSave(o, d, newId))
    case CreateSave(o, d, r) =>
      (match NewRow(o, d, r, now)
       case None => Move(Some(Release(r)))
       case Some(row) => if d.key.Some? && d.key.value in s.idem then Move(Some(Release(r))) else Insert(o, row, d))
    case PayReserve(_, _, _, _, _) => StepPayReserve(pc, now, newId)
    case PayReread(o, _, _, _) => StepPayReread(pc, s.orders[o])
    case PaySave(o, _, _, _, _, _) => StepPaySave(pc, s.orders[o])
    case PayRecheck(o, _, _, _) => StepPayRecheck(pc, s.orders[o])
    case ExpireCancel(o, at) =>
      if PaymentExpired(s.orders[o], at) then StoreCanceled(o) else DONE
    case RefundCancel(o, p) =>
      if s.orders[o].status == Paid && p != 0 && s.orders[o].payment == p
      then StoreCanceled(o) else DONE
    case ShipCommit(o, local) =>
      (match s.ledger[local.reservation].status
       case Active => Commit(local.reservation, ShipSave(o, local))
       case Committed => Move(Some(ShipSave(o, local)))
       case Released => DONE)
    case ShipSave(o, _) =>
      if s.orders[o].status == Paid then StoreShipped(o) else DONE
    case FulfillSave(o, local) => StoreFulfilled(o, local)
    case Release(r) => Free(r)
  }

  /** The first call a handler makes: it loads the order, or looks its idempotency key up. */
  function Begin(s: State, a: Action): Effect
    requires !a.Advance?
  {
    if a.BeginCreate? then
      if a.draft.key.Some? && a.draft.key.value in s.idem then DONE
      else Move(Some(CreateReserve(s.nextOrder, a.draft)))
    else if a.o !in s.orders then DONE
    else
      var row := s.orders[a.o];
      match a
      case BeginPay(_, o, p, amount) => StartPay(row, o, p, amount)
      case BeginExpire(_, o, now) => if PaymentExpired(row, now) then Move(Some(ExpireCancel(o, now))) else DONE
      case BeginRefund(_, o, p, remaining) =>
        if remaining > 0 || p == 0 || row.payment != p || row.status != Paid then DONE
        else Move(Some(RefundCancel(o, p)))
      case BeginShip(_, o) => if row.status == Paid then Move(Some(ShipCommit(o, row))) else DONE
      case BeginFulfill(_, o) =>
        (match FulfilledRow(row)
         case Err(_) => DONE
         case Ok(fulfilled) => Move(Some(FulfillSave(o, fulfilled))))
      case OperatorCancel(_, o) =>
        (match CanceledRow(row)
         case Err(_) => DONE
         case Ok(_) => StoreCanceled(o))
  }

  /** The columns each save writes; a save of a row that is not stored writes nothing. */
  function OrdersAfter(orders: map<OrderId, Row>, e: Effect): map<OrderId, Row> {
    match e
    case Insert(o, row, _) => orders[o := row]
    case StorePaid(o, p, r, due, _) =>
      if o in orders then orders[o := orders[o].(status := Paid, payment := p, reservation := r, due := due)]
      else orders
    case StoreCanceled(o) => if o in orders then orders[o := orders[o].(status := Canceled)] else orders
    case StoreShipped(o) => if o in orders then orders[o := orders[o].(status := InTransit)] else orders
    case StoreFulfilled(o, row) => orders[o := row]
    case _ => orders
  }

  /** The ledger keeps every reservation: each is closed once, and closing it again changes nothing. */
  function LedgerAfter(ledger: map<ResId, Reservation>, e: Effect): map<ResId, Reservation> {
    match e
    case Reserve(o, r, _) => ledger[r := Reservation(o, Active)]
    case Commit(r, _) =>
      if r in ledger && ledger[r].status == Active then ledger[r := ledger[r].(status := Committed)] else ledger
    case Free(r) =>
      if r in ledger && ledger[r].status == Active then ledger[r := ledger[r].(status := Released)] else ledger
    case _ => ledger
  }

  /** Where the handler goes next; None when it is done. */
  function NextPc(s: State, e: Effect): Option<Pc> {
    match e
    case Move(next) => next
    case Reserve(_, _, cont) => Some(cont)
    case Commit(_, cont) => Some(cont)
    case StoreCanceled(o) => if o in s.orders then Some(Release(s.orders[o].reservation)) else None
    case _ => None
  }

  function SetPc(ops: map<OpId, Pc>, id: OpId, next: Option<Pc>): map<OpId, Pc> {
    match next
    case None => ops - {id}
    case Some(pc) => ops[id := pc]
  }

  function Apply(s: State, id: OpId, e: Effect): State {
    var keyed := e.Insert? && e.draft.key.Some?;
    s.(orders := OrdersAfter(s.orders, e),
       ledger := LedgerAfter(s.ledger, e),
       ops := SetPc(s.ops, id, NextPc(s, e)),
       lines := if e.Insert? then s.lines[e.o := Normalized(e.draft.up, e.draft.lines)] else s.lines,
       idem := if keyed then s.idem[e.draft.key.value := IdemRecord(e.o, e.draft.hash)] else s.idem,
       keyOf := if keyed then s.keyOf[e.o := e.draft.key.value] else s.keyOf,
       paidBy := if e.StorePaid? then s.paidBy[e.o := e.amount] else s.paidBy)
  }

  predicate IsPay(pc: Pc) {
    pc.PayReserve? || pc.PayReread? || pc.PaySave? || pc.PayRecheck?
  }

  predicate IsCreate(pc: Pc) {
    pc.CreateReserve? || pc.CreateSave?
  }

  predicate PcKnown(s: State, pc: Pc) {
    (!pc.CreateReserve? && !pc.CreateSave? && !pc.Release? ==> pc.o in s.orders)
    && (pc.ShipCommit? ==> pc.local.reservation in s.ledger)
  }

  /** An action that can happen at all: ids of new handlers are unused, reserved ids are fresh. */
  predicate Enabled(s: State, a: Action) {
    if a.Advance? then
      a.id in s.ops && PcKnown(s, s.ops[a.id])
      && (a.outcome.Succeeds? ==> a.outcome.newId != 0 && a.outcome.newId !in s.ledger)
    else a.id !in s.ops
  }

  function EffectOf(s: State, a: Action): Effect
    requires Enabled(s, a)
  {
    if !a.Advance? then Begin(s, a)
    else match a.outcome
         case Fails => StepFailed(s.ops[a.id])
         case Succeeds(now, newId) => StepOk(s, s.ops[a.id], now, newId)
  }

  function Step(s: State, a: Action): State
    requires Enabled(s, a)
  {
    var s' := Apply(s, a.id, EffectOf(s, a));
    if a.BeginCreate? && a.id in s'.ops then s'.(nextOrder := s.nextOrder + 1) else s'
  }

  // ------------------------------------------------------------------- runs

  /** payOf names the one payment whose deliveries an order may see. */
  datatype Config = Config(payOf: OrderId -> PayId)

  /** On the way from seeing an order canceled to storing it paid. */
  predicate Reviving(pc: Pc) {
    pc.PayReserve? || (pc.PaySave? && pc.reinstated)
  }

  predicate RevivalInFlight(s: State, o: OrderId) {
    exists id :: id in s.ops && Reviving(s.ops[id]) && s.ops[id].o == o
  }

  /** Deliveries carry the order's payment. Nothing else is asked of the outside world. */
  predicate OnePayment(cfg: Config, a: Action) {
    a.BeginPay? ==> a.p == cfg.payOf(a.o)
  }

  /** Whether an effect cancels an order that is paid. */
  predicate ClosesPaid(s: State, e: Effect) {
    e.StoreCanceled? && e.o in s.orders && s.orders[e.o].status == Paid
  }

  /** On the way to storing a canceled order paid under new stock: its payment is good for the order's total. */
  predicate Paying(pc: Pc) {
    (pc.PayReserve? && pc.p != 0 && pc.amount == pc.local.bill.total) || (pc.PaySave? && pc.reinstated)
  }

  predicate PayingInFlight(s: State, o: OrderId) {
    exists id :: id in s.ops && Paying(s.ops[id]) && s.ops[id].o == o
  }

  predicate Shipping(pc: Pc) {
    pc.ShipCommit? || pc.ShipSave?
  }

  predicate ShipmentInFlight(s: State, o: OrderId) {
    exists id :: id in s.ops && Shipping(s.ops[id]) && s.ops[id].o == o
  }

  predicate StockCommitted(s: State, o: OrderId) {
    o in s.orders && s.orders[o].reservation in s.ledger && s.ledger[s.orders[o].reservation].status == Committed
  }

  /** The order's goods have left or may leave, while a payment is about to give it other goods. */
  predicate StockAtRisk(s: State, o: OrderId) {
    PayingInFlight(s, o) && (StockCommitted(s, o) || ShipmentInFlight(s, o))
  }

  /** The guard: a paid order is not canceled while its stock is at risk. */
  predicate Guarded(s: State, a: Action)
    requires Enabled(s, a)
  {
    ClosesPaid(s, EffectOf(s, a)) ==> !StockAtRisk(s, EffectOf(s, a).o)
  }

  predicate Allowed(cfg: Config, s: State, a: Action) {
    OnePayment(cfg, a) && Enabled(s, a) && Guarded(s, a)
  }

  const EMPTY := State(map[], map[], map[], map[], 1, map[], map[], map[])

  /** A run: the states a schedule of actions goes through, starting with nothing stored. */
  ghost predicate Run(cfg: Config, states: seq<State>, actions: seq<Action>) {
    |states| == |actions| + 1 && states[0] == EMPTY
    && forall i :: 0 <= i < |actions| ==>
         Allowed(cfg, states[i], actions[i])
         && states[i + 1] == Step(states[i], actions[i])
  }
}
