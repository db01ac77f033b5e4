/**
 * The guard on stock is exact: a cancel of a paid order leaves every guarded continuation sound exactly when
 * the order's stock is not at risk at that moment.
 */
module OrderExactness {
  import opened Common
  import opened Orders
  import opened OrderProtocol
  import opened OrderMoney
  import opened OrderInvariants
  import opened OrderTheorems
  import opened OrderFinality
  import OrderAlone

  /** Each order names stock of its own in the state its status promises. */
  ghost predicate HoldsItsStock(s: State, o: OrderId)
    requires o in s.orders
  {
    var row := s.orders[o];
    && MadeFor(s, row.reservation, o)
    && (row.status == Pending ==> s.ledger[row.reservation].status == Active)
    && (row.status == Paid ==> s.ledger[row.reservation].status != Released)
    && (row.status in {InTransit, Fulfilled} ==> s.ledger[row.reservation].status == Committed)
  }

  ghost predicate CommittedFor(s: State, r: ResId, o: OrderId) {
    MadeFor(s, r, o) && s.ledger[r].status == Committed
  }

  /** Goods leave at most once for an order. */
  ghost predicate GoodsLeftOnce(s: State) {
    forall o, r1, r2 :: CommittedFor(s, r1, o) && CommittedFor(s, r2, o) ==> r1 == r2
  }

  /** With no handler in flight, stock on hold is a pending or paid order's. */
  ghost predicate NothingStranded(s: State) {
    s.ops == map[] ==> forall r :: r in s.ledger && s.ledger[r].status == Active ==> NamedLive(s, r)
  }

  ghost predicate StockSound(s: State) {
    (forall o :: o in s.orders ==> HoldsItsStock(s, o)) && GoodsLeftOnce(s) && NothingStranded(s)
  }

  lemma InvIsSound(cfg: Config, s: State)
    requires Inv(cfg, s)
    ensures StockSound(s)
  {
    forall o | o in s.orders ensures HoldsItsStock(s, o) {
      assert RowOk(cfg, s, o);
    }
    forall o, r1, r2 | CommittedFor(s, r1, o) && CommittedFor(s, r2, o) ensures r1 == r2 {
      assert LedgerOk(s, r1) && LedgerOk(s, r2);
    }
    forall r | s.ops == map[] && r in s.ledger && s.ledger[r].status == Active ensures NamedLive(s, r) {
      assert LedgerOk(s, r);
    }
  }

  // ------------------------------------------------------- guarded continuations

  ghost predicate AllGuarded(cfg: Config, s: State, actions: seq<Action>)
    requires Possible(cfg, s, actions)
    decreases |actions|
  {
    actions == [] || (Guarded(s, actions[0]) && AllGuarded(cfg, Step(s, actions[0]), actions[1..]))
  }

  ghost predicate Heeds(cfg: Config, s: State, actions: seq<Action>) {
    Possible(cfg, s, actions) && AllGuarded(cfg, s, actions)
  }

  lemma {:induction false} HeedingKeeps(cfg: Config, s: State, actions: seq<Action>)
    requires Inv(cfg, s) && Heeds(cfg, s, actions)
    ensures Inv(cfg, Reached(cfg, s, actions))
    decreases |actions|
  {
    hide Inv, Step, Enabled, Guarded;
    if actions != [] {
      StepKeeps(cfg, s, actions[0]);
      HeedingKeeps(cfg, Step(s, actions[0]), actions[1..]);
    }
  }

  /** From here a guarded continuation commits two reservations of this order. */
  ghost predicate Oversells(cfg: Config, s: State, more: seq<Action>) {
    Heeds(cfg, s, more) && !GoodsLeftOnce(Reached(cfg, s, more))
  }

  lemma OneMore(cfg: Config, s: State, a: Action, t: State, more: seq<Action>)
    requires Unrestricted(cfg, s, a) && Guarded(s, a) && Step(s, a) == t && Oversells(cfg, t, more)
    ensures Oversells(cfg, s, [a] + more)
  {
    assert ([a] + more)[1..] == more;
  }

  lemma NothingMore(cfg: Config, s: State)
    requires !GoodsLeftOnce(s)
    ensures Oversells(cfg, s, [])
  {
  }

  /** The calls of this proof cancel nothing. */
  lemma ThisIsGuarded(s: State, id: OpId, outcome: Outcome)
    requires Enabled(s, Advance(id, outcome)) && (s.ops[id].PayReserve? || s.ops[id].PaySave? || s.ops[id].ShipCommit?)
    ensures Guarded(s, Advance(id, outcome))
  {
  }

  lemma ShipIsGuarded(s: State, id: OpId, o: OrderId)
    requires Enabled(s, BeginShip(id, o))
    ensures Guarded(s, BeginShip(id, o))
  {
  }

  lemma TwoCommitted(s: State, o: OrderId, r1: ResId, r2: ResId)
    requires CommittedFor(s, r1, o) && CommittedFor(s, r2, o) && r1 != r2
    ensures !GoodsLeftOnce(s)
  {
  }

  // --------------------------------------------------------- how stock is oversold

  /** Last: the order is paid under new stock, while its old goods have left. A new shipment commits the new stock. */
  lemma ShipsAgain(cfg: Config, s: State, o: OrderId, r1: ResId) returns (more: seq<Action>)
    requires CommittedFor(s, r1, o) && o in s.orders && s.orders[o].status == Paid && s.orders[o].reservation != r1
    requires MadeFor(s, s.orders[o].reservation, o) && s.ledger[s.orders[o].reservation].status == Active
    ensures Oversells(cfg, s, more)
  {
    var n := UnusedId(s.ops);
    var q := UnusedId(s.ledger);
    var row := s.orders[o];
    var begin, commit := BeginShip(n, o), Advance(n, Succeeds(0, q));
    OrderAlone.BeginShipment(s, n, o);
    ShipIsGuarded(s, n, o);
    var s1 := Step(s, begin);
    OrderAlone.Ready(s1, n, 0, q);
    OrderAlone.CommitCall(s1, n, o, row, 0, q);
    ThisIsGuarded(s1, n, Succeeds(0, q));
    var s2 := Step(s1, commit);
    hide Step, Enabled, Guarded, Oversells, GoodsLeftOnce;
    TwoCommitted(s2, o, r1, row.reservation);
    NothingMore(cfg, s2);
    OneMore(cfg, s1, commit, s2, []);
    OneMore(cfg, s, begin, s1, [commit] + []);
    more := [begin] + ([commit] + []);
  }

  /** Before that: the payment stores the canceled order paid under the stock it reserved. */
  lemma SavesAgain(cfg: Config, s: State, id: OpId, o: OrderId, r1: ResId) returns (more: seq<Action>)
    requires CommittedFor(s, r1, o) && o in s.orders && s.orders[o].status == Canceled
    requires id in s.ops && s.ops[id].PaySave? && s.ops[id].reinstated && s.ops[id].o == o
    requires var r2 := s.ops[id].local.reservation; r2 != r1 && MadeFor(s, r2, o) && s.ledger[r2].status == Active
    ensures Oversells(cfg, s, more)
  {
    var q := UnusedId(s.ledger);
    var save := Advance(id, Succeeds(0, q));
    OrderAlone.Ready(s, id, 0, q);
    OrderAlone.PaidCall(s, id, 0, q);
    ThisIsGuarded(s, id, Succeeds(0, q));
    var s1 := Step(s, save);
    hide Step, Enabled, Guarded, Oversells, GoodsLeftOnce;
    more := ShipsAgain(cfg, s1, o, r1);
    OneMore(cfg, s, save, s1, more);
    more := [save] + more;
  }

  /** Before that: it reserves the stock. */
  lemma ReservesAgain(cfg: Config, s: State, id: OpId, o: OrderId, r1: ResId) returns (more: seq<Action>)
    requires CommittedFor(s, r1, o) && o in s.orders && s.orders[o].status == Canceled
    requires id in s.ops && s.ops[id].PayReserve? && Paying(s.ops[id]) && s.ops[id].o == o
    requires s.ops[id].local.status == Canceled
    ensures Oversells(cfg, s, more)
  {
    var q := UnusedId(s.ledger);
    var reserve, e := Advance(id, Succeeds(0, q)), StepOk(s, s.ops[id], 0, q);
    OrderAlone.Ready(s, id, 0, q);
    assert e.Reserve? && e.o == o && e.r == q && e.cont.PaySave? && e.cont.reinstated && e.cont.o == o
           && e.cont.local.reservation == q;
    OrderAlone.ReserveCall(s, id, 0, q, e.cont);
    ThisIsGuarded(s, id, Succeeds(0, q));
    var s1 := Step(s, reserve);
    hide Step, Enabled, Guarded, Oversells, GoodsLeftOnce, StepOk;
    more := SavesAgain(cfg, s1, id, o, r1);
    OneMore(cfg, s, reserve, s1, more);
    more := [reserve] + more;
  }

  /** A payment on its way to a canceled order whose goods have left. */
  lemma PaysAgain(cfg: Config, s: State, id: OpId, o: OrderId, r1: ResId) returns (more: seq<Action>)
    requires CommittedFor(s, r1, o) && o in s.orders && s.orders[o].status == Canceled
    requires id in s.ops && Paying(s.ops[id]) && s.ops[id].o == o
    requires s.ops[id].PayReserve? ==> s.ops[id].local.status == Canceled
    requires s.ops[id].PaySave? ==>
      var r2 := s.ops[id].local.reservation; r2 != r1 && MadeFor(s, r2, o) && s.ledger[r2].status == Active
    ensures Oversells(cfg, s, more)
  {
    if s.ops[id].PayReserve? {
      more := ReservesAgain(cfg, s, id, o, r1);
    } else {
      more := SavesAgain(cfg, s, id, o, r1);
    }
  }

  /** First: a shipment that loaded the order before it was canceled commits its stock. */
  lemma CommitsMeanwhile(cfg: Config, s: State, g: OpId, id: OpId, o: OrderId, r1: ResId) returns (more: seq<Action>)
    requires MadeFor(s, r1, o) && s.ledger[r1].status == Active && o in s.orders && s.orders[o].status == Canceled
    requires g in s.ops && s.ops[g].ShipCommit? && s.ops[g].o == o && s.ops[g].local.reservation == r1
    requires id in s.ops && Paying(s.ops[id]) && s.ops[id].o == o
    requires s.ops[id].PayReserve? ==> s.ops[id].local.status == Canceled
    requires s.ops[id].PaySave? ==>
      var r2 := s.ops[id].local.reservation; r2 != r1 && MadeFor(s, r2, o) && s.ledger[r2].status == Active
    ensures Oversells(cfg, s, more)
  {
    var q := UnusedId(s.ledger);
    var commit := Advance(g, Succeeds(0, q));
    OrderAlone.Ready(s, g, 0, q);
    OrderAlone.CommitCall(s, g, o, s.ops[g].local, 0, q);
    ThisIsGuarded(s, g, Succeeds(0, q));
    var s1 := Step(s, commit);
    hide Step, Enabled, Guarded, Oversells, GoodsLeftOnce;
    more := PaysAgain(cfg, s1, id, o, r1);
    OneMore(cfg, s, commit, s1, more);
    more := [commit] + more;
  }

  lemma CancelLeaves(s: State, a: Action)
    requires Enabled(s, a) && ClosesPaid(s, EffectOf(s, a))
    ensures var o, t := EffectOf(s, a).o, Step(s, a);
      t.orders == s.orders[o := s.orders[o].(status := Canceled)] && t.ledger == s.ledger
      && forall j :: j in s.ops && j != a.id ==> j in t.ops && t.ops[j] == s.ops[j]
  {
    hide EffectOf;
  }

  lemma CancelerIsNeither(s: State, a: Action)
    requires Enabled(s, a) && ClosesPaid(s, EffectOf(s, a)) && a.id in s.ops
    ensures !Paying(s.ops[a.id]) && !Shipping(s.ops[a.id])
  {
  }

  lemma PayingHoldsOthers(cfg: Config, s: State, id: OpId, o: OrderId)
    requires Inv(cfg, s) && id in s.ops && Paying(s.ops[id]) && s.ops[id].o == o && o in s.orders
    ensures s.ops[id].PayReserve? ==> s.ops[id].local.status == Canceled
    ensures s.ops[id].PaySave? ==>
      var r2 := s.ops[id].local.reservation;
      r2 != s.orders[o].reservation && MadeFor(s, r2, o) && s.ledger[r2].status == Active
  {
    hide RowOk, LedgerOk, Compatible;
    assert PcOk(cfg, s, s.ops[id]);
  }

  lemma ShippingHoldsThis(cfg: Config, s: State, g: OpId, o: OrderId)
    requires Inv(cfg, s) && g in s.ops && Shipping(s.ops[g]) && s.ops[g].o == o
    requires o in s.orders && s.orders[o].status == Paid && !StockCommitted(s, o)
    ensures s.ops[g].ShipCommit? && s.ops[g].local.reservation == s.orders[o].reservation
  {
    hide RowOk, LedgerOk, Compatible;
    assert PcOk(cfg, s, s.ops[g]);
  }

  /** A paid order canceled while its stock is at risk: some guarded continuation sends goods twice. */
  lemma RiskStrikes(cfg: Config, s: State, a: Action) returns (more: seq<Action>)
    requires Inv(cfg, s) && Unrestricted(cfg, s, a) && ClosesPaid(s, EffectOf(s, a))
    requires StockAtRisk(s, EffectOf(s, a).o)
    ensures Oversells(cfg, Step(s, a), more)
  {
    var o, t := EffectOf(s, a).o, Step(s, a);
    CancelLeaves(s, a);
    if a.id in s.ops {
      CancelerIsNeither(s, a);
    }
    assert RowOk(cfg, s, o);
    var r1 := s.orders[o].reservation;
    var id :| id in s.ops && Paying(s.ops[id]) && s.ops[id].o == o;
    hide EffectOf, Step, Enabled, Oversells, Guarded, PcOk, RowOk, LedgerOk, Compatible;
    PayingHoldsOthers(cfg, s, id, o);
    if StockCommitted(s, o) {
      hide Inv, Paying;
      more := PaysAgain(cfg, t, id, o, r1);
    } else {
      var g :| g in s.ops && Shipping(s.ops[g]) && s.ops[g].o == o;
      ShippingHoldsThis(cfg, s, g, o);
      hide Inv, Paying;
      more := CommitsMeanwhile(cfg, t, g, id, o, r1);
    }
  }

  /**
   * From any state reached under the guard, canceling a paid order keeps every order's stock sound in all
   * guarded continuations exactly when the order's stock is not at risk.
   */
  lemma StockGuardIsExact(cfg: Config, past: seq<Action>, a: Action)
    requires Heeds(cfg, EMPTY, past) && Unrestricted(cfg, Reached(cfg, EMPTY, past), a)
    requires ClosesPaid(Reached(cfg, EMPTY, past), EffectOf(Reached(cfg, EMPTY, past), a))
    ensures var s := Reached(cfg, EMPTY, past); var t := Step(s, a);
      !StockAtRisk(s, EffectOf(s, a).o)
      <==> forall more :: Heeds(cfg, t, more) ==> StockSound(Reached(cfg, t, more))
  {
    NothingViolates(cfg);
    HeedingKeeps(cfg, EMPTY, past);
    var s := Reached(cfg, EMPTY, past);
    var t := Step(s, a);
    hide Inv, Reached, Heeds, StockAtRisk, EffectOf, Step, Enabled, StockSound, GoodsLeftOnce;
    if StockAtRisk(s, EffectOf(s, a).o) {
      var more := RiskStrikes(cfg, s, a);
      Unsound(cfg, t, more);
    } else {
      StepKeeps(cfg, s, a);
      forall more | Heeds(cfg, t, more) ensures Possible(cfg, t, more) && StockSound(Reached(cfg, t, more)) {
        StillSound(cfg, t, more);
      }
    }
  }

  lemma Unsound(cfg: Config, s: State, more: seq<Action>)
    requires Oversells(cfg, s, more)
    ensures Heeds(cfg, s, more) && !StockSound(Reached(cfg, s, more))
  {
  }

  lemma StillSound(cfg: Config, s: State, more: seq<Action>)
    requires Inv(cfg, s) && Heeds(cfg, s, more)
    ensures Possible(cfg, s, more) && StockSound(Reached(cfg, s, more))
  {
    hide Inv;
    HeedingKeeps(cfg, s, more);
    InvIsSound(cfg, Reached(cfg, s, more));
  }

  lemma NothingViolates(cfg: Config)
    ensures Inv(cfg, EMPTY)
  {
  }
}
