/**
 * A delivery of the right payment lands: when its own calls succeed, the order carries the payment in the end,
 * whatever expiry, refunds, shipments and other deliveries do between those calls.
 */
module OrderDelivery {
  import opened Common
  import opened Orders
  import opened OrderProtocol
  import opened OrderMoney

  predicate Carries(s: State, o: OrderId, p: PayId) {
    o in s.orders && s.orders[o].payment == p
  }

  /** Handler id is delivering a payment of the order's total, and its next call can still lead to its end. */
  predicate Hopeful(s: State, id: OpId, o: OrderId, p: PayId) {
    id in s.ops && IsPay(s.ops[id]) && s.ops[id].o == o && s.ops[id].p == p != 0
    && o in s.orders && s.ops[id].amount == s.orders[o].bill.total
    && (s.ops[id].PaySave? && s.ops[id].last ==> s.ops[id].reinstated)
    && (s.ops[id].PayRecheck? ==> s.orders[o].status != Pending)
  }

  predicate OnItsWay(s: State, id: OpId, o: OrderId, p: PayId) {
    Carries(s, o, p) || Hopeful(s, id, o, p)
  }

  lemma BeginsHopeful(cfg: Config, s: State, id: OpId, o: OrderId, p: PayId, amount: int)
    requires InvFree(cfg, s) && id !in s.ops && o in s.orders
    requires p == cfg.payOf(o) != 0 && amount == s.orders[o].bill.total
    ensures OnItsWay(Step(s, BeginPay(id, o, p, amount)), id, o, p)
  {
    hide BillOk;
    assert RowFree(cfg, s, o);
  }

  /** A call of its own that succeeds brings it to the payment, or on to its next call. */
  lemma OwnCall(cfg: Config, s: State, id: OpId, o: OrderId, p: PayId, now: int, r: ResId)
    requires InvFree(cfg, s) && Enabled(s, Advance(id, Succeeds(now, r))) && Hopeful(s, id, o, p)
    ensures OnItsWay(Step(s, Advance(id, Succeeds(now, r))), id, o, p)
  {
    hide BillOk, KeysOk;
    assert RowFree(cfg, s, o) && PcFree(cfg, s, s.ops[id]);
    OwnEffect(cfg, s, id, o, p, now, r);
  }

  lemma OwnEffect(cfg: Config, s: State, id: OpId, o: OrderId, p: PayId, now: int, r: ResId)
    requires o in s.orders && RowFree(cfg, s, o) && Hopeful(s, id, o, p) && PcFree(cfg, s, s.ops[id]) && r != 0
    ensures OnItsWay(Apply(s, id, StepOk(s, s.ops[id], now, r)), id, o, p)
  {
  }

  /** The others cannot stop it. */
  lemma OthersCall(cfg: Config, s: State, a: Action, id: OpId, o: OrderId, p: PayId)
    requires InvFree(cfg, s) && Unrestricted(cfg, s, a) && p != 0
    requires a.id != id || Carries(s, o, p)
    ensures OnItsWay(s, id, o, p) ==> OnItsWay(Step(s, a), id, o, p)
    ensures Carries(s, o, p) ==> Carries(Step(s, a), o, p)
  {
    hide RowFree, PcFree, KeysOk, StepOk, StepFailed, Sensible, ValidBill;
    if o in s.orders {
      assert BillOk(s, o);
      StepContinues(cfg, s, a, o);
    }
    if a.BeginCreate? {
      CreateTouchesNothing(s, a);
    } else {
      StepIsSensible(cfg, s, a);
      EffectGoesOnward(cfg, s, a.id, EffectOf(s, a), o);
    }
    hide InvFree, EffectOf, Begin;
  }

  /** How many of these steps are calls of handler id. */
  function OwnCalls(actions: seq<Action>, id: OpId): nat {
    if actions == [] then 0 else Own(actions[0], id) + OwnCalls(actions[1..], id)
  }

  function Own(a: Action, id: OpId): nat {
    if a.Advance? && a.id == id then 1 else 0
  }

  ghost predicate NoneFails(actions: seq<Action>, id: OpId) {
    forall i :: 0 <= i < |actions| && actions[i].Advance? && actions[i].id == id ==> actions[i].outcome.Succeeds?
  }

  lemma {:induction false} StaysOnItsWay(cfg: Config, s: State, more: seq<Action>, id: OpId, o: OrderId, p: PayId)
    requires InvFree(cfg, s) && Possible(cfg, s, more) && NoneFails(more, id) && OnItsWay(s, id, o, p) && p != 0
    ensures Carries(s, o, p) ==> Carries(Reached(cfg, s, more), o, p)
    ensures var t := Reached(cfg, s, more);
      Carries(t, o, p) || (Hopeful(s, id, o, p) && Hopeful(t, id, o, p)
                           && CallsLeft(t.ops[id]) + OwnCalls(more, id) <= CallsLeft(s.ops[id]))
    decreases |more|
  {
    hide InvFree, Step, EffectOf, Hopeful, Carries, CallsLeft, Own;
    if more != [] {
      var a := more[0];
      var u := Step(s, a);
      FreeStepKeeps(cfg, s, a);
      OneStep(cfg, s, a, id, o, p);
      assert NoneFails(more[1..], id);
      assert Carries(u, o, p) || Hopeful(u, id, o, p);
      StaysOnItsWay(cfg, u, more[1..], id, o, p);
    }
  }

  lemma OneStep(cfg: Config, s: State, a: Action, id: OpId, o: OrderId, p: PayId)
    requires InvFree(cfg, s) && Unrestricted(cfg, s, a) && OnItsWay(s, id, o, p) && p != 0
    requires a.Advance? && a.id == id ==> a.outcome.Succeeds?
    ensures Carries(s, o, p) ==> Carries(Step(s, a), o, p)
    ensures var t := Step(s, a);
      Carries(t, o, p)
      || (Hopeful(s, id, o, p) && Hopeful(t, id, o, p)
          && CallsLeft(t.ops[id]) + Own(a, id) <= CallsLeft(s.ops[id]))
  {
    hide InvFree, EffectOf, Step, CallsLeft;
    if a.id == id && !Carries(s, o, p) {
      OwnCall(cfg, s, id, o, p, a.outcome.now, a.outcome.newId);
      HandlersFinish(s, a);
    } else {
      OthersCall(cfg, s, a, id, o, p);
      if !Carries(s, o, p) {
        OthersLeaveIt(s, a, id);
      }
    }
  }

  lemma OthersLeaveIt(s: State, a: Action, id: OpId)
    requires Enabled(s, a) && a.id != id && id in s.ops
    ensures id in Step(s, a).ops && Step(s, a).ops[id] == s.ops[id]
  {
    hide EffectOf;
  }

  /**
   * In every run, guarded or not: once a delivery has begun that pays a stored order exactly its total, and none
   * of its own calls fails, the order carries the payment after at most seven of those calls, however the
   * other handlers' steps fall between them. Until then the delivery is still under way.
   */
  lemma DeliveryLands(cfg: Config, past: seq<Action>, id: OpId, o: OrderId, amount: int, more: seq<Action>)
    requires Possible(cfg, EMPTY, past) && cfg.payOf(o) != 0
    requires var s := Reached(cfg, EMPTY, past);
      id !in s.ops && o in s.orders && amount == s.orders[o].bill.total
      && Possible(cfg, Step(s, BeginPay(id, o, cfg.payOf(o), amount)), more) && NoneFails(more, id)
    ensures var s := Reached(cfg, EMPTY, past);
      var t := Reached(cfg, Step(s, BeginPay(id, o, cfg.payOf(o), amount)), more);
      && (Carries(t, o, cfg.payOf(o)) || (id in t.ops && IsPay(t.ops[id]) && t.ops[id].o == o))
      && (OwnCalls(more, id) >= 7 ==> Carries(t, o, cfg.payOf(o)))
  {
    EmptyIsFree(cfg);
    FreeRunKeeps(cfg, EMPTY, past);
    var s, a := Reached(cfg, EMPTY, past), BeginPay(id, o, cfg.payOf(o), amount);
    hide InvFree, Reached, Possible, Step;
    BeginsHopeful(cfg, s, id, o, cfg.payOf(o), amount);
    FreeStepKeeps(cfg, s, a);
    StaysOnItsWay(cfg, Step(s, a), more, id, o, cfg.payOf(o));
    CallsArePositive(Step(s, a), Reached(cfg, Step(s, a), more), id, o);
  }

  lemma CallsArePositive(s: State, t: State, id: OpId, o: OrderId)
    ensures id in s.ops && IsPay(s.ops[id]) ==> CallsLeft(s.ops[id]) <= 7
    ensures id in t.ops && IsPay(t.ops[id]) ==> CallsLeft(t.ops[id]) >= 1
  {
  }
}
