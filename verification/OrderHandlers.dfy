/**
 * The handlers of the order service as they are written: local order objects, calls to the stores,
 * compensation. They run against a shop in which other handlers take any steps before every call, and each
 * follows its path through the transition system, so that all that is proved there holds of them: what every
 * run keeps always, and what guarded runs keep about stock while no cancel has put stock at risk.
 */
module OrderHandlers {
  import opened Common
  import opened Orders
  import opened OrderProtocol
  import opened OrderMoney
  import opened OrderInvariants
  import opened OrderTheorems
  import opened OrderAlone
  import opened OrderDelivery
  import Text

  /** What happens at one call: the other handlers' steps before it, and how it turns out. */
  datatype Turn = Turn(rivals: seq<Action>, outcome: Outcome)

  datatype Failure = NotFound | Unavailable | Refused(error: OrderError) | Conflict

  class Shop {
    var state: State
    var turns: nat
    const cfg: Config
    const fate: nat -> Turn
    // Whether every step so far was guarded.
    ghost var guarded: bool
    // What the running handler reserved, or canceled an order from, and has neither stored nor released.
    ghost var owed: set<ResId>
    // The orders handlers canceled here, with the stock each held.
    ghost var cancels: seq<(OrderId, ResId)>
    // How many of their saves of orders took effect.
    ghost var saves: nat
    // How many of their calls failed, and how many of their paid saves found that the order had moved on.
    ghost var failures: nat
    ghost var lost: nat

    constructor (cfg: Config, fate: nat -> Turn)
      ensures Valid() && state == EMPTY && this.cfg == cfg && this.fate == fate && owed == {} && guarded
    {
      this.cfg, this.fate, state, turns, guarded, owed, cancels := cfg, fate, EMPTY, 0, true, {}, [];
      saves, failures, lost := 0, 0, 0;
      new;
      hide EMPTY;
      EmptyIsInv(cfg);
      EmptyIsFree(cfg);
    }

    ghost predicate Valid()
      reads this`state, this`guarded
    {
      InvFree(cfg, state) && (guarded ==> Inv(cfg, state)) && state.nextOrder != 0
    }

    ghost predicate At(id: OpId, next: Option<Pc>)
      reads this`state
    {
      Stands(state, id, next)
    }

    /** The next n calls are left alone and succeed, with a fresh id on offer to each. */
    ghost predicate Calm(n: nat)
      reads this`state, this`turns
    {
      && (forall k :: turns <= k < turns + n ==> Clear(fate(k), state.ledger))
      && forall j, k :: turns <= j < k < turns + n ==> fate(j).outcome.newId != fate(k).outcome.newId
    }

    /** The id on offer at the next call. */
    ghost function Fresh(): ResId
      reads this`turns
    {
      if fate(turns).outcome.Succeeds? then fate(turns).outcome.newId else 0
    }

    /** The time at the call ahead calls from now. */
    function Time(ahead: nat): int
      reads this`turns
    {
      var turn := fate(turns + ahead);
      if turn.outcome.Succeeds? then turn.outcome.now else 0
    }

    // One step of anybody.
    method Take(a: Action)
      requires Valid() && Unrestricted(cfg, state, a)
      modifies this`state, this`guarded
      ensures Valid() && state == Step(old(state), a) && guarded == (old(guarded) && Guarded(old(state), a))
    {
      hide Inv, InvFree, Step, Guarded, Enabled;
      FreeStepKeeps(cfg, state, a);
      NumbersGrow(state, a);
      if guarded && Guarded(state, a) {
        StepKeeps(cfg, state, a);
      }
      guarded := guarded && Guarded(state, a);
      state := Step(state, a);
    }

    // The others move; what they cannot do does not happen.
    method Others(id: OpId, rivals: seq<Action>)
      requires Valid()
      modifies this`state, this`guarded
      ensures Valid() && (guarded ==> old(guarded))
      ensures id in old(state).ops ==> At(id, Some(old(state).ops[id]))
      ensures HistoryKept(old(state), state) && Lands(old(state), state, id)
      ensures rivals == [] ==> state == old(state) && guarded == old(guarded)
    {
      hide Lands, Inv, InvFree, Step, Guarded, Enabled;
      StandingStill(state, id);
      for i := 0 to |rivals|
        invariant Valid() && HistoryKept(old(state), state) && Lands(old(state), state, id)
        invariant guarded ==> old(guarded)
        invariant rivals == [] ==> state == old(state) && guarded == old(guarded)
        invariant id in old(state).ops ==> At(id, Some(old(state).ops[id]))
      {
        var a := rivals[i];
        if a.id != id && Unrestricted(cfg, state, a) {
          StepMovesOne(cfg, state, a, id);
          OthersLandIt(cfg, old(state), state, a, id);
          Take(a);
        }
      }
    }

    // A reading of the clock.
    method Clock() returns (now: int)
      ensures now == Time(0)
    {
      now := Time(0);
    }

    // The handler's own step, and what it comes to.
    method Act(id: OpId, outcome: Outcome)
      requires Valid() && Unrestricted(cfg, state, Advance(id, outcome))
      modifies this`state, this`guarded, this`owed, this`cancels, this`saves, this`failures
      ensures Valid() && state == Step(old(state), Advance(id, outcome))
      ensures guarded ==> old(guarded) && Guarded(old(state), Advance(id, outcome))
      ensures failures == old(failures) + (if outcome.Fails? then 1 else 0)
      ensures saves == old(saves) + SaveCount(EffectOf(old(state), Advance(id, outcome)))
      ensures owed == OwedAfter(old(state), old(owed), EffectOf(old(state), Advance(id, outcome)))
      ensures cancels == CancelsAfter(old(state), old(cancels), EffectOf(old(state), Advance(id, outcome)))
    {
      hide SaveCount, Inv, InvFree, Step, EffectOf, OwedAfter, CancelsAfter, Guarded;
      failures := failures + if outcome.Fails? then 1 else 0;
      saves := saves + SaveCount(EffectOf(state, Advance(id, outcome)));
      owed := OwedAfter(state, owed, EffectOf(state, Advance(id, outcome)));
      cancels := CancelsAfter(state, cancels, EffectOf(state, Advance(id, outcome)));
      Take(Advance(id, outcome));
    }

    /** One call of handler id, after whatever the others do first; at is the time it passes on, if it does. */
    method Call(id: OpId, at: Option<int>) returns (outcome: Outcome, before: State)
      requires Valid() && id in state.ops
      modifies this`state, this`guarded, this`turns, this`owed, this`cancels, this`saves, this`failures
      ensures Valid() && InvFree(cfg, before) && id in before.ops && before.ops[id] == old(state).ops[id]
      ensures Unrestricted(cfg, before, Advance(id, outcome)) && state == Step(before, Advance(id, outcome))
      ensures guarded ==> old(guarded) && Guarded(before, Advance(id, outcome))
      ensures outcome.Succeeds? && at.Some? ==> outcome.now == at.value
      ensures HistoryKept(old(state), before) && HistoryKept(before, state)
      ensures turns == old(turns) + 1
      ensures old(Calm(1)) ==>
        before == old(state) && outcome == Succeeds(if at.Some? then at.value else old(Time(0)), old(Fresh()))
      ensures forall n: nat :: old(Calm(n + 1)) ==> Calm(n)
      ensures failures == old(failures) + (if outcome.Fails? then 1 else 0)
      ensures outcome.Succeeds? ==> Lands(old(state), state, id)
      ensures saves == old(saves) + SaveCount(EffectOf(before, Advance(id, outcome)))
      ensures owed == OwedAfter(before, old(owed), EffectOf(before, Advance(id, outcome)))
      ensures cancels == CancelsAfter(before, old(cancels), EffectOf(before, Advance(id, outcome)))
    {
      hide Lands, SaveCount, Inv, InvFree, Step, HistoryKept, EffectOf, OwedAfter, CancelsAfter, Guarded;
      var turn := fate(turns);
      turns := turns + 1;
      Others(id, turn.rivals);
      before := state;
      outcome := Fails;
      // A reserved id is new.
      if turn.outcome.Succeeds? && turn.outcome.newId != 0 && turn.outcome.newId !in state.ledger {
        outcome := Succeeds(if at.Some? then at.value else turn.outcome.now, turn.outcome.newId);
      }
      UnfinishedIsEnabled(cfg, state, id, outcome);
      if outcome.Succeeds? {
        OwnStepLands(cfg, old(state), state, id, outcome);
      }
      StepMovesOne(cfg, state, Advance(id, outcome), id);
      NothingElseReserved(state, id, outcome);
      Act(id, outcome);
    }

    /** The first call: the order as it is now, and the handler on its way. */
    method Start(a: Action) returns (found: Option<Row>)
      requires Valid() && !a.Advance? && !a.BeginCreate? && Unrestricted(cfg, state, a)
      modifies this`state, this`guarded, this`owed, this`cancels, this`saves
      ensures Valid() && (guarded ==> old(guarded))
      ensures found == if a.o in old(state).orders then Some(old(state).orders[a.o]) else None
      ensures state.orders == OrdersAfter(old(state).orders, Begin(old(state), a))
      ensures state.ledger == old(state).ledger
      ensures forall n: nat :: old(Calm(n)) ==> Calm(n)
      ensures At(a.id, NextPc(old(state), Begin(old(state), a))) && state == Step(old(state), a)
      ensures saves == old(saves) + SaveCount(Begin(old(state), a))
      ensures owed == OwedAfter(old(state), old(owed), Begin(old(state), a))
      ensures cancels == CancelsAfter(old(state), old(cancels), Begin(old(state), a))
    {
      hide Inv, InvFree, OwedAfter, CancelsAfter, Guarded;
      found := if a.o in state.orders then Some(state.orders[a.o]) else None;
      saves := saves + SaveCount(Begin(state, a));
      owed := OwedAfter(state, owed, Begin(state, a));
      cancels := CancelsAfter(state, cancels, Begin(state, a));
      Take(a);
    }

    /** Gives stock back, or finds that it has been closed already. */
    method Release(id: OpId, r: ResId)
      requires Valid() && At(id, Some(Pc.Release(r)))
      modifies this`state, this`guarded, this`turns, this`owed, this`cancels, this`saves, this`failures
      ensures Valid() && At(id, None)
      ensures r in state.ledger && state.ledger[r].status != Active
      ensures saves == old(saves)
      ensures failures >= old(failures) && (failures == old(failures) ==> Lands(old(state), state, id))
      ensures owed == old(owed) - {r} && cancels == old(cancels)
      ensures HistoryKept(old(state), state)
      ensures old(Calm(1)) ==>
        state.orders == old(state).orders && r in old(state).ledger && state.ledger == Freed(old(state).ledger, r)
    {
      hide Lands, HistoryKept, Inv, InvFree, Step, EffectOf;
      var outcome, before := Call(id, None);
      ReleaseStep(cfg, before, id, outcome, r);
      HistoryChains(old(state), before, state);
    }

    /** Reads an order after whatever the others did meanwhile; None when the read fails. */
    method Look(id: OpId, o: OrderId) returns (seen: Option<Row>)
      requires Valid() && At(id, None)
      modifies this`state, this`guarded, this`turns, this`failures
      ensures Valid() && At(id, None)
      ensures failures >= old(failures)
      ensures failures == old(failures) ==> seen == if o in state.orders then Some(state.orders[o]) else None
      ensures seen.Some? ==> o in state.orders && seen.value == state.orders[o]
    {
      hide Inv, InvFree;
      var reached := Idle(id);
      seen := if reached && o in state.orders then Some(state.orders[o]) else None;
    }

    // A read of its own once the handler is done; whatever the others do comes first.
    method Idle(id: OpId) returns (reached: bool)
      requires Valid() && At(id, None)
      modifies this`state, this`guarded, this`turns, this`failures
      ensures Valid() && At(id, None) && HistoryKept(old(state), state)
      ensures failures == old(failures) + if reached then 0 else 1
    {
      hide Inv, InvFree, Step, Enabled, Guarded;
      var rivals := fate(turns).rivals;
      reached := fate(turns).outcome.Succeeds?;
      turns := turns + 1;
      for i := 0 to |rivals|
        invariant Valid() && At(id, None) && HistoryKept(old(state), state) && failures == old(failures)
      {
        var a := rivals[i];
        if a.id != id && Unrestricted(cfg, state, a) {
          OthersStayAway(state, a, id);
          StepMovesOne(cfg, state, a, id);
          Take(a);
        }
      }
      failures := failures + if reached then 0 else 1;
    }

    // -------------------------------------------------------- CreateOrder's calls

    /** Looks the key up and takes the next order number; None when the key is known. */
    method StartCreate(id: OpId, draft: Draft) returns (o: Option<OrderId>)
      requires Valid() && At(id, None)
      modifies this`state, this`guarded
      ensures Valid()
      ensures o == None <==> draft.key.Some? && draft.key.value in old(state).idem
      ensures o == None ==> state == old(state)
      ensures o.Some? ==> o.value == old(state).nextOrder != 0
      ensures state.orders == old(state).orders && state.ledger == old(state).ledger && state.idem == old(state).idem
      ensures forall n: nat :: old(Calm(n)) ==> Calm(n)
      ensures o.Some? ==> At(id, Some(CreateReserve(o.value, draft)))
    {
      hide Lands, Inv, InvFree;
      o := if draft.key.Some? && draft.key.value in state.idem then None else Some(state.nextOrder);
      if o.Some? {
        Take(BeginCreate(id, draft));
      }
    }

    method ReserveFirst(id: OpId, o: OrderId, draft: Draft) returns (r: Option<ResId>)
      requires Valid() && At(id, Some(CreateReserve(o, draft)))
      modifies this`state, this`guarded, this`turns, this`owed, this`cancels, this`saves, this`failures
      ensures Valid()
      ensures failures >= old(failures) && (r == None ==> failures > old(failures))
      ensures r == None ==> At(id, None)
      ensures r.Some? ==> r.value != 0 && At(id, Some(CreateSave(o, draft, r.value)))
      ensures turns == old(turns) + 1
      ensures forall n: nat :: old(Calm(n + 1)) ==> Calm(n)
      ensures old(Calm(1)) ==>
        r == Some(old(Fresh())) && state.orders == old(state).orders && state.idem == old(state).idem
        && state.ledger == old(state).ledger[r.value := Reservation(o, Active)]
      ensures saves == old(saves)
      ensures owed == old(owed) + (if r == None then {} else {r.value}) && cancels == old(cancels)
    {
      hide Lands, Inv, InvFree;
      var outcome, _ := Call(id, None);
      r := if outcome.Fails? then None else Some(outcome.newId);
    }

    /** Turns back before saving. */
    method Abandon(id: OpId, o: OrderId, draft: Draft, r: ResId)
      requires Valid() && At(id, Some(CreateSave(o, draft, r)))
      modifies this`state, this`guarded
      ensures Valid() && At(id, Some(Pc.Release(r)))
      ensures state.orders == old(state).orders && state.ledger == old(state).ledger
      ensures forall n: nat :: old(Calm(n)) ==> Calm(n)
    {
      hide Lands, Inv, InvFree;
      Take(Advance(id, Fails));
    }

    /** SaveWithOutbox: the new order, and its idempotency record when it has a key. */
    method SaveOrder(id: OpId, o: OrderId, draft: Draft, r: ResId, now: int) returns (saved: bool)
      requires Valid() && At(id, Some(CreateSave(o, draft, r))) && NewRow(o, draft, r, now).Some?
      modifies this`state, this`guarded, this`turns, this`owed, this`cancels, this`saves, this`failures
      ensures Valid()
      ensures failures >= old(failures)
      ensures !saved ==> failures > old(failures) || (draft.key.Some? && draft.key.value in state.idem)
      ensures !saved ==> At(id, Some(Pc.Release(r)))
      ensures saved ==> At(id, None) && Answers(state, draft, o) && state.orders[o] == NewRow(o, draft, r, now).value
      ensures old(Calm(1)) && !(draft.key.Some? && draft.key.value in old(state).idem) ==>
        saved && state.ledger == old(state).ledger
        && state.orders == old(state).orders[o := NewRow(o, draft, r, now).value]
      ensures !saved ==> saves == old(saves)
      ensures owed == (if saved then old(owed) - {r} else old(owed)) && cancels == old(cancels)
    {
      hide Lands, Inv, InvFree;
      var outcome, before := Call(id, Some(now));
      saved := outcome.Succeeds? && !(draft.key.Some? && draft.key.value in before.idem);
    }

    /** Looks the key up again after a save that failed; None when that fails too. */
    method FindByKey(id: OpId, key: Key) returns (found: Option<IdemRecord>)
      requires Valid() && At(id, None)
      modifies this`state, this`guarded, this`turns, this`failures
      ensures Valid() && At(id, None)
      ensures saves == old(saves) && failures >= old(failures)
      ensures HistoryKept(old(state), state)
      ensures failures == old(failures) ==> found == if key in state.idem then Some(state.idem[key]) else None
      ensures found.Some? ==> key in state.idem && found.value == state.idem[key]
    {
      hide HistoryKept, Inv, InvFree;
      var reached := Idle(id);
      found := if reached && key in state.idem then Some(state.idem[key]) else None;
    }

    // ------------------------------------------------------ MarkOrderPaid's calls

    method Reread(id: OpId, o: OrderId) returns (seen: Option<Row>)
      requires Valid() && id in state.ops && (state.ops[id].PayReread? || state.ops[id].PayRecheck?)
      requires state.ops[id].o == o
      modifies this`state, this`guarded, this`turns, this`owed, this`cancels, this`saves, this`failures
      ensures Valid()
      ensures seen == None ==> failures > old(failures)
      ensures seen == None ==> At(id, After(StepFailed(old(state).ops[id])))
      ensures seen.Some? ==> o in state.orders && state.orders[o] == seen.value
      ensures seen.Some? && old(state).ops[id].PayReread? ==>
        At(id, After(StepPayReread(old(state).ops[id], seen.value)))
      ensures seen.Some? && old(state).ops[id].PayRecheck? ==>
        At(id, After(StepPayRecheck(old(state).ops[id], seen.value)))
      ensures saves == old(saves)
      ensures failures >= old(failures) && (failures == old(failures) ==> Lands(old(state), state, id))
      ensures owed == old(owed) && cancels == old(cancels)
      ensures forall n: nat :: old(Calm(n + 1)) ==> Calm(n)
      ensures old(Calm(1)) ==>
        seen.Some? && state.orders == old(state).orders && state.ledger == old(state).ledger
      ensures seen.Some? && old(state).ops[id].PayRecheck? && old(state).ops[id].reinstatement.Some? ==>
        seen.value.payment == old(state).ops[id].p
    {
      hide Lands, Inv, InvFree, Step, EffectOf;
      ghost var pc := state.ops[id];
      var outcome, before := Call(id, None);
      RereadStep(before, id, outcome);
      RecheckSees(cfg, before, id);
      seen := if outcome.Fails? then None else Some(state.orders[o]);
    }

    /** Reserves again for a canceled order. */
    method ReserveAgain(id: OpId) returns (r: Option<(ResId, int)>)
      requires Valid() && id in state.ops && state.ops[id].PayReserve?
      modifies this`state, this`guarded, this`turns, this`owed, this`cancels, this`saves, this`failures
      ensures Valid()
      ensures r == None ==> failures > old(failures)
      ensures r == None ==> At(id, None)
      ensures r.Some? ==> r.value.0 != 0 && At(id, After(StepPayReserve(old(state).ops[id], r.value.1, r.value.0)))
      ensures saves == old(saves)
      ensures failures >= old(failures) && (failures == old(failures) ==> Lands(old(state), state, id))
      ensures owed == old(owed) + (if r == None then {} else {r.value.0}) && cancels == old(cancels)
      ensures forall n: nat :: old(Calm(n + 1)) ==> Calm(n)
      ensures old(Calm(1)) ==>
        r == Some((old(Fresh()), old(Time(0)))) && state.orders == old(state).orders
        && state.ledger == old(state).ledger[r.value.0 := Reservation(old(state).ops[id].o, Active)]
    {
      hide Lands, Inv, InvFree, Step, EffectOf;
      var outcome, before := Call(id, None);
      ReserveAgainStep(before, id, outcome);
      r := if outcome.Fails? then None else Some((outcome.newId, outcome.now));
    }

    /** persistPaid: the guarded save, which says whether the row was still in the status it started from. */
    method SavePaid(id: OpId, o: OrderId, fromCanceled: bool) returns (saved: Option<bool>)
      requires Valid() && id in state.ops && state.ops[id].PaySave?
      requires state.ops[id].o == o && state.ops[id].reinstated == fromCanceled
      modifies this`state, this`guarded, this`turns, this`owed, this`cancels, this`saves, this`failures, this`lost
      ensures Valid()
      ensures saved == None ==> failures > old(failures)
      ensures saved == None ==> At(id, After(StepFailed(old(state).ops[id])))
      ensures saved == Some(false) ==> At(id, After(StepNotSaved(old(state).ops[id])))
      ensures saved == Some(true) ==> At(id, None) && o in state.orders && state.orders[o].status == Paid
                                      && state.orders[o].payment == old(state).ops[id].local.payment
      ensures saved != Some(true) ==> owed == old(owed)
      ensures saved == Some(true) ==> owed == old(owed) - {old(state).ops[id].local.reservation}
      ensures failures >= old(failures) && (failures == old(failures) ==> Lands(old(state), state, id))
      ensures lost == old(lost) + if saved == Some(false) then 1 else 0
      ensures saves == old(saves) + if saved == Some(true) then 1 else 0
      ensures cancels == old(cancels)
      ensures forall n: nat :: old(Calm(n + 1)) ==> Calm(n)
      ensures old(Calm(1)) && o in old(state).orders
              && old(state).orders[o].status == (if fromCanceled then Canceled else Pending) ==>
        saved == Some(true) && state.ledger == old(state).ledger
        && state.orders == PaidOrders(old(state).orders, o, old(state).ops[id].local, fromCanceled)
    {
      hide Lands, Inv, InvFree, Step, EffectOf;
      var outcome, before := Call(id, None);
      SavePaidStep(before, id, outcome);
      saved := if outcome.Fails? then None
               else Some(before.orders[o].status == if fromCanceled then Canceled else Pending);
      lost := lost + if saved == Some(false) then 1 else 0;
    }

    // ------------------------------------------------ the other handlers' calls

    /** commitReservationForShip: a reservation already committed will do. */
    method CommitStock(id: OpId, o: OrderId, local: Row) returns (ok: bool)
      requires Valid() && At(id, Some(ShipCommit(o, local)))
      modifies this`state, this`guarded, this`turns, this`owed, this`cancels, this`saves, this`failures
      ensures Valid() && At(id, if ok then Some(ShipSave(o, local)) else None)
      ensures forall n: nat :: old(Calm(n + 1)) ==> Calm(n)
      ensures old(Calm(1)) ==>
        state.orders == old(state).orders && local.reservation in old(state).ledger
        && ok == (old(state).ledger[local.reservation].status != Released)
        && state.ledger ==
             if ok then old(state).ledger[local.reservation :=
                                            old(state).ledger[local.reservation].(status := Committed)]
             else old(state).ledger
      ensures saves == old(saves)
      ensures owed == old(owed) && cancels == old(cancels)
    {
      hide Lands, Inv, InvFree;
      var outcome, before := Call(id, None);
      ok := outcome.Succeeds? && before.ledger[local.reservation].status != Released;
    }

    /** ShipIfPaid. */
    method SaveShipped(id: OpId, o: OrderId, ghost local: Row) returns (saved: Option<bool>)
      requires Valid() && At(id, Some(ShipSave(o, local)))
      modifies this`state, this`guarded, this`turns, this`owed, this`cancels, this`saves, this`failures
      ensures Valid() && At(id, None)
      ensures saved == Some(true) ==> o in state.orders && state.orders[o].status == InTransit
      ensures old(Calm(1)) && o in old(state).orders && old(state).orders[o].status == Paid ==>
        saved == Some(true) && state.ledger == old(state).ledger
        && state.orders == old(state).orders[o := old(state).orders[o].(status := InTransit)]
      ensures saved != Some(true) ==> saves == old(saves)
      ensures owed == old(owed) && cancels == old(cancels)
    {
      hide Lands, Inv, InvFree;
      var outcome, before := Call(id, None);
      saved := if outcome.Fails? then None else Some(before.orders[o].status == Paid);
    }

    /** CancelIfPendingExpired or CancelIfPaidForRefund: the canceled order's reservation, if it was canceled. */
    method CancelIf(id: OpId, o: OrderId) returns (canceled: Option<ResId>)
      requires Valid() && id in state.ops && (state.ops[id].ExpireCancel? || state.ops[id].RefundCancel?)
      requires state.ops[id].o == o
      modifies this`state, this`guarded, this`turns, this`owed, this`cancels, this`saves, this`failures
      ensures Valid() && At(id, if canceled == None then None else Some(Pc.Release(canceled.value)))
      ensures canceled.Some? ==> o in state.orders && state.orders[o].status == Canceled
                                 && state.orders[o].reservation == canceled.value
      ensures owed == old(owed) + (if canceled == None then {} else {canceled.value})
      ensures cancels == old(cancels) + if canceled == None then [] else [(o, canceled.value)]
      ensures canceled.Some? ==> canceled.value in state.ledger && state.ledger[canceled.value].order == o
      ensures old(Calm(1)) ==> o in old(state).orders && (canceled.Some? <==> Cancels(old(state), old(state).ops[id]))
    {
      hide Inv, InvFree, Step, EffectOf, Cancels, HistoryKept;
      var outcome, before := Call(id, None);
      CancelIsDecided(before, id, outcome);
      CancelIsStored(before, id, outcome);
      // The store's own answer: whether a row changed.
      canceled := if EffectOf(before, Advance(id, outcome)) == StoreCanceled(o)
                  then Some(before.orders[o].reservation) else None;
      if canceled.Some? {
        NamedStockIsTheirs(cfg, state, o);
      }
    }
  }

  /** This call is left alone and succeeds. */
  ghost predicate Clear(turn: Turn, ledger: map<ResId, Reservation>) {
    turn.rivals == [] && turn.outcome.Succeeds? && turn.outcome.newId != 0 && turn.outcome.newId !in ledger
  }

  /** A good delivery that is on its way stays so, or lands. */
  ghost predicate Lands(s: State, t: State, id: OpId) {
    forall o, p :: p != 0 && OnItsWay(s, id, o, p) ==> OnItsWay(t, id, o, p)
  }

  lemma StandingStill(s: State, id: OpId)
    ensures Lands(s, s, id)
  {
  }

  lemma OthersLandIt(cfg: Config, s: State, t: State, a: Action, id: OpId)
    requires InvFree(cfg, t) && Unrestricted(cfg, t, a) && a.id != id && Lands(s, t, id)
    ensures Lands(s, Step(t, a), id)
  {
    hide InvFree, Enabled, Step, OnItsWay;
    forall o, p | p != 0 && OnItsWay(s, id, o, p) ensures OnItsWay(Step(t, a), id, o, p) {
      OthersCall(cfg, t, a, id, o, p);
    }
  }

  lemma OwnStepLands(cfg: Config, s: State, t: State, id: OpId, outcome: Outcome)
    requires InvFree(cfg, t) && Unrestricted(cfg, t, Advance(id, outcome)) && Lands(s, t, id) && outcome.Succeeds?
    ensures Lands(s, Step(t, Advance(id, outcome)), id)
  {
    hide InvFree, Enabled, Step, Hopeful, Carries;
    forall o, p | p != 0 && OnItsWay(s, id, o, p) ensures OnItsWay(Step(t, Advance(id, outcome)), id, o, p) {
      if Carries(t, o, p) {
        OthersCall(cfg, t, Advance(id, outcome), id, o, p);
      } else {
        OwnCall(cfg, t, id, o, p, outcome.now, outcome.newId);
      }
    }
  }

  lemma LandingChains(s: State, t: State, u: State, id: OpId)
    requires Lands(s, t, id) && Lands(t, u, id)
    ensures Lands(s, u, id)
  {
    hide OnItsWay;
  }

  lemma HasLanded(s: State, id: OpId, o: OrderId, p: PayId)
    requires id !in s.ops && OnItsWay(s, id, o, p)
    ensures Carries(s, o, p)
  {
  }

  lemma PaysTheTotal(s: State, id: OpId, o: OrderId, p: PayId)
    requires OnItsWay(s, id, o, p) && o in s.orders && s.orders[o].payment != p
    ensures p != 0 && id in s.ops && IsPay(s.ops[id]) && s.ops[id].amount == s.orders[o].bill.total
  {
  }

  lemma NothingElseReserved(s: State, id: OpId, outcome: Outcome)
    requires Enabled(s, Advance(id, outcome))
    ensures forall r :: r in Step(s, Advance(id, outcome)).ledger ==>
              r in s.ledger || (outcome.Succeeds? && r == outcome.newId)
  {
  }

  /** Where handler id is. */
  ghost predicate Stands(s: State, id: OpId, next: Option<Pc>) {
    match next
    case None => id !in s.ops
    case Some(pc) => id in s.ops && s.ops[id] == pc
  }

  /** Where an effect that only the handler itself sees leads. */
  function After(e: Effect): Option<Pc> {
    match e
    case Move(next) => next
    case Reserve(_, _, cont) => Some(cont)
    case _ => None
  }

  /** What the handler owes after one more effect of its own. */
  function OwedAfter(s: State, owed: set<ResId>, e: Effect): set<ResId> {
    match e
    case Reserve(_, r, _) => owed + {r}
    case StoreCanceled(o) => if o in s.orders then owed + {s.orders[o].reservation} else owed
    case Insert(_, row, _) => owed - {row.reservation}
    case StorePaid(_, _, r, _, _) => owed - {r}
    case Free(r) => owed - {r}
    case _ => owed
  }

  /** Whether an effect is a save of an order. */
  function SaveCount(e: Effect): nat {
    if e.Insert? || e.StorePaid? || e.StoreCanceled? || e.StoreShipped? || e.StoreFulfilled? then 1 else 0
  }

  function CancelsAfter(s: State, cancels: seq<(OrderId, ResId)>, e: Effect): seq<(OrderId, ResId)> {
    match e
    case StoreCanceled(o) => if o in s.orders then cancels + [(o, s.orders[o].reservation)] else cancels
    case _ => cancels
  }

  /** Whether a guarded save finds the row it is to cancel. */
  predicate Cancels(s: State, pc: Pc)
    requires (pc.ExpireCancel? || pc.RefundCancel?) && pc.o in s.orders
  {
    var row := s.orders[pc.o];
    if pc.ExpireCancel? then PaymentExpired(row, pc.now) else row.status == Paid && pc.p != 0 && row.payment == pc.p
  }

  lemma CancelIsDecided(s: State, id: OpId, outcome: Outcome)
    requires Enabled(s, Advance(id, outcome)) && (s.ops[id].ExpireCancel? || s.ops[id].RefundCancel?)
    ensures outcome.Succeeds? ==>
      (Cancels(s, s.ops[id]) <==> EffectOf(s, Advance(id, outcome)) == StoreCanceled(s.ops[id].o))
    ensures EffectOf(s, Advance(id, outcome)) in {DONE, StoreCanceled(s.ops[id].o)}
    ensures outcome.Fails? ==> EffectOf(s, Advance(id, outcome)) == DONE
  {
  }

  lemma CancelIsStored(s: State, id: OpId, outcome: Outcome)
    requires Enabled(s, Advance(id, outcome)) && (s.ops[id].ExpireCancel? || s.ops[id].RefundCancel?)
    ensures var t, o, e := Step(s, Advance(id, outcome)), s.ops[id].o, EffectOf(s, Advance(id, outcome));
      if e == StoreCanceled(o) then
        Stands(t, id, Some(Release(s.orders[o].reservation))) && o in t.orders
        && t.orders[o] == s.orders[o].(status := Canceled)
      else Stands(t, id, None)
  {
    hide StepOk;
    CancelIsDecided(s, id, outcome);
  }

  // A handler that rechecks while it holds a reservation sees its own payment.
  lemma RecheckSees(cfg: Config, s: State, id: OpId)
    requires InvFree(cfg, s) && id in s.ops
    ensures s.ops[id].PayRecheck? && s.ops[id].reinstatement.Some? ==>
      s.ops[id].o in s.orders && s.orders[s.ops[id].o].payment == s.ops[id].p
  {
    assert PcFree(cfg, s, s.ops[id]);
  }

  lemma NumbersGrow(s: State, a: Action)
    requires Enabled(s, a)
    ensures s.nextOrder <= Step(s, a).nextOrder
  {
    hide EffectOf;
  }

  lemma EmptyIsInv(cfg: Config)
    ensures Inv(cfg, EMPTY)
  {
  }

  /** A payment once stored stays, and so do the order a reservation was made for and the record of a key. */
  ghost predicate HistoryKept(s: State, t: State) {
    && (forall o :: o in s.orders && s.orders[o].payment != 0 ==>
          o in t.orders && t.orders[o].payment == s.orders[o].payment)
    && (forall r :: r in s.ledger ==> r in t.ledger && t.ledger[r].order == s.ledger[r].order)
    && (forall k :: k in s.idem ==> k in t.idem && t.idem[k] == s.idem[k])
  }

  lemma KeysStay(cfg: Config, s: State, a: Action)
    requires InvFree(cfg, s) && Unrestricted(cfg, s, a)
    ensures forall k :: k in s.idem ==> k in Step(s, a).idem && Step(s, a).idem[k] == s.idem[k]
  {
    hide EffectOf, InvFree, Enabled;
    if a.BeginCreate? {
      CreateKeepsKeys(s, a);
    } else {
      StepIsSensible(cfg, s, a);
    }
  }

  lemma CreateKeepsKeys(s: State, a: Action)
    requires a.BeginCreate? && Enabled(s, a)
    ensures Step(s, a).idem == s.idem
  {
  }

  lemma StepMovesOne(cfg: Config, s: State, a: Action, id: OpId)
    requires InvFree(cfg, s) && Unrestricted(cfg, s, a)
    ensures a.id != id && id in s.ops ==> id in Step(s, a).ops && Step(s, a).ops[id] == s.ops[id]
    ensures HistoryKept(s, Step(s, a))
  {
    hide EffectOf, Enabled, RowFree, PcFree, KeysOk, ValidBill, Step;
    StockStays(s, a);
    OpStays(s, a, id);
    KeysStay(cfg, s, a);
    forall o | o in s.orders && s.orders[o].payment != 0
      ensures o in Step(s, a).orders && Step(s, a).orders[o].payment == s.orders[o].payment
    {
      assert BillOk(s, o);
      StepContinues(cfg, s, a, o);
    }
  }

  lemma OpStays(s: State, a: Action, id: OpId)
    requires Enabled(s, a)
    ensures a.id != id && id in s.ops ==> id in Step(s, a).ops && Step(s, a).ops[id] == s.ops[id]
  {
    hide EffectOf;
  }

  lemma ReleaseStep(cfg: Config, s: State, id: OpId, outcome: Outcome, r: ResId)
    requires InvFree(cfg, s) && Enabled(s, Advance(id, outcome)) && s.ops[id] == Release(r)
    ensures var t := Step(s, Advance(id, outcome));
      EffectOf(s, Advance(id, outcome)) == Free(r)
      && id !in t.ops && r in t.ledger && t.ledger[r].status != Active
      && t.orders == s.orders && r in s.ledger && t.ledger == Freed(s.ledger, r)
  {
    hide RowFree, BillOk;
    assert PcFree(cfg, s, s.ops[id]);
  }

  lemma StockStays(s: State, a: Action)
    requires Enabled(s, a)
    ensures forall r :: r in s.ledger ==> r in Step(s, a).ledger && Step(s, a).ledger[r].order == s.ledger[r].order
  {
    ReservesAnew(s, a);
    hide EffectOf;
  }

  lemma ReservesAnew(s: State, a: Action)
    requires Enabled(s, a)
    ensures EffectOf(s, a).Reserve? ==> EffectOf(s, a).r !in s.ledger
  {
  }

  lemma HistoryChains(s: State, t: State, u: State)
    requires HistoryKept(s, t) && HistoryKept(t, u)
    ensures HistoryKept(s, u)
  {
  }

  lemma UnfinishedIsEnabled(cfg: Config, s: State, id: OpId, outcome: Outcome)
    requires InvFree(cfg, s) && id in s.ops
    requires outcome.Succeeds? ==> outcome.newId != 0 && outcome.newId !in s.ledger
    ensures Unrestricted(cfg, s, Advance(id, outcome))
  {
    HandlerKnown(cfg, s, id);
  }

  // ------------------------------------------------------------- MarkOrderPaid

  /** Reserves for a canceled order and makes it pending again; whoever calls it must pay it or release. */
  method ReinstateCanceledOrder(shop: Shop, id: OpId, o: OrderId, p: PayId, amount: int, order: Order, last: bool)
    returns (reinstated: Option<ResId>)
    requires shop.Valid() && shop.At(id, Some(PayReserve(o, p, amount, order.Snapshot(), last))) && shop.owed == {}
    modifies shop, order
    ensures shop.Valid() && shop.owed == if reinstated == None then {} else {reinstated.value}
    ensures shop.failures >= old(shop.failures)
    ensures shop.failures == old(shop.failures) ==> Lands(old(shop.state), shop.state, id)
    ensures reinstated == None && old(order.status) == Canceled ==> shop.failures > old(shop.failures)
    ensures shop.saves == old(shop.saves) && shop.lost == old(shop.lost)
    ensures reinstated == None ==> shop.At(id, None)
    ensures reinstated.Some? ==>
      && order.status == Pending && order.reservation == reinstated.value
      && shop.At(id, match PaidRow(order.Snapshot(), p, amount)
                     case Err(_) => Some(Release(reinstated.value))
                     case Ok(paid) => Some(PaySave(o, p, amount, paid, true, last)))
    ensures forall n: nat :: n > 0 && old(shop.Calm(n + 1)) && old(order.status) == Canceled ==> shop.Calm(n)
    ensures old(shop.Calm(1)) && old(order.status) == Canceled ==>
      reinstated == Some(old(shop.Fresh())) && shop.state.orders == old(shop.state).orders
      && shop.state.ledger == old(shop.state).ledger[reinstated.value := Reservation(o, Active)]
      && order.Snapshot() == old(order.Snapshot()).(
           status := Pending, reservation := reinstated.value, due := old(shop.Time(0)) + PAYMENT_TTL)
  {
    hide OnItsWay, Inv, InvFree;
    ghost var local := order.Snapshot();
    var reserved := shop.ReserveAgain(id);
    if reserved == None {
      return None;
    }
    var (r, now) := reserved.value;
    assert order.Snapshot() == local;
    var refused := order.Reinstate(r, now);
    if refused.Some? {
      shop.Release(id, r);
      return None;
    }
    return Some(r);
  }

  /** Reinstates a canceled order and pays it, or gives the fresh stock back: what the code does in three places. */
  method Revive(shop: Shop, id: OpId, o: OrderId, p: PayId, amount: int, order: Order, last: bool)
    returns (r: Result<ResId, Failure>)
    requires shop.Valid() && shop.At(id, Some(PayReserve(o, p, amount, order.Snapshot(), last))) && shop.owed == {}
    modifies shop, order
    ensures shop.Valid() && shop.owed == if r.Err? then {} else {r.value}
    ensures shop.failures >= old(shop.failures)
    ensures shop.failures == old(shop.failures) ==> Lands(old(shop.state), shop.state, id)
    ensures r.Err? && old(order.status) == Canceled ==>
      shop.failures > old(shop.failures) || p == 0 || amount != order.bill.total
    ensures shop.saves == old(shop.saves) && shop.lost == old(shop.lost) && r != Err(Conflict)
    ensures r.Err? ==> shop.At(id, None)
    ensures r.Ok? ==> order.payment == p != 0 && order.reservation == r.value
                      && shop.At(id, Some(PaySave(o, p, amount, order.Snapshot(), true, last)))
    ensures forall n: nat :: n > 0 && r.Ok? && old(shop.Calm(n + 1)) && old(order.status) == Canceled ==> shop.Calm(n)
    ensures old(shop.Calm(2)) && old(order.status) == Canceled ==>
      var ids, row := old(shop.Fresh()), old(order.Snapshot());
      var pending := row.(status := Pending, reservation := ids, due := old(shop.Time(0)) + PAYMENT_TTL);
      && shop.state.orders == old(shop.state).orders
      && match PaidRow(pending, p, amount)
         case Ok(paid) => r == Ok(ids) && order.Snapshot() == paid
                          && shop.state.ledger == old(shop.state).ledger[ids := Reservation(o, Active)]
         case Err(e) => r == Err(Refused(e))
                        && shop.state.ledger == old(shop.state).ledger[ids := Reservation(o, Released)]
  {
    hide OnItsWay, Inv, InvFree, Step, EffectOf, HistoryKept, Shop.Fresh, Shop.Time, Shop.Calm;
    CalmSooner(shop);
    var reinstated := ReinstateCanceledOrder(shop, id, o, p, amount, order, last);
    if reinstated == None {
      return Err(Unavailable);
    }
    var refused := order.MarkPaid(p, amount);
    if refused.Some? {
      shop.Release(id, reinstated.value);
      return Err(Refused(refused.value));
    }
    return Ok(reinstated.value);
  }

  lemma CalmSooner(shop: Shop)
    ensures shop.Calm(2) ==> shop.Calm(1)
  {
  }

  /** Why a payment that is not payable is refused: sent orders first, then a blank payment, then a wrong amount. */
  function PaymentRefusal(row: Row, p: PayId, amount: int): OrderError {
    if row.status in {Paid, InTransit, Fulfilled} then InvalidTransition
    else if p == 0 then InvalidOrder
    else PaymentAmountMismatch
  }

  /** What a delivery left alone answers, and what it leaves behind. */
  ghost predicate AsDelivered(s: State, t: State, o: OrderId, p: PayId, amount: int, stock: ResId, now: int,
                              r: Result<Row, Failure>)
    requires o in s.orders
  {
    var row := s.orders[o];
    var after := Delivered(row, p, amount, stock, now);
    && (r.Ok? <==> AlreadyApplied(row, p) || Payable(row, p, amount)) && (r.Ok? ==> r.value == after)
    && (r.Err? ==> r.error == Refused(PaymentRefusal(row, p, amount)))
    && t.orders == s.orders[o := after] && t.ledger == DeliveredStock(s.ledger, o, row, p, amount, stock)
  }

  method MarkOrderPaid(shop: Shop, id: OpId, o: OrderId, p: PayId, amount: int) returns (r: Result<Row, Failure>)
    requires shop.Valid() && shop.At(id, None) && shop.owed == {} && p == shop.cfg.payOf(o)
    modifies shop
    ensures shop.Valid() && shop.At(id, None) && shop.owed == {}
    ensures shop.failures == old(shop.failures) && o in old(shop.state).orders
            && p != 0 && amount == old(shop.state).orders[o].bill.total ==>
      Carries(shop.state, o, p) && (r.Ok? || r.error == Conflict)
    ensures shop.lost >= old(shop.lost) && (r == Err(Conflict) ==> shop.lost > old(shop.lost))
    ensures old(shop.saves) <= shop.saves <= old(shop.saves) + (if r.Ok? then 1 else 0)
    ensures r.Ok? ==> o in shop.state.orders && shop.state.orders[o].payment == p == r.value.payment
    ensures o !in old(shop.state).orders ==> r == Err(NotFound)
    ensures old(shop.Calm(2)) && o in old(shop.state).orders ==>
      AsDelivered(old(shop.state), shop.state, o, p, amount, old(shop.Fresh()), old(shop.Time(0)), r)
  {
    hide AsDelivered, OnItsWay, Inv, InvFree, Step, EffectOf, HistoryKept, Shop.Fresh, Shop.Time, Shop.Calm;
    hide Begin, NextPc, OrdersAfter, OwedAfter, SaveCount, Delivered, Hopeful;
    ghost var s := shop.state;
    PayBegins(s, id, o, p, amount);
    if o in s.orders && p != 0 && amount == s.orders[o].bill.total {
      BeginsHopeful(shop.cfg, s, id, o, p, amount);
    }
    var found := shop.Start(BeginPay(id, o, p, amount));
    if found == None {
      return Err(NotFound);
    }
    var order := new Order(found.value);
    ghost var begun, stock, now := shop.state, shop.Fresh(), shop.Time(0);
    NotPayable(s, begun, o, p, amount, stock, now);
    if order.payment == p && order.status != Pending {
      return Ok(order.Snapshot());
    }
    if order.status == Canceled {
      r := ReinstateAndPersist(shop, id, o, p, amount, order);
    } else {
      var refused := order.MarkPaid(p, amount);
      if refused.Some? {
        if OnItsWay(shop.state, id, o, p) && found.value.payment != p {
          PaysTheTotal(shop.state, id, o, p);
        }
        return Err(Refused(refused.value));
      }
      r := PersistPending(shop, id, o, p, amount, order);
    }
    SameStores(s, begun, shop.state, o, p, amount, stock, now, r);
    if shop.failures == old(shop.failures) && OnItsWay(shop.state, id, o, p) {
      HasLanded(shop.state, id, o, p);
    }
  }

  lemma SameStores(s: State, s': State, t: State, o: OrderId, p: PayId, amount: int, stock: ResId, now: int,
                   r: Result<Row, Failure>)
    requires o in s.orders && s'.orders == s.orders && s'.ledger == s.ledger
    ensures AsDelivered(s', t, o, p, amount, stock, now, r) <==> AsDelivered(s, t, o, p, amount, stock, now, r)
  {
  }

  // The first call of a delivery only reads.
  lemma PayBegins(s: State, id: OpId, o: OrderId, p: PayId, amount: int)
    ensures var e := Begin(s, BeginPay(id, o, p, amount));
      && OrdersAfter(s.orders, e) == s.orders && SaveCount(e) == 0
      && (forall owed :: OwedAfter(s, owed, e) == owed)
      && (o in s.orders ==>
            var row := s.orders[o];
            NextPc(s, e) ==
            if AlreadyApplied(row, p) then None
            else if row.status == Canceled then Some(PayReserve(o, p, amount, row, false))
            else match PaidRow(row, p, amount)
                 case Err(_) => None
                 case Ok(paid) => Some(PayReread(o, p, amount, paid)))
      && (o !in s.orders ==> NextPc(s, e) == None)
  {
  }

  // Deliveries that store nothing and reserve nothing.
  lemma NotPayable(s: State, t: State, o: OrderId, p: PayId, amount: int, stock: ResId, now: int)
    requires o in s.orders
    ensures var row := s.orders[o]; t.orders == s.orders && t.ledger == s.ledger ==>
      && (AlreadyApplied(row, p) ==> AsDelivered(s, t, o, p, amount, stock, now, Ok(row)))
      && (!AlreadyApplied(row, p) && row.status != Canceled && PaidRow(row, p, amount).Err? ==>
            AsDelivered(s, t, o, p, amount, stock, now, Err(Refused(PaidRow(row, p, amount).error))))
  {
  }

  /** A canceled order: reinstate it, pay it, save it. */
  method ReinstateAndPersist(shop: Shop, id: OpId, o: OrderId, p: PayId, amount: int, order: Order)
    returns (r: Result<Row, Failure>)
    requires shop.Valid() && shop.At(id, Some(PayReserve(o, p, amount, order.Snapshot(), false)))
    requires shop.owed == {} && order.status == Canceled && order.payment != p
    modifies shop, order
    ensures shop.Valid() && shop.At(id, None) && shop.owed == {}
    ensures shop.failures >= old(shop.failures)
    ensures shop.failures == old(shop.failures) ==> Lands(old(shop.state), shop.state, id)
    ensures shop.lost >= old(shop.lost) && (r == Err(Conflict) ==> shop.lost > old(shop.lost))
    ensures old(shop.saves) <= shop.saves <= old(shop.saves) + (if r.Ok? then 1 else 0)
    ensures r.Ok? ==> o in shop.state.orders && shop.state.orders[o].payment == p == r.value.payment
    ensures shop.failures == old(shop.failures) && p != 0 && OnItsWay(old(shop.state), id, o, p)
            && amount == order.bill.total ==>
      r.Ok? || r.error == Conflict
    ensures old(shop.Calm(2)) && o in old(shop.state).orders && old(order.Snapshot()) == old(shop.state).orders[o] ==>
      AsDelivered(old(shop.state), shop.state, o, p, amount, old(shop.Fresh()), old(shop.Time(0)), r)
  {
    hide OnItsWay, Inv, InvFree, Step, EffectOf, HistoryKept, Shop.Fresh, Shop.Time, Shop.Calm;
    CalmSooner(shop);
    var revived := Revive(shop, id, o, p, amount, order, false);
    if revived.Err? {
      return Err(revived.error);
    }
    r := PersistPaid(shop, id, o, p, amount, order, Some(revived.value));
  }

  /** A pending order paid in memory: look again before saving, as it may have been canceled meanwhile. */
  method PersistPending(shop: Shop, id: OpId, o: OrderId, p: PayId, amount: int, order: Order)
    returns (r: Result<Row, Failure>)
    requires shop.Valid() && shop.At(id, Some(PayReread(o, p, amount, order.Snapshot())))
    requires shop.owed == {} && order.payment == p != 0
    modifies shop
    ensures shop.Valid() && shop.At(id, None) && shop.owed == {}
    ensures shop.failures >= old(shop.failures)
    ensures shop.failures == old(shop.failures) ==> Lands(old(shop.state), shop.state, id)
    ensures shop.lost >= old(shop.lost) && (r == Err(Conflict) ==> shop.lost > old(shop.lost))
    ensures old(shop.saves) <= shop.saves <= old(shop.saves) + (if r.Ok? then 1 else 0)
    ensures r.Ok? ==> o in shop.state.orders && shop.state.orders[o].payment == p == r.value.payment
    ensures shop.failures == old(shop.failures) && OnItsWay(old(shop.state), id, o, p) ==> r.Ok? || r.error == Conflict
    ensures old(shop.Calm(2)) && o in old(shop.state).orders && Payable(old(shop.state).orders[o], p, amount)
            && old(shop.state).orders[o].status == Pending
            && old(order.Snapshot()) == old(shop.state).orders[o].(status := Paid, payment := p) ==>
      AsDelivered(old(shop.state), shop.state, o, p, amount, old(shop.Fresh()), old(shop.Time(0)), r)
  {
    hide OnItsWay, Inv, InvFree, Step, EffectOf, HistoryKept, Shop.Fresh, Shop.Time, Shop.Calm;
    CalmSooner(shop);
    var seen := shop.Reread(id, o);
    if seen == None {
      return Err(Unavailable);
    }
    if seen.value.payment == p && seen.value.status != Pending {
      return Ok(seen.value);
    }
    if seen.value.status == Canceled {
      var again := new Order(seen.value);
      if OnItsWay(shop.state, id, o, p) {
        PaysTheTotal(shop.state, id, o, p);
      }
      r := ReinstateAndPersist(shop, id, o, p, amount, again);
      return;
    }
    r := PersistPaid(shop, id, o, p, amount, order, None);
  }

  /** Reinstate and pay a last time. */
  method TryOnceMore(shop: Shop, id: OpId, o: OrderId, p: PayId, amount: int, order: Order)
    returns (r: Result<Row, Failure>)
    requires shop.Valid() && shop.At(id, Some(PayReserve(o, p, amount, order.Snapshot(), true))) && shop.owed == {}
    modifies shop, order
    ensures shop.Valid() && shop.At(id, None) && shop.owed == {}
    ensures shop.failures >= old(shop.failures)
    ensures shop.failures == old(shop.failures) ==> Lands(old(shop.state), shop.state, id)
    ensures shop.failures == old(shop.failures) && p != 0 && amount == order.bill.total
            && old(order.status) == Canceled ==>
      r.Ok? || r.error == Conflict
    ensures shop.lost >= old(shop.lost) && (r == Err(Conflict) ==> shop.lost > old(shop.lost))
    ensures old(shop.saves) <= shop.saves <= old(shop.saves) + (if r.Ok? then 1 else 0)
    ensures r.Ok? ==> o in shop.state.orders && shop.state.orders[o].payment == p == r.value.payment
  {
    hide OnItsWay, Inv, InvFree;
    var second := Revive(shop, id, o, p, amount, order, true);
    if second.Err? {
      return Err(second.error);
    }
    var saved := shop.SavePaid(id, o, true);
    if saved == None {
      shop.Release(id, second.value);
      return Err(Unavailable);
    }
    if !saved.value {
      shop.Release(id, second.value);
      return Err(Conflict);
    }
    return Ok(order.Snapshot());
  }

  /** The second half of MarkOrderPaid: the guarded save, and one reconciliation when it lost a race. */
  method PersistPaid(shop: Shop, id: OpId, o: OrderId, p: PayId, amount: int, order: Order, reinstated: Option<ResId>)
    returns (r: Result<Row, Failure>)
    requires shop.Valid() && order.payment == p != 0 && (reinstated.Some? ==> order.reservation == reinstated.value)
    requires shop.At(id, Some(PaySave(o, p, amount, order.Snapshot(), reinstated.Some?, false)))
    requires shop.owed == if reinstated == None then {} else {reinstated.value}
    modifies shop
    ensures shop.Valid() && shop.At(id, None) && shop.owed == {}
    ensures shop.failures >= old(shop.failures)
    ensures shop.failures == old(shop.failures) ==> Lands(old(shop.state), shop.state, id)
    ensures shop.failures == old(shop.failures) && p != 0 && OnItsWay(old(shop.state), id, o, p) ==>
      r.Ok? || r.error == Conflict
    ensures shop.lost >= old(shop.lost) && (r == Err(Conflict) ==> shop.lost > old(shop.lost))
    ensures old(shop.saves) <= shop.saves <= old(shop.saves) + (if r.Ok? then 1 else 0)
    ensures r.Ok? ==> o in shop.state.orders && shop.state.orders[o].payment == p == r.value.payment
    ensures old(shop.Calm(1)) && o in old(shop.state).orders
            && old(shop.state).orders[o].status == (if reinstated.Some? then Canceled else Pending) ==>
      r == Ok(old(order.Snapshot())) && shop.state.ledger == old(shop.state).ledger
      && shop.state.orders == PaidOrders(old(shop.state).orders, o, r.value, reinstated.Some?)
  {
    hide OnItsWay, Inv, InvFree, PaidOrders, Shop.Calm, Step, EffectOf, Freed, Shop.Fresh, Shop.Time;
    var saved := shop.SavePaid(id, o, reinstated.Some?);
    if saved == None {
      if reinstated.Some? {
        shop.Release(id, reinstated.value);
      }
      return Err(Unavailable);
    }
    if saved.value {
      return Ok(order.Snapshot());
    }
    var seen := shop.Reread(id, o);
    if seen == None {
      if reinstated.Some? {
        shop.Release(id, reinstated.value);
      }
      return Err(Unavailable);
    }
    if seen.value.payment == p && seen.value.status != Pending {
      if reinstated.Some? {
        shop.Release(id, reinstated.value);
      }
      return Ok(seen.value);
    }
    if seen.value.status == Canceled {
      // The code would forget an earlier reservation here, but a handler that holds one never gets here.
      var again := new Order(seen.value);
      if OnItsWay(shop.state, id, o, p) {
        PaysTheTotal(shop.state, id, o, p);
      }
      r := TryOnceMore(shop, id, o, p, amount, again);
      return;
    }
    if reinstated.Some? {
      shop.Release(id, reinstated.value);
    }
    return Err(Conflict);
  }

  /** What an accepted create request is answered with: a stored order, the one of its key and its fingerprint. */
  ghost predicate Answers(s: State, draft: Draft, o: OrderId) {
    o in s.orders
    && (draft.key.Some? ==> draft.key.value in s.idem && s.idem[draft.key.value] == IdemRecord(o, draft.hash))
  }

  /** The request's key names an order of another request. */
  ghost predicate TakenByAnother(s: State, draft: Draft) {
    draft.key.Some? && draft.key.value in s.idem && s.idem[draft.key.value].hash != draft.hash
  }

  lemma OthersStayAway(s: State, a: Action, id: OpId)
    requires Enabled(s, a) && a.id != id && id !in s.ops
    ensures id !in Step(s, a).ops
  {
    hide EffectOf;
  }

  lemma KeyedOrderIsStored(s: State, key: Key)
    requires KeysOk(s) && key in s.idem
    ensures s.idem[key].order in s.orders
  {
  }

  /** loadIdempotentOrder: the key's order, unless the request was a different one. */
  method Replay(shop: Shop, draft: Draft) returns (r: Result<OrderId, Failure>)
    requires shop.Valid() && draft.key.Some? && draft.key.value in shop.state.idem
    ensures r.Ok? <==> shop.state.idem[draft.key.value].hash == draft.hash
    ensures r.Err? ==> r.error == Conflict
    ensures r.Ok? ==> Answers(shop.state, draft, r.value)
  {
    var found := shop.state.idem[draft.key.value];
    if found.hash != draft.hash {
      return Err(Conflict);
    }
    KeyedOrderIsStored(shop.state, draft.key.value);
    return Ok(found.order);
  }

  // --------------------------------------------------------------- CreateOrder

  method CreateOrder(shop: Shop, id: OpId, draft: Draft, deliverable: bool) returns (r: Result<OrderId, Failure>)
    requires shop.Valid() && shop.At(id, None) && shop.owed == {}
    modifies shop
    ensures shop.Valid() && shop.At(id, None) && shop.owed == {}
    ensures r.Err? ==> shop.saves == old(shop.saves)
    ensures shop.failures == old(shop.failures) && draft.customer != 0 && deliverable
            && BillFor(draft.up, draft.lines, draft.discount, draft.shipping).Some? ==>
      r.Ok? || (r.error == Conflict && TakenByAnother(shop.state, draft))
    ensures r.Ok? ==> Answers(shop.state, draft, r.value)
    ensures draft.key.Some? && draft.key.value in old(shop.state).idem ==>
      shop.state == old(shop.state) && (r.Ok? <==> shop.state.idem[draft.key.value].hash == draft.hash)
    ensures old(shop.Calm(2)) && !(draft.key.Some? && draft.key.value in old(shop.state).idem) ==>
      var bill := BillFor(draft.up, draft.lines, draft.discount, draft.shipping);
      var o, stock := old(shop.state).nextOrder, old(shop.Fresh());
      && (r.Ok? <==> draft.customer != 0 && bill.Some? && deliverable) && (r.Ok? ==> r.value == o)
      && shop.state.orders == (if r.Err? then old(shop.state).orders
                               else old(shop.state).orders[
                                   o := Row(Pending, stock, 0, bill.value, old(shop.Time(1)) + PAYMENT_TTL)])
      && shop.state.ledger ==
           old(shop.state).ledger[stock := Reservation(o, if r.Ok? then Active else Released)]
  {
    hide Lands, SaveCount, Inv, InvFree, Step, EffectOf, HistoryKept, Shop.Fresh, Shop.Calm, BillFor;
    CalmSooner(shop);
    var o := shop.StartCreate(id, draft);
    if o == None {
      r := Replay(shop, draft);
      return;
    }
    var reserved := shop.ReserveFirst(id, o.value, draft);
    if reserved == None {
      return Err(Unavailable);
    }
    var reservation := reserved.value;
    var now := shop.Clock();
    var made := NewOrder(draft.up, o.value, draft.customer, reservation,
                         draft.lines, draft.discount, draft.shipping, now);
    if made.Err? || !deliverable {
      shop.Abandon(id, o.value, draft, reservation);
      shop.Release(id, reservation);
      return Err(Refused(InvalidOrder));
    }
    var saved := shop.SaveOrder(id, o.value, draft, reservation, now);
    if !saved {
      r := AnswerFromKey(shop, id, draft, reservation);
      return;
    }
    return Ok(o.value);
  }

  /** After a save that did not happen: gives the stock back, and answers with the key's order if it has one now. */
  method AnswerFromKey(shop: Shop, id: OpId, draft: Draft, reservation: ResId) returns (r: Result<OrderId, Failure>)
    requires shop.Valid() && shop.At(id, Some(Pc.Release(reservation))) && shop.owed == {reservation}
    modifies shop
    ensures shop.Valid() && shop.At(id, None) && shop.owed == {}
    ensures shop.saves == old(shop.saves) && shop.failures >= old(shop.failures)
    ensures r.Ok? ==> Answers(shop.state, draft, r.value)
    ensures shop.failures == old(shop.failures) && draft.key.Some? && draft.key.value in old(shop.state).idem ==>
      r.Ok? || (r.error == Conflict && TakenByAnother(shop.state, draft))
  {
    hide Lands, Inv, InvFree, Step, Shop.Fresh, Shop.Time, Shop.Calm;
    shop.Release(id, reservation);
    if draft.key.Some? {
      var found := shop.FindByKey(id, draft.key.value);
      if found.Some? {
        r := Replay(shop, draft);
        return;
      }
    }
    return Err(Unavailable);
  }

  // --------------------------------------------- shipping, expiry and refunds

  method ShipOrder(shop: Shop, id: OpId, o: OrderId, lower: char -> char, shippedBy: string, given: Tracking)
    returns (r: Result<Row, Failure>)
    requires shop.Valid() && shop.At(id, None) && shop.owed == {}
    modifies shop
    ensures shop.Valid() && shop.At(id, None) && shop.owed == {}
    ensures r.Err? ==> shop.saves == old(shop.saves)
    ensures r.Ok? ==> Text.TrimSpace(shippedBy) != "" && NormalTracking(lower, given).Some?
    ensures old(shop.Calm(2)) ==>
      (r.Ok? <==>
        Shippable(old(shop.state), o) && Text.TrimSpace(shippedBy) != "" && NormalTracking(lower, given).Some?)
    ensures old(shop.Calm(2)) ==>
      var s, t := old(shop.state), shop.state;
      if r.Err? then t.orders == s.orders && t.ledger == s.ledger
      else
        var row := s.orders[o];
        r.value == row.(status := InTransit) && t.orders == s.orders[o := r.value]
        && t.ledger == s.ledger[row.reservation := s.ledger[row.reservation].(status := Committed)]
    ensures r.Ok? ==> o in shop.state.orders && shop.state.orders[o].status == InTransit
                      && (shop.guarded ==> StockCommitted(shop.state, o))
  {
    hide Lands, Inv, InvFree, Step, EffectOf, HistoryKept, Shop.Fresh, Shop.Time, Shop.Calm;
    hide Text.TrimSpace, NormalTracking;
    CalmSooner(shop);
    if o !in shop.state.orders {
      return Err(NotFound);
    }
    if Text.TrimSpace(shippedBy) == "" {
      return Err(Refused(InvalidOrder));
    }
    var tracking := NormalTracking(lower, given);
    if tracking == None {
      return Err(Refused(InvalidShipment));
    }
    var found := shop.Start(BeginShip(id, o));
    var order := new Order(found.value);
    if order.status != Paid {
      return Err(Refused(InvalidTransition));
    }
    var committed := shop.CommitStock(id, o, order.Snapshot());
    if !committed {
      return Err(Unavailable);
    }
    ghost var loaded := order.Snapshot();
    // The stock is gone, but normalized tracking is never refused.
    NormalTrackingShips(lower, given, shippedBy);
    var refused := order.Ship(shippedBy, tracking.value);
    assert refused == None && order.shipment == Some(Shipment(Text.TrimSpace(shippedBy), tracking.value));
    var saved := shop.SaveShipped(id, o, loaded);
    if saved == None {
      return Err(Unavailable);
    }
    if !saved.value {
      var seen := shop.Look(id, o);
      if seen == None {
        return Err(Conflict);
      }
      if seen.value.status == InTransit {
        ShippedIsCommitted(shop, o);
        return Ok(seen.value);
      }
      return Err(Refused(InvalidTransition));
    }
    ShippedIsCommitted(shop, o);
    return Ok(order.Snapshot());
  }

  lemma ShippedIsCommitted(shop: Shop, o: OrderId)
    requires shop.Valid() && o in shop.state.orders && shop.state.orders[o].status == InTransit
    ensures shop.guarded ==> StockCommitted(shop.state, o)
  {
    hide InvFree;
    assert shop.guarded ==> RowOk(shop.cfg, shop.state, o);
  }

  /** The stock of this order is no longer on hold. */
  ghost predicate GivenUp(s: State, o: OrderId, r: ResId) {
    r in s.ledger && s.ledger[r].order == o && s.ledger[r].status != Active
  }

  method CancelExpiredPendingOrder(shop: Shop, id: OpId, o: OrderId, now: int) returns (released: Option<ResId>)
    requires shop.Valid() && shop.At(id, None) && shop.owed == {}
    modifies shop
    ensures shop.Valid() && shop.At(id, None) && shop.owed == {}
    ensures shop.cancels == old(shop.cancels) + if released == None then [] else [(o, released.value)]
    ensures released.Some? ==> GivenUp(shop.state, o, released.value)
    ensures old(shop.Calm(1)) && o in old(shop.state).orders ==>
      (released.Some? <==> PaymentExpired(old(shop.state).orders[o], now))
  {
    hide Lands, Inv, InvFree;
    var found := shop.Start(BeginExpire(id, o, now));
    if found == None || !PaymentExpired(found.value, now) {
      return None;
    }
    released := shop.CancelIf(id, o);
    if released.Some? {
      shop.Release(id, released.value);
    }
  }

  method CancelOrderForRefund(shop: Shop, id: OpId, o: OrderId, p: PayId, remaining: int)
    returns (released: Option<ResId>)
    requires shop.Valid() && shop.At(id, None) && shop.owed == {}
    modifies shop
    ensures shop.Valid() && shop.At(id, None) && shop.owed == {}
    ensures shop.cancels == old(shop.cancels) + if released == None then [] else [(o, released.value)]
    ensures released.Some? ==> GivenUp(shop.state, o, released.value) && remaining <= 0 && p != 0
    ensures old(shop.Calm(1)) && o in old(shop.state).orders ==>
      (released.Some? <==> remaining <= 0 && Cancels(old(shop.state), RefundCancel(o, p)))
  {
    hide Lands, Inv, InvFree;
    if remaining > 0 {
      return None;
    }
    var found := shop.Start(BeginRefund(id, o, p, remaining));
    if found == None || p == 0 || found.value.payment != p || found.value.status != Paid {
      return None;
    }
    released := shop.CancelIf(id, o);
    if released.Some? {
      shop.Release(id, released.value);
    }
  }

  /** The operator's cancel: its load and its unguarded save count as one step. */
  method CancelOrder(shop: Shop, id: OpId, o: OrderId) returns (r: Result<ResId, Failure>)
    requires shop.Valid() && shop.At(id, None) && shop.owed == {}
    modifies shop
    ensures shop.Valid() && shop.At(id, None) && shop.owed == {}
    ensures shop.cancels == old(shop.cancels) + if r.Err? then [] else [(o, r.value)]
    ensures r.Ok? ==> GivenUp(shop.state, o, r.value)
    ensures r.Ok? <==> o in old(shop.state).orders && old(shop.state).orders[o].status in {Pending, Paid}
  {
    hide Lands, Inv, InvFree;
    var found := shop.Start(OperatorCancel(id, o));
    if found == None {
      return Err(NotFound);
    }
    var order := new Order(found.value);
    var refused := order.Cancel();
    if refused.Some? {
      return Err(Refused(refused.value));
    }
    NamedStockIsTheirs(shop.cfg, shop.state, o);
    shop.Release(id, order.reservation);
    return Ok(order.reservation);
  }

  lemma NamedStockIsTheirs(cfg: Config, s: State, o: OrderId)
    requires InvFree(cfg, s) && o in s.orders
    ensures s.orders[o].reservation in s.ledger && s.ledger[s.orders[o].reservation].order == o
  {
    assert RowFree(cfg, s, o);
  }

  lemma RereadStep(s: State, id: OpId, outcome: Outcome)
    requires Enabled(s, Advance(id, outcome)) && (s.ops[id].PayReread? || s.ops[id].PayRecheck?)
    ensures var t, pc := Step(s, Advance(id, outcome)), s.ops[id];
      t.orders == s.orders && t.ledger == s.ledger && pc.o in s.orders && EffectOf(s, Advance(id, outcome)).Move?
      && Stands(t, id, After(if outcome.Fails? then StepFailed(pc)
                             else if pc.PayReread? then StepPayReread(pc, s.orders[pc.o])
                             else StepPayRecheck(pc, s.orders[pc.o])))
  {
  }

  lemma ReserveAgainStep(s: State, id: OpId, outcome: Outcome)
    requires Enabled(s, Advance(id, outcome)) && s.ops[id].PayReserve?
    ensures Stands(Step(s, Advance(id, outcome)), id,
                   if outcome.Fails? then None else After(StepPayReserve(s.ops[id], outcome.now, outcome.newId)))
    ensures if outcome.Fails? then EffectOf(s, Advance(id, outcome)) == DONE
            else EffectOf(s, Advance(id, outcome)).Reserve? && EffectOf(s, Advance(id, outcome)).r == outcome.newId
    ensures var t := Step(s, Advance(id, outcome));
      t.orders == s.orders
      && (outcome.Succeeds? ==> t.ledger == s.ledger[outcome.newId := Reservation(s.ops[id].o, Active)])
  {
  }

  /** The columns a paid save writes. */
  function PaidOrders(orders: map<OrderId, Row>, o: OrderId, local: Row, revived: bool): map<OrderId, Row>
    requires o in orders
  {
    orders[o := orders[o].(status := Paid, payment := local.payment, reservation := local.reservation,
                           due := if revived then local.due else orders[o].due)]
  }

  lemma SavePaidStep(s: State, id: OpId, outcome: Outcome)
    requires Enabled(s, Advance(id, outcome)) && s.ops[id].PaySave?
    ensures var t, pc := Step(s, Advance(id, outcome)), s.ops[id];
      pc.o in s.orders && pc.o in t.orders
      && if outcome.Fails? then Stands(t, id, After(StepFailed(pc)))
         else if s.orders[pc.o].status == (if pc.reinstated then Canceled else Pending) then
           Stands(t, id, None) && t.orders[pc.o].status == Paid && t.orders[pc.o].payment == pc.local.payment
           && EffectOf(s, Advance(id, outcome)).StorePaid?
           && EffectOf(s, Advance(id, outcome)).r == pc.local.reservation
           && t.ledger == s.ledger && t.orders == PaidOrders(s.orders, pc.o, pc.local, pc.reinstated)
         else Stands(t, id, After(StepNotSaved(pc))) && EffectOf(s, Advance(id, outcome)).Move?
    ensures outcome.Fails? ==> EffectOf(s, Advance(id, outcome)).Move?
  {
  }
}
