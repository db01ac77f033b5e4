/**
 * When a canceled payment is final, with any number of deliveries, refunds and operator cancels at once
 * and no guard at all: exactly when no delivery that saw the order canceled before is still on its way.
 */
module OrderFinality {
  import opened Common
  import opened Orders
  import opened OrderProtocol
  import opened OrderMoney

  /** Refunded or canceled after payment. */
  predicate Closed(s: State, o: OrderId) {
    o in s.orders && s.orders[o].status == Canceled && s.orders[o].payment != 0
  }

  /** The row is the same and no stock was reserved for it. */
  ghost predicate LeftAlone(s: State, s': State, o: OrderId) {
    o in s.orders && o in s'.orders && s'.orders[o] == s.orders[o]
    && forall r :: r in s'.ledger && s'.ledger[r].order == o ==> r in s.ledger && s.ledger[r].order == o
  }

  lemma OthersStand(s: State, a: Action)
    requires Enabled(s, a)
    ensures forall j :: j != a.id ==>
      (j in Step(s, a).ops <==> j in s.ops) && (j in s.ops ==> Step(s, a).ops[j] == s.ops[j])
  {
    hide EffectOf;
    OnlyOneMoves(s, a.id, EffectOf(s, a));
  }

  // ----------------------------------------------------------------- finality

  /** Whatever happens from here on, the row stays as it is and no stock is reserved for the order. */
  ghost predicate Final(cfg: Config, s: State, o: OrderId) {
    forall actions :: Possible(cfg, s, actions) ==> LeftAlone(s, Reached(cfg, s, actions), o)
  }

  /** An effect that revives o: it takes stock for it, stores it paid, or leaves its handler on the way there. */
  predicate Revives(s: State, e: Effect, o: OrderId) {
    (e.Reserve? && e.o == o) || (e.StorePaid? && e.o == o)
    || (NextPc(s, e).Some? && Reviving(NextPc(s, e).value) && NextPc(s, e).value.o == o)
  }

  lemma BeginRevivesNothing(cfg: Config, s: State, a: Action, o: OrderId)
    requires InvFree(cfg, s) && Unrestricted(cfg, s, a) && !a.Advance? && Closed(s, o)
    ensures !Revives(s, Begin(s, a), o)
  {
    hide BillFor, Normalized;
    assert RowFree(cfg, s, o);
  }

  lemma OnlyReviversRevive(cfg: Config, s: State, id: OpId, outcome: Outcome, o: OrderId)
    requires InvFree(cfg, s) && Enabled(s, Advance(id, outcome)) && Closed(s, o)
    requires Revives(s, EffectOf(s, Advance(id, outcome)), o)
    ensures Reviving(s.ops[id]) && s.ops[id].o == o
  {
    hide BillFor, Normalized, ValidBill;
    assert RowFree(cfg, s, o) && PcFree(cfg, s, s.ops[id]);
  }

  lemma ClosedStepRevivesNothing(cfg: Config, s: State, a: Action, o: OrderId)
    requires InvFree(cfg, s) && Unrestricted(cfg, s, a) && Closed(s, o) && !RevivalInFlight(s, o)
    ensures !Revives(s, EffectOf(s, a), o)
  {
    hide InvFree, Revives, StepOk, StepFailed, Begin;
    if !a.Advance? {
      BeginRevivesNothing(cfg, s, a, o);
    } else if Revives(s, EffectOf(s, a), o) {
      OnlyReviversRevive(cfg, s, a.id, a.outcome, o);
    }
  }

  lemma ClosedRowStays(cfg: Config, s: State, a: Action, o: OrderId)
    requires InvFree(cfg, s) && Unrestricted(cfg, s, a) && Closed(s, o) && !RevivalInFlight(s, o)
    ensures o in Step(s, a).orders && Step(s, a).orders[o] == s.orders[o]
  {
    ClosedStepRevivesNothing(cfg, s, a, o);
    if a.BeginCreate? {
      CreateTouchesNothing(s, a);
    } else {
      StepIsSensible(cfg, s, a);
      hide EffectOf, ValidBill, Normalized, RowFree;
      assert a.id in s.ops ==> PcFree(cfg, s, s.ops[a.id]);
    }
  }

  lemma ClosedGetsNoStock(cfg: Config, s: State, a: Action, o: OrderId, r: ResId)
    requires InvFree(cfg, s) && Unrestricted(cfg, s, a) && Closed(s, o) && !RevivalInFlight(s, o)
    requires r in Step(s, a).ledger && Step(s, a).ledger[r].order == o
    ensures r in s.ledger && s.ledger[r].order == o
  {
    ClosedStepRevivesNothing(cfg, s, a, o);
    hide EffectOf, InvFree;
  }

  lemma NoRevivalStarts(cfg: Config, s: State, a: Action, o: OrderId)
    requires InvFree(cfg, s) && Unrestricted(cfg, s, a) && Closed(s, o) && !RevivalInFlight(s, o)
    ensures !RevivalInFlight(Step(s, a), o)
  {
    OthersStand(s, a);
    ClosedStepRevivesNothing(cfg, s, a, o);
    hide EffectOf, InvFree;
  }

  lemma {:induction false} ClosedStaysAlone(cfg: Config, s: State, actions: seq<Action>, o: OrderId)
    requires InvFree(cfg, s) && Possible(cfg, s, actions) && Closed(s, o) && !RevivalInFlight(s, o)
    ensures LeftAlone(s, Reached(cfg, s, actions), o)
    decreases |actions|
  {
    hide InvFree, Step, Enabled, RevivalInFlight;
    if actions != [] {
      var a := actions[0];
      var t := Step(s, a);
      FreeStepKeeps(cfg, s, a);
      ClosedRowStays(cfg, s, a, o);
      NoRevivalStarts(cfg, s, a, o);
      forall r | r in t.ledger && t.ledger[r].order == o ensures r in s.ledger && s.ledger[r].order == o {
        ClosedGetsNoStock(cfg, s, a, o, r);
      }
      ClosedStaysAlone(cfg, t, actions[1..], o);
    }
  }

  /** A number no key of the map has. */
  lemma {:induction false} UnusedId<V>(m: map<nat, V>) returns (r: nat)
    ensures r != 0 && r !in m && forall k :: k in m ==> k < r
    decreases |m|
  {
    if m == map[] {
      r := 1;
    } else {
      var k :| k in m;
      var rest := m - {k};
      assert rest.Keys == m.Keys - {k};
      r := UnusedId(rest);
      r := if k < r then r else k + 1;
      forall x | x in m ensures x < r {
        assert x == k || x in rest;
      }
    }
  }

  /** A reviver's own next call, if it succeeds, takes stock for the order or stores it paid. */
  lemma ReviverStrikes(cfg: Config, s: State, id: OpId, o: OrderId) returns (a: Action)
    requires InvFree(cfg, s) && Closed(s, o) && id in s.ops && Reviving(s.ops[id]) && s.ops[id].o == o
    ensures Unrestricted(cfg, s, a) && !LeftAlone(s, Step(s, a), o)
  {
    hide BillFor, Normalized, RowFree;
    assert PcFree(cfg, s, s.ops[id]);
    var r := UnusedId(s.ledger);
    a := Advance(id, Succeeds(0, r));
    assert Unrestricted(cfg, s, a);
    if s.ops[id].PayReserve? {
      assert r in Step(s, a).ledger && Step(s, a).ledger[r].order == o;
    } else {
      assert Step(s, a).orders[o].status == Paid;
    }
  }

  lemma FinalFromHere(cfg: Config, s: State, o: OrderId)
    requires InvFree(cfg, s) && Closed(s, o)
    ensures Final(cfg, s, o) <==> !RevivalInFlight(s, o)
  {
    hide InvFree, Step, Enabled, LeftAlone, Closed;
    if RevivalInFlight(s, o) {
      var id :| id in s.ops && Reviving(s.ops[id]) && s.ops[id].o == o;
      var a := ReviverStrikes(cfg, s, id, o);
      assert [a][1..] == [];
      assert Possible(cfg, Step(s, a), []);
      assert Possible(cfg, s, [a]) && Reached(cfg, s, [a]) == Reached(cfg, Step(s, a), []) == Step(s, a);
    } else {
      forall actions | Possible(cfg, s, actions) ensures LeftAlone(s, Reached(cfg, s, actions), o) {
        ClosedStaysAlone(cfg, s, actions, o);
      }
    }
  }

  /**
   * In every reachable state, with no guard at all, an order canceled with its payment is final exactly when
   * no delivery that saw it canceled before is on its way.
   */
  lemma FinalIffNoRevival(cfg: Config, past: seq<Action>, o: OrderId)
    requires Possible(cfg, EMPTY, past) && Closed(Reached(cfg, EMPTY, past), o)
    ensures Final(cfg, Reached(cfg, EMPTY, past), o) <==> !RevivalInFlight(Reached(cfg, EMPTY, past), o)
  {
    EmptyIsFree(cfg);
    FreeRunKeeps(cfg, EMPTY, past);
    FinalFromHere(cfg, Reached(cfg, EMPTY, past), o);
  }

  lemma CloseKeepsRevivals(s: State, a: Action, o: OrderId)
    requires Enabled(s, a) && ClosesPaid(s, EffectOf(s, a)) && EffectOf(s, a).o == o
    ensures RevivalInFlight(Step(s, a), o) <==> RevivalInFlight(s, o)
  {
    OthersStand(s, a);
    OwnCloseRevivesNothing(s, a);
    var t := Step(s, a);
    if RevivalInFlight(s, o) {
      var id :| id in s.ops && Reviving(s.ops[id]) && s.ops[id].o == o;
      assert id in t.ops && Reviving(t.ops[id]) && t.ops[id].o == o;
    }
  }

  lemma OwnCloseRevivesNothing(s: State, a: Action)
    requires Enabled(s, a) && EffectOf(s, a).StoreCanceled?
    ensures a.id in s.ops ==> !Reviving(s.ops[a.id])
    ensures a.id in Step(s, a).ops ==> !Reviving(Step(s, a).ops[a.id])
  {
  }

  /**
   * So the condition is one a caller could check before the cancel: from any reachable state, canceling a paid
   * order is final exactly when no revival of it is in flight.
   */
  lemma GuardIsExact(cfg: Config, past: seq<Action>, a: Action)
    requires Possible(cfg, EMPTY, past) && Unrestricted(cfg, Reached(cfg, EMPTY, past), a)
    requires ClosesPaid(Reached(cfg, EMPTY, past), EffectOf(Reached(cfg, EMPTY, past), a))
    ensures var s := Reached(cfg, EMPTY, past); var o := EffectOf(s, a).o;
      Closed(Step(s, a), o) && (Final(cfg, Step(s, a), o) <==> !RevivalInFlight(s, o))
  {
    EmptyIsFree(cfg);
    FreeRunKeeps(cfg, EMPTY, past);
    var s := Reached(cfg, EMPTY, past);
    var o := EffectOf(s, a).o;
    FreeStepKeeps(cfg, s, a);
    CloseCloses(cfg, s, a);
    hide Step, EffectOf;
    CloseKeepsRevivals(s, a, o);
    FinalFromHere(cfg, Step(s, a), o);
  }

  lemma CloseCloses(cfg: Config, s: State, a: Action)
    requires InvFree(cfg, s) && Enabled(s, a) && ClosesPaid(s, EffectOf(s, a))
    ensures Closed(Step(s, a), EffectOf(s, a).o)
  {
    hide EffectOf;
    assert RowFree(cfg, s, EffectOf(s, a).o);
  }

  // ------------------------------------------------- runs that wait for revivals

  /** A paid order is canceled only when no revival of it is in flight. */
  predicate Patient(s: State, a: Action)
    requires Enabled(s, a)
  {
    ClosesPaid(s, EffectOf(s, a)) ==> !RevivalInFlight(s, EffectOf(s, a).o)
  }

  ghost predicate PatientRun(cfg: Config, states: seq<State>, actions: seq<Action>) {
    |states| == |actions| + 1 && states[0] == EMPTY
    && forall i :: 0 <= i < |actions| ==>
         Unrestricted(cfg, states[i], actions[i]) && Patient(states[i], actions[i])
         && states[i + 1] == Step(states[i], actions[i])
  }

  lemma ClosingNeedsAPaidOrder(cfg: Config, s: State, a: Action, o: OrderId)
    requires InvFree(cfg, s) && Unrestricted(cfg, s, a) && !Closed(s, o) && Closed(Step(s, a), o)
    ensures ClosesPaid(s, EffectOf(s, a)) && EffectOf(s, a).o == o
  {
    hide BillFor, Normalized, ValidBill, StepOk, StepFailed, Begin;
    if a.BeginCreate? {
      CreateTouchesNothing(s, a);
    } else {
      StepIsSensible(cfg, s, a);
      assert o in s.orders ==> RowFree(cfg, s, o);
    }
  }

  lemma {:induction false} ClosedMeansNoRevival(cfg: Config, states: seq<State>, actions: seq<Action>,
        i: nat, o: OrderId)
    requires PatientRun(cfg, states, actions) && i < |states|
    ensures InvFree(cfg, states[i]) && (Closed(states[i], o) ==> !RevivalInFlight(states[i], o))
  {
    hide InvFree, Step, Enabled, EffectOf, Closed, RevivalInFlight;
    if i == 0 {
      EmptyIsFree(cfg);
      NothingIsClosed(o);
    } else {
      var s, a := states[i - 1], actions[i - 1];
      ClosedMeansNoRevival(cfg, states, actions, i - 1, o);
      FreeStepKeeps(cfg, s, a);
      if Closed(states[i], o) {
        if Closed(s, o) {
          NoRevivalStarts(cfg, s, a, o);
        } else {
          ClosingNeedsAPaidOrder(cfg, s, a, o);
          CloseKeepsRevivals(s, a, o);
        }
      }
    }
  }

  lemma NothingIsClosed(o: OrderId)
    ensures !Closed(EMPTY, o)
  {
  }

  /** In a patient run, once an order is canceled with its payment, no later delivery revives it or takes stock. */
  lemma {:induction false} CanceledPaymentIsFinal(cfg: Config, states: seq<State>, actions: seq<Action>,
        i: nat, j: nat, o: OrderId)
    requires PatientRun(cfg, states, actions) && i <= j < |states| && Closed(states[i], o)
    ensures LeftAlone(states[i], states[j], o)
  {
    hide InvFree, Step, Enabled, EffectOf, RevivalInFlight;
    if i < j {
      CanceledPaymentIsFinal(cfg, states, actions, i, j - 1, o);
      var s, a := states[j - 1], actions[j - 1];
      ClosedMeansNoRevival(cfg, states, actions, j - 1, o);
      ClosedRowStays(cfg, s, a, o);
      forall r | r in states[j].ledger && states[j].ledger[r].order == o
        ensures r in s.ledger && s.ledger[r].order == o
      {
        ClosedGetsNoStock(cfg, s, a, o, r);
      }
    }
  }
}
