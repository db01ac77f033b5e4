/** Two ways of working in which no paid order is ever canceled during a revival, so that no guard is needed. */
module OrderDiscipline {
  import opened Common
  import opened Orders
  import opened OrderProtocol
  import opened OrderMoney
  import opened OrderFinality

  predicate PayInFlight(s: State, o: OrderId) {
    exists id :: id in s.ops && IsPay(s.ops[id]) && s.ops[id].o == o
  }

  /** Two ways of working that need no guard: nobody cancels paid orders, or one delivery at a time per order. */
  datatype Discipline = NoCancels | OneDelivery

  predicate Disciplined(d: Discipline, s: State, a: Action) {
    match d
    case NoCancels => !a.BeginRefund? && !a.OperatorCancel?
    case OneDelivery => a.BeginPay? ==> !PayInFlight(s, a.o)
  }

  predicate PcCalm(d: Discipline, s: State, pc: Pc) {
    match d
    case NoCancels => !pc.RefundCancel?
    case OneDelivery => Reviving(pc) ==> pc.o in s.orders && s.orders[pc.o].status == Canceled
  }

  predicate PairCalm(d: Discipline, a: Pc, b: Pc) {
    d == OneDelivery && IsPay(a) && IsPay(b) ==> a.o != b.o
  }

  ghost predicate Calm(d: Discipline, s: State) {
    (forall id :: id in s.ops ==> PcCalm(d, s, s.ops[id]))
    && forall i, j :: i in s.ops && j in s.ops && i != j ==> PairCalm(d, s.ops[i], s.ops[j])
  }

  lemma CalmIsPatient(d: Discipline, s: State, a: Action)
    requires Calm(d, s) && Enabled(s, a) && Disciplined(d, s, a)
    ensures Patient(s, a)
  {
    if a.Advance? {
      assert PcCalm(d, s, s.ops[a.id]);
    }
  }

  lemma OnlyPayersPay(s: State, a: Action)
    requires Enabled(s, a) && EffectOf(s, a).StorePaid?
    ensures a.Advance? && IsPay(s.ops[a.id]) && s.ops[a.id].o == EffectOf(s, a).o
  {
    hide BillFor, Normalized;
  }

  lemma CanceledStays(cfg: Config, s: State, a: Action, j: OpId)
    requires InvFree(cfg, s) && Unrestricted(cfg, s, a) && j in s.ops && j != a.id
    requires Reviving(s.ops[j]) && PcCalm(OneDelivery, s, s.ops[j])
    requires a.id in s.ops ==> PairCalm(OneDelivery, s.ops[a.id], s.ops[j])
    ensures PcCalm(OneDelivery, Step(s, a), s.ops[j])
  {
    hide BillFor, Normalized, ValidBill, RowFree, BillOk, KeysOk, MadeFor, StepOk, StepFailed, Begin;
    if a.BeginCreate? {
      CreateTouchesNothing(s, a);
    } else {
      StepIsSensible(cfg, s, a);
      if EffectOf(s, a).StorePaid? {
        OnlyPayersPay(s, a);
      }
      hide EffectOf;
      assert a.id in s.ops ==> PcFree(cfg, s, s.ops[a.id]);
      hide InvFree;
    }
  }

  lemma NewPcCalm(d: Discipline, s: State, a: Action)
    requires Enabled(s, a) && Disciplined(d, s, a) && !a.Advance? && a.id in Step(s, a).ops
    ensures PcCalm(d, Step(s, a), Step(s, a).ops[a.id])
  {
    hide BillFor, Normalized;
  }

  lemma OwnPcCalm(d: Discipline, cfg: Config, s: State, a: Action)
    requires InvFree(cfg, s) && Unrestricted(cfg, s, a) && a.Advance? && a.id in Step(s, a).ops
    requires PcCalm(d, s, s.ops[a.id])
    ensures PcCalm(d, Step(s, a), Step(s, a).ops[a.id])
  {
    hide BillFor, Normalized, ValidBill, KeysOk;
    assert PcFree(cfg, s, s.ops[a.id]);
  }

  lemma OwnPairCalm(d: Discipline, cfg: Config, s: State, a: Action, j: OpId)
    requires InvFree(cfg, s) && Unrestricted(cfg, s, a) && Disciplined(d, s, a) && a.id in Step(s, a).ops
    requires j in s.ops && j != a.id && (a.id in s.ops ==> PairCalm(d, s.ops[a.id], s.ops[j]))
    ensures PairCalm(d, Step(s, a).ops[a.id], s.ops[j]) && PairCalm(d, s.ops[j], Step(s, a).ops[a.id])
  {
    hide BillFor, Normalized, InvFree;
  }

  lemma StepStaysCalm(d: Discipline, cfg: Config, s: State, a: Action)
    requires InvFree(cfg, s) && Calm(d, s) && Unrestricted(cfg, s, a) && Disciplined(d, s, a)
    ensures Calm(d, Step(s, a))
  {
    hide InvFree, Step, PcCalm, PairCalm, Disciplined;
    var t := Step(s, a);
    OthersStand(s, a);
    forall j | j in t.ops ensures PcCalm(d, t, t.ops[j]) {
      if j == a.id && !a.Advance? {
        NewPcCalm(d, s, a);
      } else if j == a.id {
        OwnPcCalm(d, cfg, s, a);
      } else if d == OneDelivery && Reviving(s.ops[j]) {
        CanceledStays(cfg, s, a, j);
      } else {
        CalmElsewhere(d, s, t, s.ops[j]);
      }
    }
    forall i, j | i in t.ops && j in t.ops && i != j ensures PairCalm(d, t.ops[i], t.ops[j]) {
      if i == a.id {
        OwnPairCalm(d, cfg, s, a, j);
      } else if j == a.id {
        OwnPairCalm(d, cfg, s, a, i);
      }
    }
  }

  lemma CalmElsewhere(d: Discipline, s: State, t: State, pc: Pc)
    requires PcCalm(d, s, pc) && (d == OneDelivery ==> !Reviving(pc))
    ensures PcCalm(d, t, pc)
  {
  }

  /** A patient cancel puts no stock at risk: whoever is about to pay is about to revive. */
  lemma PatientIsGuarded(s: State, a: Action)
    requires Enabled(s, a) && Patient(s, a)
    ensures Guarded(s, a)
  {
    hide EffectOf;
  }

  /** Under either discipline every run is patient, and so guarded: all that is proved of such runs holds. */
  lemma {:induction false} DisciplineSuffices(d: Discipline, cfg: Config, states: seq<State>, actions: seq<Action>)
    requires |states| == |actions| + 1 && states[0] == EMPTY
    requires forall i :: 0 <= i < |actions| ==>
      Unrestricted(cfg, states[i], actions[i]) && Disciplined(d, states[i], actions[i])
      && states[i + 1] == Step(states[i], actions[i])
    ensures PatientRun(cfg, states, actions) && Run(cfg, states, actions)
  {
    hide Step, Enabled, Disciplined, Patient, Guarded;
    forall i | 0 <= i < |actions| ensures Patient(states[i], actions[i]) && Guarded(states[i], actions[i]) {
      StaysCalm(d, cfg, states, actions, i);
      CalmIsPatient(d, states[i], actions[i]);
      PatientIsGuarded(states[i], actions[i]);
    }
  }

  lemma {:induction false} StaysCalm(d: Discipline, cfg: Config, states: seq<State>, actions: seq<Action>, i: nat)
    requires |states| == |actions| + 1 && states[0] == EMPTY && i < |states|
    requires forall i :: 0 <= i < |actions| ==>
      Unrestricted(cfg, states[i], actions[i]) && Disciplined(d, states[i], actions[i])
      && states[i + 1] == Step(states[i], actions[i])
    ensures InvFree(cfg, states[i]) && Calm(d, states[i])
  {
    hide Calm, InvFree, Step, Enabled, Disciplined;
    if i == 0 {
      EmptyIsFree(cfg);
      NothingIsCalm(d);
    } else {
      StaysCalm(d, cfg, states, actions, i - 1);
      FreeStepKeeps(cfg, states[i - 1], actions[i - 1]);
      StepStaysCalm(d, cfg, states[i - 1], actions[i - 1]);
    }
  }

  lemma NothingIsCalm(d: Discipline)
    ensures Calm(d, EMPTY)
  {
  }
}
