/**
 * Concurrent CompleteCheckout calls on one session, with readers and the expiry worker beside them. Every
 * repository or stock call is one step, any of them may fail, and nobody pays or edits the basket meanwhile.
 * An order is identified by the reservation made for it.
 */
module CheckoutClaim {
  import opened Common

  type Order = nat

  datatype Session = Open | Completed(order: Order) | Expired

  /** A canceled order remembers which handler canceled it last. */
  datatype Stored = Pending | Canceled(handler: nat)

  datatype Reservation = Reservation(active: bool, owner: nat)

  /** What a handler will do next. */
  datatype Pc =
    | Reading(completing: bool)   // CompleteCheckout, or GetCheckoutSession
    | WritingBack(seen: Session)  // saves the copy it read, because the session was not open
    | Reserving
    | Saving(order: Order)
    | Claiming(order: Order)
    | CancelReading(order: Order)
    | CancelSaving(order: Order)
    | Releasing(order: Order)
    | Sweeping(order: Order)      // the expiry worker, at one listed order
    | Won(order: Order)           // the caller was given this order
    | CancelFailed(order: Order)  // the compensating cancel failed, and its error was dropped
    | ReleaseFailed(order: Order) // giving the stock back failed, and the error was dropped
    | Done

  datatype State = State(
    session: Session, orders: map<Order, Stored>, reservations: seq<Reservation>,
    pcs: seq<Pc>, claimed: seq<Order>)  // claimed is history: the successful claims, in order

  /** The outside world's choice at each step: whether the call fails, and whether the clock is past expiry. */
  datatype Action = Arrive(pc: Pc) | Step(h: nat, fails: bool, late: bool)

  const START := State(Open, map[], [], [], [])

  predicate MayArrive(s: State, pc: Pc) {
    pc.Reading? || (pc.Sweeping? && pc.order in s.orders)
  }

  // The order a handler is at exists.
  predicate InRange(s: State, pc: Pc) {
    match pc
    case Saving(o) => o < |s.reservations|
    case Claiming(o) => o in s.orders
    case CancelReading(o) => o in s.orders
    case CancelSaving(o) => o in s.orders
    case Releasing(o) => o < |s.reservations|
    case Sweeping(o) => o in s.orders
    case _ => true
  }

  predicate Finished(pc: Pc) {
    pc.Done? || pc.Won? || pc.CancelFailed? || pc.ReleaseFailed?
  }

  predicate Enabled(s: State, a: Action) {
    match a
    case Arrive(pc) => MayArrive(s, pc)
    case Step(h, _, _) => h < |s.pcs| && !Finished(s.pcs[h]) && InRange(s, s.pcs[h])
  }

  /** EnsureOpen on the copy just read. */
  function Judged(seen: Session, late: bool): Session {
    if seen == Open && late then Expired else seen
  }

  function Release(s: State, r: Order): State
    requires r < |s.reservations|
  {
    s.(reservations := s.reservations[r := s.reservations[r].(active := false)])
  }

  function Goto(s: State, h: nat, pc: Pc): State
    requires h < |s.pcs|
  {
    s.(pcs := s.pcs[h := pc])
  }

  /** One call of handler h. */
  function Next(s: State, h: nat, fails: bool, late: bool): State
    requires h < |s.pcs| && InRange(s, s.pcs[h])
  {
    match s.pcs[h]
    case Reading(completing) =>
      var seen := Judged(s.session, late);
      if fails then Goto(s, h, Done)
      else if seen == Open then Goto(s, h, if completing then Reserving else Done)
      else if seen.Completed? && !completing then Goto(s, h, Done)
      else Goto(s, h, WritingBack(seen))
    case WritingBack(seen) =>
      if fails then Goto(s, h, Done) else Goto(s.(session := seen), h, Done)
    case Reserving =>
      if fails then Goto(s, h, Done)
      else Goto(s.(reservations := s.reservations + [Reservation(true, h)]), h, Saving(|s.reservations|))
    case Saving(o) =>
      if fails then Goto(s, h, Releasing(o)) else Goto(s.(orders := s.orders[o := Pending]), h, Claiming(o))
    case Claiming(o) =>
      if fails || s.session != Open then Goto(s, h, CancelReading(o))
      else if late then Goto(s.(session := Expired), h, CancelReading(o))
      else Goto(s.(session := Completed(o), claimed := s.claimed + [o]), h, Won(o))
    case CancelReading(o) =>
      if fails then Goto(s, h, CancelFailed(o))
      else if s.orders[o] == Pending then Goto(s, h, CancelSaving(o))
      else Goto(s, h, Done)
    case CancelSaving(o) =>
      if fails then Goto(s, h, CancelFailed(o)) else Goto(s.(orders := s.orders[o := Canceled(h)]), h, Releasing(o))
    case Sweeping(o) =>
      if fails || s.orders[o] != Pending || !late then Goto(s, h, Done)
      else Goto(s.(orders := s.orders[o := Canceled(h)]), h, Releasing(o))
    case Releasing(o) =>
      if fails then Goto(s, h, ReleaseFailed(o)) else Goto(Release(s, o), h, Done)
    case _ => s
  }

  function After(s: State, a: Action): State
    requires Enabled(s, a)
  {
    match a
    case Arrive(pc) => s.(pcs := s.pcs + [pc])
    case Step(h, fails, late) => Next(s, h, fails, late)
  }

  // --------------------------------------------------------------- invariant

  /** The session and the claims made on it. */
  ghost predicate SessionOk(s: State) {
    && |s.claimed| <= 1
    && (s.session == Open ==> s.claimed == [])
    && (s.session.Completed? ==> s.claimed == [s.session.order])
    && forall o :: o in s.claimed ==> o in s.orders
  }

  predicate Owned(s: State, h: nat, o: Order) {
    o < |s.reservations| && s.reservations[o].owner == h
  }

  ghost predicate PcOk(s: State, h: nat, pc: Pc) {
    match pc
    case WritingBack(seen) => seen != Open && (seen.Completed? ==> s.claimed == [seen.order])
    case Saving(o) => Owned(s, h, o) && o !in s.orders && s.reservations[o].active
    case Claiming(o) => Owned(s, h, o) && o in s.orders && o !in s.claimed
    case CancelReading(o) => Owned(s, h, o) && o in s.orders && o !in s.claimed
    case CancelSaving(o) => Owned(s, h, o) && o in s.orders && o !in s.claimed
    case Releasing(o) => o < |s.reservations| && (o in s.orders ==> s.orders[o] != Pending)
                         && (o !in s.orders ==> Owned(s, h, o))
    case Sweeping(o) => o in s.orders
    case Won(o) => s.claimed == [o] && Owned(s, h, o)
    case _ => true
  }

  /** A pending order has its stock, and somebody answers for it. */
  ghost predicate OrderOk(s: State, o: Order)
    requires o in s.orders
  {
    o < |s.reservations|
    && match s.orders[o]
       case Pending =>
         s.reservations[o].active
         && var h := s.reservations[o].owner;
            h < |s.pcs| && s.pcs[h] in {Claiming(o), CancelReading(o), CancelSaving(o), CancelFailed(o), Won(o)}
       case Canceled(h) =>
         s.reservations[o].active ==> h < |s.pcs| && s.pcs[h] in {Releasing(o), ReleaseFailed(o)}
  }

  /** A reservation without an order is being saved or released by its owner. */
  ghost predicate ReservationOk(s: State, r: Order)
    requires r < |s.reservations|
  {
    var h := s.reservations[r].owner;
    r !in s.orders && s.reservations[r].active ==>
      h < |s.pcs| && s.pcs[h] in {Saving(r), Releasing(r), ReleaseFailed(r)}
  }

  ghost predicate Inv(s: State) {
    && SessionOk(s)
    && (forall h :: 0 <= h < |s.pcs| ==> PcOk(s, h, s.pcs[h]))
    && (forall o :: o in s.orders ==> OrderOk(s, o))
    && (forall r :: 0 <= r < |s.reservations| ==> ReservationOk(s, r))
  }

  /** No handler is ever stuck: until it finishes, its next call is possible. */
  lemma NobodyIsStuck(s: State, h: nat, fails: bool, late: bool)
    requires Inv(s) && h < |s.pcs| && !Finished(s.pcs[h])
    ensures Enabled(s, Step(h, fails, late))
  {
    assert PcOk(s, h, s.pcs[h]);
  }

  /** The most calls a handler can still make. */
  function CallsLeft(pc: Pc): nat {
    match pc
    case Reading(_) => 8
    case Reserving => 7
    case Saving(_) => 6
    case Claiming(_) => 5
    case CancelReading(_) => 4
    case CancelSaving(_) => 3
    case Sweeping(_) => 3
    case Releasing(_) => 2
    case WritingBack(_) => 1
    case _ => 0
  }

  /** Every call brings its handler closer to the end, so each finishes within eight. */
  lemma HandlersFinish(s: State, h: nat, fails: bool, late: bool)
    requires Enabled(s, Step(h, fails, late))
    ensures |Next(s, h, fails, late).pcs| == |s.pcs|
    ensures CallsLeft(Next(s, h, fails, late).pcs[h]) < CallsLeft(s.pcs[h]) <= 8
  {
    NextKeepsHandlers(s, h, fails, late);
  }

  // ------------------------------------------------------------ preservation

  lemma SessionStays(s: State, h: nat, fails: bool, late: bool)
    requires Inv(s) && h < |s.pcs| && InRange(s, s.pcs[h])
    ensures SessionOk(Next(s, h, fails, late))
  {
    assert PcOk(s, h, s.pcs[h]);
  }

  lemma OwnPcStays(s: State, h: nat, fails: bool, late: bool)
    requires Inv(s) && h < |s.pcs| && InRange(s, s.pcs[h])
    ensures var t := Next(s, h, fails, late); PcOk(t, h, t.pcs[h])
  {
    assert PcOk(s, h, s.pcs[h]);
    hide OrderOk, ReservationOk;
  }

  // What another handler's step may do to the facts a handler relies on.
  ghost predicate Framed(s: State, t: State, h: nat) {
    && |s.reservations| <= |t.reservations|
    && (forall r :: 0 <= r < |s.reservations| ==> t.reservations[r].owner == s.reservations[r].owner)
    && (forall r :: 0 <= r < |s.reservations| && s.reservations[r].owner != h && r !in s.orders ==>
          t.reservations[r] == s.reservations[r] && r !in t.orders)
    && (forall o :: o in s.orders ==> o in t.orders && (s.orders[o] != Pending ==> t.orders[o] != Pending))
  }

  // And to the claims.
  ghost predicate ClaimFramed(s: State, t: State, h: nat) {
    t.claimed == s.claimed || (s.claimed == [] && |t.claimed| == 1 && Owned(s, h, t.claimed[0]))
  }

  lemma StepIsFramed(s: State, h: nat, fails: bool, late: bool)
    requires Inv(s) && h < |s.pcs| && InRange(s, s.pcs[h])
    ensures Framed(s, Next(s, h, fails, late), h)
  {
    assert PcOk(s, h, s.pcs[h]);
    hide OrderOk, ReservationOk, SessionOk, Inv;
  }

  lemma ClaimIsFramed(s: State, h: nat, fails: bool, late: bool)
    requires Inv(s) && h < |s.pcs| && InRange(s, s.pcs[h])
    ensures ClaimFramed(s, Next(s, h, fails, late), h)
  {
    assert PcOk(s, h, s.pcs[h]);
    hide OrderOk, ReservationOk;
  }

  lemma FramedPcStays(s: State, t: State, h: nat, g: nat, pc: Pc)
    requires Framed(s, t, h) && ClaimFramed(s, t, h) && g != h && PcOk(s, g, pc)
    ensures PcOk(t, g, pc)
  {
  }

  lemma PcStays(s: State, h: nat, fails: bool, late: bool, g: nat)
    requires Inv(s) && h < |s.pcs| && InRange(s, s.pcs[h]) && g < |s.pcs|
    ensures var t := Next(s, h, fails, late); |t.pcs| == |s.pcs| && PcOk(t, g, t.pcs[g])
  {
    NextKeepsHandlers(s, h, fails, late);
    if g == h {
      OwnPcStays(s, h, fails, late);
    } else {
      assert PcOk(s, g, s.pcs[g]);
      StepIsFramed(s, h, fails, late);
      ClaimIsFramed(s, h, fails, late);
      hide PcOk, Framed, ClaimFramed, Next;
      FramedPcStays(s, Next(s, h, fails, late), h, g, s.pcs[g]);
    }
  }

  lemma OrderStays(s: State, h: nat, fails: bool, late: bool, o: Order)
    requires Inv(s) && h < |s.pcs| && InRange(s, s.pcs[h]) && o in Next(s, h, fails, late).orders
    ensures OrderOk(Next(s, h, fails, late), o)
  {
    assert PcOk(s, h, s.pcs[h]);
    assert o in s.orders ==> OrderOk(s, o);
    assert o < |s.reservations| ==> ReservationOk(s, o);
  }

  lemma ReservationStays(s: State, h: nat, fails: bool, late: bool, r: Order)
    requires Inv(s) && h < |s.pcs| && InRange(s, s.pcs[h]) && r < |Next(s, h, fails, late).reservations|
    ensures ReservationOk(Next(s, h, fails, late), r)
  {
    assert PcOk(s, h, s.pcs[h]);
    assert r < |s.reservations| ==> ReservationOk(s, r);
    assert r in s.orders ==> OrderOk(s, r);
  }

  lemma StepKeeps(s: State, a: Action)
    requires Inv(s) && Enabled(s, a)
    ensures Inv(After(s, a))
  {
    match a
    case Arrive(pc) => ArrivalKeeps(s, pc);
    case Step(h, fails, late) =>
      hide SessionOk, PcOk, OrderOk, ReservationOk, InRange, Next;
      var t := Next(s, h, fails, late);
      SessionStays(s, h, fails, late);
      NextKeepsHandlers(s, h, fails, late);
      forall g | 0 <= g < |t.pcs| ensures PcOk(t, g, t.pcs[g]) {
        PcStays(s, h, fails, late, g);
      }
      forall o | o in t.orders ensures OrderOk(t, o) {
        OrderStays(s, h, fails, late, o);
      }
      forall r | 0 <= r < |t.reservations| ensures ReservationOk(t, r) {
        ReservationStays(s, h, fails, late, r);
      }
  }

  lemma NextKeepsHandlers(s: State, h: nat, fails: bool, late: bool)
    requires h < |s.pcs| && InRange(s, s.pcs[h])
    ensures var t := Next(s, h, fails, late);
      |t.pcs| == |s.pcs| && forall g :: 0 <= g < |s.pcs| && g != h ==> t.pcs[g] == s.pcs[g]
  {
  }

  lemma ArrivalKeeps(s: State, pc: Pc)
    requires Inv(s) && MayArrive(s, pc)
    ensures Inv(s.(pcs := s.pcs + [pc]))
  {
    var t := s.(pcs := s.pcs + [pc]);
    forall g | 0 <= g < |t.pcs| ensures PcOk(t, g, t.pcs[g]) {
      if g < |s.pcs| {
        assert PcOk(s, g, s.pcs[g]);
      }
    }
    forall o | o in t.orders ensures OrderOk(t, o) {
      assert OrderOk(s, o);
    }
    forall r | 0 <= r < |t.reservations| ensures ReservationOk(t, r) {
      assert ReservationOk(s, r);
    }
  }

  // --------------------------------------------------------------------- runs

  ghost predicate Possible(s: State, actions: seq<Action>)
    decreases |actions|
  {
    actions == [] || (Enabled(s, actions[0]) && Possible(After(s, actions[0]), actions[1..]))
  }

  function Run(s: State, actions: seq<Action>): State
    requires Possible(s, actions)
    decreases |actions|
  {
    if actions == [] then s else Run(After(s, actions[0]), actions[1..])
  }

  lemma {:induction false} RunKeeps(s: State, actions: seq<Action>)
    requires Inv(s) && Possible(s, actions)
    ensures Inv(Run(s, actions))
    decreases |actions|
  {
    hide Inv, After, Enabled;
    if actions != [] {
      StepKeeps(s, actions[0]);
      RunKeeps(After(s, actions[0]), actions[1..]);
    }
  }

  ghost predicate Quiet(s: State) {
    forall h :: 0 <= h < |s.pcs| ==> Finished(s.pcs[h])
  }

  /**
   * Once every handler has finished, a pending order was either claimed, or its compensating cancel failed and
   * the error was dropped. Stock still on hold is a pending order's, or a failed release was dropped. So
   * without such failures at most one order is left, and all other stock is back. The session names the
   * claimed order, or has been overwritten as expired.
   */
  lemma OneOrderSurvives(actions: seq<Action>, o: Order)
    requires Possible(START, actions) && Quiet(Run(START, actions))
    ensures var s := Run(START, actions);
      && (o in s.orders && s.orders[o] == Pending ==> s.claimed == [o] || CancelFailed(o) in s.pcs)
      && (o < |s.reservations| && s.reservations[o].active ==>
            (o in s.orders && s.orders[o] == Pending) || ReleaseFailed(o) in s.pcs)
      && (s.claimed == [o] ==> s.session == Completed(o) || s.session == Expired)
  {
    RunKeeps(START, actions);
    var s := Run(START, actions);
    hide Run, Possible;
    if o in s.orders {
      assert OrderOk(s, o);
    }
    if o < |s.reservations| {
      assert ReservationOk(s, o);
      var h := s.reservations[o].owner;
      if h < |s.pcs| {
        assert PcOk(s, h, s.pcs[h]);
      }
    }
  }

  /** At most one caller is ever given an order, and it is the claimed one. */
  lemma OneCallerWins(actions: seq<Action>, g: nat, h: nat)
    requires Possible(START, actions) && g < |Run(START, actions).pcs| && h < |Run(START, actions).pcs|
    requires Run(START, actions).pcs[g].Won? && Run(START, actions).pcs[h].Won?
    ensures g == h && Run(START, actions).claimed == [Run(START, actions).pcs[g].order]
  {
    RunKeeps(START, actions);
    var s := Run(START, actions);
    hide Run, Possible;
    assert PcOk(s, g, s.pcs[g]) && PcOk(s, h, s.pcs[h]);
  }

  /** A copy of the session judged expired is about to be written back. */
  ghost predicate StaleExpiry(s: State) {
    WritingBack(Expired) in s.pcs
  }

  lemma {:induction false} NamedWhileNoStaleExpiry(s: State, actions: seq<Action>)
    requires Inv(s) && Possible(s, actions) && s.session.Completed? && !StaleExpiry(s)
    ensures Run(s, actions).session == s.session
    decreases |actions|
  {
    hide OrderOk, ReservationOk;
    if actions != [] {
      StepKeeps(s, actions[0]);
      var t := After(s, actions[0]);
      NamedStep(s, actions[0]);
      NamedWhileNoStaleExpiry(t, actions[1..]);
    }
  }

  lemma NamedStep(s: State, a: Action)
    requires Inv(s) && Enabled(s, a) && s.session.Completed? && !StaleExpiry(s)
    ensures After(s, a).session == s.session && !StaleExpiry(After(s, a))
  {
    hide OrderOk, ReservationOk;
    if a.Step? {
      assert PcOk(s, a.h, s.pcs[a.h]);
      assert s.pcs[a.h] in s.pcs;
    }
  }

  lemma Prepend(s: State, a: Action, t: State, rest: seq<Action>)
    requires Enabled(s, a) && After(s, a) == t && Possible(t, rest)
    ensures Possible(s, [a] + rest) && Run(s, [a] + rest) == Run(t, rest)
  {
    assert ([a] + rest)[1..] == rest;
  }

  /**
   * The session goes on naming the order it was completed with, whatever happens next, exactly when nobody
   * is about to write back a copy read before the claim and judged expired: that save is not guarded.
   */
  lemma NamedForeverIffNoStaleExpiry(start: seq<Action>)
    requires Possible(START, start) && Run(START, start).session.Completed?
    ensures var s := Run(START, start);
      !StaleExpiry(s) <==> forall actions :: Possible(s, actions) ==> Run(s, actions).session == s.session
  {
    RunKeeps(START, start);
    var s := Run(START, start);
    if StaleExpiry(s) {
      var h :| 0 <= h < |s.pcs| && s.pcs[h] == WritingBack(Expired);
      var a := Step(h, false, false);
      EmptyRun(After(s, a));
      Prepend(s, a, After(s, a), []);
      assert [a] + [] == [a];
      assert Run(s, [a]).session == Expired;
    } else {
      forall actions | Possible(s, actions) ensures Run(s, actions).session == s.session {
        NamedWhileNoStaleExpiry(s, actions);
      }
    }
  }

  // -------------------------------------------------------------------- time

  ghost predicate Forward(times: seq<int>) {
    forall i, j :: 0 <= i < j < |times| ==> times[i] <= times[j]
  }

  /**
   * Nobody finds the session expired before it is. The expiry worker asks about a payment's deadline, which is
   * another one, so its findings are not bound by the session's.
   */
  ghost predicate Timed(s: State, actions: seq<Action>, times: seq<int>, expiry: int)
    requires Possible(s, actions) && |times| == |actions|
    decreases |actions|
  {
    actions == [] ||
    (var a := actions[0];
     (a.Step? && a.late && !s.pcs[a.h].Sweeping? ==> times[0] > expiry)
     && Timed(After(s, a), actions[1..], times[1..], expiry))
  }

  lemma {:induction false} RunSplits(s: State, actions: seq<Action>, i: nat)
    requires Possible(s, actions) && i <= |actions|
    ensures Possible(s, actions[..i]) && Possible(Run(s, actions[..i]), actions[i..])
    ensures Run(Run(s, actions[..i]), actions[i..]) == Run(s, actions)
    decreases i
  {
    hide After, Enabled;
    if i == 0 {
      assert actions[..0] == [] && actions[0..] == actions;
    } else {
      RunSplits(After(s, actions[0]), actions[1..], i - 1);
      assert actions[..i][0] == actions[0] && actions[..i][1..] == actions[1..][..i - 1];
      assert actions[1..][i - 1..] == actions[i..];
    }
  }

  ghost predicate InTime(s: State) {
    s.session != Expired && !StaleExpiry(s)
  }

  lemma StepInTime(s: State, a: Action)
    requires InTime(s) && Enabled(s, a) && (a.Step? && a.late ==> s.pcs[a.h].Sweeping?)
    ensures InTime(After(s, a))
  {
    if a.Step? {
      assert s.pcs[a.h] in s.pcs;
    }
  }

  lemma {:induction false} RunInTime(s: State, actions: seq<Action>, times: seq<int>, expiry: int, n: nat)
    requires InTime(s) && Possible(s, actions) && |times| == |actions| && Timed(s, actions, times, expiry)
    requires n <= |actions| && forall k :: 0 <= k < n ==> times[k] <= expiry
    ensures Possible(s, actions[..n]) && InTime(Run(s, actions[..n]))
    decreases n
  {
    RunSplits(s, actions, n);
    hide After, Enabled, InTime;
    if n > 0 {
      StepInTime(s, actions[0]);
      RunInTime(After(s, actions[0]), actions[1..], times[1..], expiry, n - 1);
      assert actions[..n][0] == actions[0] && actions[..n][1..] == actions[1..][..n - 1];
    } else {
      assert actions[..0] == [];
    }
  }

  /** A claim that lands no later than the session's expiry is named for ever, whatever the worker sweeps. */
  lemma ClaimInTimeIsNamedForever(actions: seq<Action>, times: seq<int>, expiry: int, i: nat)
    requires Possible(START, actions) && |times| == |actions| && Forward(times)
    requires Timed(START, actions, times, expiry) && i < |actions| && times[i] <= expiry
    requires Possible(START, actions[..i + 1]) && Run(START, actions[..i + 1]).session.Completed?
    ensures Run(START, actions).session == Run(START, actions[..i + 1]).session
  {
    RunSplits(START, actions, i + 1);
    RunInTime(START, actions, times, expiry, i + 1);
    RunKeeps(START, actions[..i + 1]);
    hide Run, Possible;
    NamedWhileNoStaleExpiry(Run(START, actions[..i + 1]), actions[i + 1..]);
  }

  lemma Hop(s: State, a: Action, at: int, t: State, rest: seq<Action>, times: seq<int>)
    requires Enabled(s, a) && After(s, a) == t && Possible(t, rest)
    requires |times| == |rest| && Timed(t, rest, times, 0) && (a.Step? && a.late ==> at > 0)
    ensures Possible(s, [a] + rest) && Run(s, [a] + rest) == Run(t, rest)
    ensures Timed(s, [a] + rest, [at] + times, 0)
  {
    Prepend(s, a, t, rest);
    assert ([a] + rest)[1..] == rest && ([at] + times)[1..] == times;
  }

  /** Handler 0 completes the session; handler 1 reads it, too late, before the claim and writes it back after. */
  function Overwriting(): seq<Action> {
    var buyer, reader := Step(0, false, false), Step(1, false, true);
    [Arrive(Reading(true)), Arrive(Reading(false)), buyer, buyer, buyer, reader, buyer, reader]
  }

  const OVERWRITTEN := State(Expired, map[0 := Pending], [Reservation(true, 0)], [Won(0), Done], [0])

  // From the order's save on.
  lemma OverwritingEnds()
    ensures var buyer, reader := Step(0, false, false), Step(1, false, true);
      var s := State(Open, map[], [Reservation(true, 0)], [Saving(0), Reading(false)], []);
      var rest := [buyer, reader, buyer, reader];
      Possible(s, rest) && Run(s, rest) == OVERWRITTEN && Timed(s, rest, [0, 1, 1, 1], 0)
  {
    var buyer, reader := Step(0, false, false), Step(1, false, true);
    var held, sold: map<Order, Stored> := [Reservation(true, 0)], map[0 := Pending];
    var s4 := State(Open, map[], held, [Saving(0), Reading(false)], []);
    var s5 := State(Open, sold, held, [Claiming(0), Reading(false)], []);
    var s6 := State(Open, sold, held, [Claiming(0), WritingBack(Expired)], []);
    var s7 := State(Completed(0), sold, held, [Won(0), WritingBack(Expired)], [0]);
    EmptyRun(OVERWRITTEN);
    hide Run, Possible, Timed;
    Hop(s7, reader, 1, OVERWRITTEN, [], []);
    Hop(s6, buyer, 1, s7, [reader] + [], [1] + []);
    Hop(s5, reader, 1, s6, [buyer] + ([reader] + []), [1] + ([1] + []));
    Hop(s4, buyer, 0, s5, [reader] + ([buyer] + ([reader] + [])), [1] + ([1] + ([1] + [])));
    assert [buyer] + ([reader] + ([buyer] + ([reader] + []))) == [buyer, reader, buyer, reader];
    assert [0] + ([1] + ([1] + ([1] + []))) == [0, 1, 1, 1];
  }

  lemma OverwritingRuns()
    ensures Possible(START, Overwriting()) && Run(START, Overwriting()) == OVERWRITTEN
    ensures Timed(START, Overwriting(), [0, 0, 0, 0, 0, 1, 1, 1], 0)
  {
    var buyer, reader := Step(0, false, false), Step(1, false, true);
    var first, second := Arrive(Reading(true)), Arrive(Reading(false));
    var s1 := State(Open, map[], [], [Reading(true)], []);
    var s2 := State(Open, map[], [], [Reading(true), Reading(false)], []);
    var s3 := State(Open, map[], [], [Reserving, Reading(false)], []);
    var s4 := State(Open, map[], [Reservation(true, 0)], [Saving(0), Reading(false)], []);
    OverwritingEnds();
    hide Run, Possible, Timed;
    var rest, times := [buyer, reader, buyer, reader], [0, 1, 1, 1];
    Hop(s3, buyer, 0, s4, rest, times);
    Hop(s2, buyer, 0, s3, [buyer] + rest, [0] + times);
    Hop(s1, second, 0, s2, [buyer] + ([buyer] + rest), [0] + ([0] + times));
    Hop(START, first, 0, s1, [second] + ([buyer] + ([buyer] + rest)), [0] + ([0] + ([0] + times)));
    assert [first] + ([second] + ([buyer] + ([buyer] + rest))) == Overwriting();
    assert [0] + ([0] + ([0] + ([0] + times))) == [0, 0, 0, 0, 0, 1, 1, 1];
  }

  /** The overwrite can happen, to a claim after expiry: a reader that found the session late saves it afterwards. */
  lemma StaleExpiryExample()
    ensures Possible(START, Overwriting()) && Timed(START, Overwriting(), [0, 0, 0, 0, 0, 1, 1, 1], 0)
    ensures var s := Run(START, Overwriting());
      Quiet(s) && s.session == Expired && s.claimed == [0] && s.orders == map[0 := Pending]
  {
    OverwritingRuns();
    hide Run, Possible, Timed;
  }

  lemma EmptyRun(s: State)
    ensures Possible(s, []) && Run(s, []) == s && Timed(s, [], [], 0)
  {
  }
}
