/**
 * Cancels of a captured payment. Cancels of one payment are serialized, the gateway is asked before
 * anything is recorded, and its reply may say anything an int64 can hold.
 */
module Refunds {
  import opened Common
  import Text

  const MAX64 := 0x7fff_ffff_ffff_ffff

  predicate Int64(x: int) {
    -MAX64 - 1 <= x <= MAX64
  }

  /** Two's complement wrap-around of an int64 result. */
  function Wrap64(x: int): (w: int)
    ensures Int64(w)
    ensures Int64(x) ==> w == x
  {
    (x + MAX64 + 1) % (2 * MAX64 + 2) - MAX64 - 1
  }

  datatype Status = RequiresPayment | Succeeded | Failed | Canceled | Expired

  datatype Method = CreditCard | Bypass | Bitcoin

  datatype CancelError = InvalidPayment | NotCancelable | AmountInvalid | GatewayError

  datatype Record = Record(payMethod: Method, amount: int, status: Status, canceled: int,
                           reason: string, canceledBy: string, cancelKey: string)

  datatype Request = Request(paymentId: string, amount: int, reason: string, canceledBy: string, key: string)

  datatype CancelResult = CancelResult(canceledAmount: int, remaining: int, remainingKnown: bool)

  datatype Reply = Rejected | Accepted(result: Option<CancelResult>)

  datatype CanceledEvent = CanceledEvent(amount: int, remaining: int, reason: string, canceledBy: string)

  ghost predicate ValidRequest(r: Request) {
    Int64(r.amount)
  }

  ghost predicate ValidReply(r: Reply) {
    r.Accepted? && r.result.Some? ==> Int64(r.result.value.canceledAmount) && Int64(r.result.value.remaining)
  }

  /** A captured payment: it is canceled exactly when nothing of it is left. */
  ghost predicate Captured(p: Record) {
    0 < p.amount <= MAX64 && 0 <= p.canceled <= p.amount
    && (p.status == Succeeded || p.status == Canceled)
    && (p.status == Canceled <==> p.canceled == p.amount)
  }

  // ------------------------------------------------------- the payment entity

  function Remaining(p: Record): int {
    if p.amount - p.canceled < 0 then 0 else p.amount - p.canceled
  }

  predicate Cancelable(p: Record) {
    p.status == Succeeded && Remaining(p) > 0
  }

  function ValidateCancel(p: Record, amount: int): Option<CancelError> {
    if !Cancelable(p) then Some(NotCancelable)
    else if amount <= 0 || amount > Remaining(p) then Some(AmountInvalid)
    else None
  }

  /** A blank value keeps what an earlier cancel recorded. */
  function Keep(previous: string, given: string): string {
    if Text.TrimSpace(given) != "" then Text.TrimSpace(given) else previous
  }

  function Canceling(p: Record, amount: int, reason: string, canceledBy: string): Record {
    var q := p.(canceled := p.canceled + amount, reason := Keep(p.reason, reason),
                canceledBy := Keep(p.canceledBy, canceledBy));
    if Remaining(q) == 0 then q.(status := Canceled) else q
  }

  class Payment {
    const payMethod: Method
    const amount: int
    var status: Status
    var canceled: int
    var reason: string
    var canceledBy: string
    var cancelKey: string

    constructor (p: Record)
      ensures Snapshot() == p
    {
      payMethod, amount, status, canceled := p.payMethod, p.amount, p.status, p.canceled;
      reason, canceledBy, cancelKey := p.reason, p.canceledBy, p.cancelKey;
    }

    function Snapshot(): Record
      reads this
    {
      Record(payMethod, amount, status, canceled, reason, canceledBy, cancelKey)
    }

    method ApplyCancel(amountCents: int, why: string, who: string) returns (err: Option<CancelError>)
      modifies this
      ensures err == ValidateCancel(old(Snapshot()), amountCents)
      ensures Snapshot() == if err == None then Canceling(old(Snapshot()), amountCents, why, who) else old(Snapshot())
    {
      err := ValidateCancel(Snapshot(), amountCents);
      if err.Some? {
        return;
      }
      canceled := canceled + amountCents;
      var r := Text.TrimSpace(why);
      if r != "" {
        reason := r;
      }
      var actor := Text.TrimSpace(who);
      if actor != "" {
        canceledBy := actor;
      }
      if Remaining(Snapshot()) == 0 {
        status := Canceled;
      }
    }
  }

  // ------------------------------------------------------------ reconciliation

  /** What to record once the gateway has accepted: its word over ours, within what is left. */
  function Reconciled(result: Option<CancelResult>, requested: int, before: int): int {
    match result
    case None => requested
    case Some(r) =>
      var said := if r.remainingKnown then Wrap64(before - r.remaining)
                  else if r.canceledAmount > 0 then r.canceledAmount else requested;
      var atLeast := if said < 1 then 1 else said;
      if atLeast > before then before else atLeast
  }

  method ReconcileCanceledAmount(result: Option<CancelResult>, requested: int, before: int) returns (amount: int)
    requires 1 <= requested <= before <= MAX64
    requires result.Some? ==> Int64(result.value.canceledAmount) && Int64(result.value.remaining)
    ensures amount == Reconciled(result, requested, before)
    ensures 1 <= amount <= before
  {
    amount := requested;
    if result == None {
      return;
    }
    if result.value.canceledAmount > 0 {
      amount := result.value.canceledAmount;
    }
    if result.value.remainingKnown {
      amount := Wrap64(before - result.value.remaining);
    }
    if amount < 1 {
      amount := 1;
    }
    if amount > before {
      amount := before;
    }
  }

  /**
   * Whatever the gateway replies, the recorded amount can be applied. A balance it reports below ours
   * becomes exactly our new balance; any other report is cut to the nearest amount we can record, and
   * a reported balance can only be taken for its opposite by wrapping when it is hugely negative.
   */
  lemma GatewayWins(r: CancelResult, requested: int, before: int)
    requires 1 <= requested <= before <= MAX64 && Int64(r.canceledAmount) && Int64(r.remaining)
    ensures 1 <= Reconciled(Some(r), requested, before) <= before
    ensures r.remainingKnown && 0 <= r.remaining < before ==>
      before - Reconciled(Some(r), requested, before) == r.remaining
    ensures r.remainingKnown && r.remaining >= before ==> Reconciled(Some(r), requested, before) == 1
    ensures r.remainingKnown && r.remaining < 0 ==>
              Reconciled(Some(r), requested, before) == (if before - r.remaining <= MAX64 then before else 1)
    ensures !r.remainingKnown && 1 <= r.canceledAmount <= before ==>
      Reconciled(Some(r), requested, before) == r.canceledAmount
  {
  }

  // ------------------------------------------------------------ CancelPayment

  /**
   * What one cancel leaves behind: the stored payment, the event it enqueues, its error, and the amount the
   * gateway was asked to return, if it was called.
   */
  datatype Outcome = Outcome(payment: Record, event: Option<CanceledEvent>, error: Option<CancelError>,
                             asked: Option<int>)

  function Cancel(p: Record, req: Request, reply: Reply): Outcome {
    var key := Text.TrimSpace(req.key);
    if Text.TrimSpace(req.paymentId) == "" then Outcome(p, None, Some(InvalidPayment), None)
    else if key != "" && p.cancelKey == key then Outcome(p, None, None, None)
    else
      var requested := if req.amount == 0 then Remaining(p) else req.amount;
      var refusal := ValidateCancel(p, requested);
      if refusal.Some? then Outcome(p, None, refusal, None)
      else if p.payMethod != Bypass && reply == Rejected then Outcome(p, None, Some(GatewayError), Some(requested))
      else
        var amount := if p.payMethod == Bypass then requested else Reconciled(reply.result, requested, Remaining(p));
        var q := Canceling(p, amount, req.reason, req.canceledBy);
        var q' := if key != "" then q.(cancelKey := key) else q;
        var asked := if p.payMethod == Bypass then None else Some(requested);
        Outcome(q', Some(CanceledEvent(amount, Remaining(q'), q'.reason, q'.canceledBy)), None, asked)
  }

  /** The store: one payment under its lock, and the events enqueued with it. */
  class Ledger {
    var stored: Record
    var outbox: seq<CanceledEvent>

    constructor (p: Record)
      ensures stored == p && outbox == []
    {
      stored, outbox := p, [];
    }

    /** Runs under the payment's lock; nothing is stored unless every step succeeds. */
    method CancelPayment(req: Request, reply: Reply) returns (err: Option<CancelError>, asked: Option<int>)
      requires Captured(stored) && ValidRequest(req) && ValidReply(reply)
      modifies this
      ensures Captured(stored)
      ensures var out := Cancel(old(stored), req, reply);
              stored == out.payment && err == out.error && asked == out.asked
              && outbox == old(outbox) + (if out.event.Some? then [out.event.value] else [])
    {
      hide Reconciled, Text.TrimSpace;
      asked := None;
      AcceptedIsRecorded(stored, req, reply);
      if Text.TrimSpace(req.paymentId) == "" {
        return Some(InvalidPayment), asked;
      }
      var key := Text.TrimSpace(req.key);
      var payment := new Payment(stored);
      if key != "" && payment.cancelKey == key {
        return None, asked;
      }
      var requested := req.amount;
      if requested == 0 {
        requested := Remaining(payment.Snapshot());
      }
      err := ValidateCancel(payment.Snapshot(), requested);
      if err.Some? {
        return;
      }
      var remainingBefore := Remaining(payment.Snapshot());
      var amount := requested;
      if payment.payMethod != Bypass {
        asked := Some(requested);
        if reply == Rejected {
          return Some(GatewayError), asked;
        }
        amount := ReconcileCanceledAmount(reply.result, requested, remainingBefore);
      }
      err := payment.ApplyCancel(amount, req.reason, req.canceledBy);
      if err.Some? {
        return;
      }
      if key != "" {
        payment.cancelKey := key;
      }
      stored := payment.Snapshot();
      outbox := outbox + [CanceledEvent(amount, Remaining(stored), stored.reason, stored.canceledBy)];
    }
  }

  // -------------------------------------------------------- runs of cancels

  datatype Attempt = Attempt(req: Request, reply: Reply)

  ghost predicate ValidAttempts(run: seq<Attempt>) {
    forall i :: 0 <= i < |run| ==> ValidRequest(run[i].req) && ValidReply(run[i].reply)
  }

  function Last(run: seq<Attempt>): Attempt
    requires run != []
  {
    run[|run| - 1]
  }

  /** The stored payment after a run of serialized attempts. */
  function After(p: Record, run: seq<Attempt>): Record {
    if run == [] then p
    else Cancel(After(p, run[..|run| - 1]), Last(run).req, Last(run).reply).payment
  }

  /** The payment.canceled events the run enqueued, in order. */
  function Events(p: Record, run: seq<Attempt>): seq<CanceledEvent> {
    if run == [] then []
    else
      var init := run[..|run| - 1];
      var e := Cancel(After(p, init), Last(run).req, Last(run).reply).event;
      Events(p, init) + (if e.Some? then [e.value] else [])
  }

  function Sum(events: seq<CanceledEvent>): int {
    if events == [] then 0 else Sum(events[..|events| - 1]) + events[|events| - 1].amount
  }

  /** Once the gateway has accepted, the cancel is recorded and announced: it can no longer fail. */
  lemma AcceptedIsRecorded(p: Record, req: Request, reply: Reply)
    requires Captured(p) && ValidRequest(req) && ValidReply(reply)
    ensures var out := Cancel(p, req, reply);
            Captured(out.payment) && out.payment.amount == p.amount
            && (out.asked.Some? && reply.Accepted? ==> out.event.Some? && out.error == None)
            && (out.event.Some? ==> 1 <= out.event.value.amount <= Remaining(p)
                                    && out.payment.canceled == p.canceled + out.event.value.amount
                                    && out.event.value.remaining == p.amount - out.payment.canceled)
            && (out.event == None ==> out.payment == p)
  {
    hide Text.TrimSpace, Keep;
    var requested := if req.amount == 0 then Remaining(p) else req.amount;
    if reply.Accepted? && reply.result.Some? && ValidateCancel(p, requested) == None {
      GatewayWins(reply.result.value, requested, Remaining(p));
    }
  }

  /** A reply that names no amount and no balance of its own. */
  predicate Silent(reply: Reply) {
    reply.Accepted? && (reply.result == None
                        || (!reply.result.value.remainingKnown && reply.result.value.canceledAmount <= 0))
  }

  /**
   * A cancel refunds what it was asked for, and all that is left when it names no amount, unless the gateway
   * refuses or says otherwise; it asks the gateway for that amount exactly when there is one. An amount that
   * is not left to refund is refused before anybody is asked.
   */
  lemma AskedIsRefunded(p: Record, req: Request, reply: Reply)
    requires Captured(p) && Text.TrimSpace(req.paymentId) != ""
    requires Text.TrimSpace(req.key) == "" || Text.TrimSpace(req.key) != p.cancelKey
    ensures var out, left := Cancel(p, req, reply), p.amount - p.canceled;
      var a := if req.amount == 0 then left else req.amount;
      var due := p.status == Succeeded && 1 <= a <= left;
      && out.asked == (if due && p.payMethod != Bypass then Some(a) else None)
      && (!due ==> out.payment == p && out.event == None
                   && out.error == Some(if p.status == Succeeded then AmountInvalid else NotCancelable))
      && (due && p.payMethod != Bypass && reply == Rejected ==>
            out.payment == p && out.event == None && out.error == Some(GatewayError))
      && (due && (p.payMethod == Bypass || Silent(reply)) ==>
            && out.error == None && out.event.Some?
            && out.event.value.amount == a && out.event.value.remaining == left - a
            && out.payment.canceled == p.canceled + a
            && (out.payment.status == Canceled <==> a == left) && (out.payment.status == Succeeded <==> a < left))
  {
    hide Text.TrimSpace, Keep;
  }

  /** A gateway that accepts and names a balance below ours, or failing that an amount, is believed to the unit. */
  lemma GatewayIsBelieved(p: Record, req: Request, r: CancelResult)
    requires Captured(p) && p.payMethod != Bypass && Int64(r.canceledAmount) && Int64(r.remaining)
    ensures var out, left := Cancel(p, req, Accepted(Some(r))), p.amount - p.canceled;
      out.event.Some? ==>
        && (r.remainingKnown && 0 <= r.remaining < left ==> out.payment.canceled == p.amount - r.remaining)
        && (!r.remainingKnown && 1 <= r.canceledAmount <= left ==> out.event.value.amount == r.canceledAmount)
  {
    hide Text.TrimSpace, Keep;
    var requested := if req.amount == 0 then Remaining(p) else req.amount;
    if ValidateCancel(p, requested) == None {
      GatewayWins(r, requested, Remaining(p));
    }
  }

  /** An accepted cancel stores who canceled and why and its key, each only when the request names it. */
  lemma AcceptedIsSigned(p: Record, req: Request, reply: Reply)
    requires Captured(p) && Cancel(p, req, reply).event.Some?
    ensures var out := Cancel(p, req, reply);
      var why, who, key := Text.TrimSpace(req.reason), Text.TrimSpace(req.canceledBy), Text.TrimSpace(req.key);
      && out.payment.reason == out.event.value.reason == (if why == "" then p.reason else why)
      && out.payment.canceledBy == out.event.value.canceledBy == (if who == "" then p.canceledBy else who)
      && out.payment.cancelKey == (if key == "" then p.cancelKey else key)
      && out.payment.payMethod == p.payMethod && out.payment.amount == p.amount
  {
    hide Text.TrimSpace, Reconciled;
  }

  /** Every event refunds something and announces the balance its prefix leaves. */
  ghost predicate Running(es: seq<CanceledEvent>, balance: int) {
    forall k :: 0 <= k < |es| ==> es[k].amount >= 1 && es[k].remaining == balance - Sum(es[..k + 1])
  }

  lemma RunningAppend(es: seq<CanceledEvent>, e: CanceledEvent, balance: int)
    requires Running(es, balance) && e.amount >= 1 && e.remaining == balance - Sum(es) - e.amount
    ensures Running(es + [e], balance) && Sum(es + [e]) == Sum(es) + e.amount
  {
    var all := es + [e];
    assert all[..|es|] == es && all[..|all|] == all;
    forall k | 0 <= k < |all|
      ensures all[k].amount >= 1 && all[k].remaining == balance - Sum(all[..k + 1])
    {
      if k < |es| {
        assert all[..k + 1] == es[..k + 1];
      }
    }
  }

  /**
   * Money is conserved: the announced refunds add up to what the payment records as canceled and never
   * exceed what was captured; each announces the balance then left; a balance of zero is announced at
   * most once, last, and exactly when the payment has become canceled.
   */
  lemma {:induction false} RefundsAddUp(p: Record, run: seq<Attempt>)
    requires Captured(p) && ValidAttempts(run)
    ensures var q := After(p, run); var es := Events(p, run);
            && Captured(q) && q.amount == p.amount
            && p.canceled + Sum(es) == q.canceled <= p.amount
            && Running(es, p.amount - p.canceled)
            && (forall k :: 0 <= k < |es| && es[k].remaining == 0 ==> k == |es| - 1)
            && (q.status == Canceled <==> p.status == Canceled || (es != [] && es[|es| - 1].remaining == 0))
            && (p.status == Canceled ==> es == [])
  {
    hide Cancel;
    var es := Events(p, run);
    if run != [] {
      var init := run[..|run| - 1];
      RefundsAddUp(p, init);
      var before, es0 := After(p, init), Events(p, init);
      AcceptedIsRecorded(before, Last(run).req, Last(run).reply);
      var e := Cancel(before, Last(run).req, Last(run).reply).event;
      if e.Some? {
        RunningAppend(es0, e.value, p.amount - p.canceled);
      } else {
        assert es == es0;
      }
    }
  }

  /** The key of the last recorded cancel that carried one. */
  function LatestKey(p: Record, run: seq<Attempt>): string {
    if run == [] then p.cancelKey
    else
      var init := run[..|run| - 1];
      var key := Text.TrimSpace(Last(run).req.key);
      if key != "" && Cancel(After(p, init), Last(run).req, Last(run).reply).event.Some? then key
      else LatestKey(p, init)
  }

  /** Retrying the latest keyed cancel is silent: no gateway call, no change, no event, even after unkeyed cancels. */
  lemma {:induction false} RetryIsSilent(p: Record, run: seq<Attempt>, retry: Attempt)
    requires Captured(p) && ValidAttempts(run)
    requires Text.TrimSpace(retry.req.key) == LatestKey(p, run) != "" && Text.TrimSpace(retry.req.paymentId) != ""
    ensures Cancel(After(p, run), retry.req, retry.reply) == Outcome(After(p, run), None, None, None)
  {
    KeyIsLatest(p, run);
  }

  lemma {:induction false} KeyIsLatest(p: Record, run: seq<Attempt>)
    requires Captured(p) && ValidAttempts(run)
    ensures After(p, run).cancelKey == LatestKey(p, run) && Captured(After(p, run))
  {
    hide Reconciled, Text.TrimSpace;
    if run != [] {
      var init := run[..|run| - 1];
      KeyIsLatest(p, init);
      AcceptedIsRecorded(After(p, init), Last(run).req, Last(run).reply);
    }
  }
}
