/** The transactional outbox: rows written with a state change, and the loop that publishes them. */
module Outbox {
  import opened Common

  type Error = string

  datatype Message = Message(subject: string, payload: seq<bv8>)

  /** A stored row; its id is its position. */
  datatype Row = Row(message: Message, published: bool, attempts: nat, lastError: string)

  /** What the broker did and said. An error does not mean that nothing arrived. */
  datatype PublishReply = Delivered | Refused(error: Error) | DeliveredWithError(error: Error)

  /** What the store did and said when asked to mark a row. */
  datatype MarkReply = Marked | NotMarked(error: Error) | MarkedWithError(error: Error)

  datatype Reply = Reply(publish: PublishReply, mark: MarkReply, recorded: bool)

  /** A message that reached the broker, with the row it was published for. */
  datatype Delivery = Delivery(id: nat, message: Message)

  datatype World = World(rows: seq<Row>, broker: seq<Delivery>)

  // ------------------------------------------------------------ specification

  /** The ids of the rows not yet published, oldest first. */
  function Pending(rows: seq<Row>): (ids: seq<nat>)
    ensures forall k :: 0 <= k < |ids| ==> ids[k] < |rows|
  {
    if rows == [] then []
    else Pending(rows[..|rows| - 1]) + if rows[|rows| - 1].published then [] else [|rows| - 1]
  }

  lemma {:induction false} PendingLists(rows: seq<Row>)
    ensures forall i :: 0 <= i < |rows| ==> (i in Pending(rows) <==> !rows[i].published)
    ensures forall j, k :: 0 <= j < k < |Pending(rows)| ==> Pending(rows)[j] < Pending(rows)[k]
  {
    if rows != [] {
      PendingLists(rows[..|rows| - 1]);
    }
  }

  function ListPending(rows: seq<Row>, limit: int): (ids: seq<nat>) {
    var n := if limit <= 0 then 50 else limit;
    if |Pending(rows)| <= n then Pending(rows) else Pending(rows)[..n]
  }

  function MarkRow(row: Row, reply: MarkReply): Row {
    if reply.NotMarked? then row else row.(published := true, lastError := "")
  }

  function RowAfter(row: Row, reply: Reply): Row {
    match reply.publish
    case Delivered => MarkRow(row, reply.mark)
    case _ => if reply.recorded then row.(attempts := row.attempts + 1, lastError := reply.publish.error) else row
  }

  function Arrived(id: nat, m: Message, reply: Reply): seq<Delivery> {
    if reply.publish.Refused? then [] else [Delivery(id, m)]
  }

  function Handle(w: World, id: nat, reply: Reply): World
    requires id < |w.rows|
  {
    World(w.rows[id := RowAfter(w.rows[id], reply)], w.broker + Arrived(id, w.rows[id].message, reply))
  }

  function HandleAll(w: World, ids: seq<nat>, replies: nat -> Reply, n: nat): (r: World)
    requires n <= |ids| && forall k :: 0 <= k < |ids| ==> ids[k] < |w.rows|
    ensures |r.rows| == |w.rows|
  {
    if n == 0 then w else Handle(HandleAll(w, ids, replies, n - 1), ids[n - 1], replies(n - 1))
  }

  function MarkError(reply: MarkReply): Option<Error> {
    if reply.Marked? then None else Some(reply.error)
  }

  function ErrorOf(reply: Reply): Option<Error> {
    if reply.publish.Delivered? then MarkError(reply.mark) else Some(reply.publish.error)
  }

  function FirstError(replies: nat -> Reply, n: nat): Option<Error> {
    if n == 0 then None
    else if FirstError(replies, n - 1).Some? then FirstError(replies, n - 1)
    else ErrorOf(replies(n - 1))
  }

  /** One drain with a broker, when the listing succeeds. */
  function Drained(w: World, replies: nat -> Reply): World {
    var ids := ListPending(w.rows, 50);
    HandleAll(w, ids, replies, |ids|)
  }

  /** Marking without a broker stops at the first error. */
  function Discarded(rows: seq<Row>, ids: seq<nat>, replies: nat -> Reply, n: nat): (r: (seq<Row>, Option<Error>))
    requires n <= |ids| && forall k :: 0 <= k < |ids| ==> ids[k] < |rows|
    ensures |r.0| == |rows|
  {
    if n == 0 then (rows, None)
    else
      var r := Discarded(rows, ids, replies, n - 1);
      if r.1.Some? then r
      else (r.0[ids[n - 1] := MarkRow(r.0[ids[n - 1]], replies(n - 1).mark)], MarkError(replies(n - 1).mark))
  }

  // ----------------------------------------------------------- implementation

  class Drainer {
    var rows: seq<Row>
    var broker: seq<Delivery>
    const hasBroker: bool

    ghost function Now(): World reads this { World(rows, broker) }

    constructor (hasBroker: bool)
      ensures this.hasBroker == hasBroker && Now() == World([], [])
    {
      this.hasBroker := hasBroker;
      rows, broker := [], [];
    }

    method Enqueue(m: Message)
      modifies this
      ensures Now() == World(old(rows) + [Row(m, false, 0, "")], old(broker))
    {
      rows := rows + [Row(m, false, 0, "")];
    }

    method Publish(id: nat, m: Message, reply: PublishReply) returns (error: Option<Error>)
      modifies this`broker
      ensures broker == if reply.Refused? then old(broker) else old(broker) + [Delivery(id, m)]
      ensures error == if reply.Delivered? then None else Some(reply.error)
    {
      if !reply.Refused? {
        broker := broker + [Delivery(id, m)];
      }
      error := if reply.Delivered? then None else Some(reply.error);
    }

    method MarkPublished(id: nat, reply: MarkReply) returns (error: Option<Error>)
      requires id < |rows|
      modifies this`rows
      ensures rows == old(rows)[id := MarkRow(old(rows)[id], reply)] && error == MarkError(reply)
    {
      if !reply.NotMarked? {
        rows := rows[id := rows[id].(published := true, lastError := "")];
      }
      error := MarkError(reply);
    }

    method RecordAttempt(id: nat, message: Error, recorded: bool)
      requires id < |rows|
      modifies this`rows
      ensures recorded ==>
        var row := old(rows)[id];
        rows == old(rows)[id := row.(attempts := row.attempts + 1, lastError := message)]
      ensures !recorded ==> rows == old(rows)
    {
      if recorded {
        rows := rows[id := rows[id].(attempts := rows[id].attempts + 1, lastError := message)];
      }
    }

    /** One pass. Failures are left on the row; the first one is reported. */
    method Drain(listing: Option<Error>, replies: nat -> Reply) returns (error: Option<Error>)
      modifies this
      ensures listing.Some? ==> Now() == old(Now()) && error == listing
      ensures listing.None? && hasBroker ==> Now() == Drained(old(Now()), replies)
      ensures listing.None? && hasBroker ==> error == FirstError(replies, |ListPending(old(rows), 50)|)
      ensures listing.None? && !hasBroker ==> broker == old(broker)
      ensures listing.None? && !hasBroker ==>
        (rows, error) == Discarded(old(rows), ListPending(old(rows), 100), replies, |ListPending(old(rows), 100)|)
    {
      hide Pending;
      if listing.Some? {
        return listing;
      }
      if !hasBroker {
        error := DiscardPending(replies);
        return;
      }
      ghost var start := Now();
      var ids := ListPending(rows, 50);
      error := None;
      for k := 0 to |ids|
        invariant |rows| == |start.rows| && Now() == HandleAll(start, ids, replies, k)
        invariant error == FirstError(replies, k)
      {
        var failed := PublishRow(ids[k], replies(k));
        if failed.Some? && error.None? {
          error := failed;
        }
      }
    }

    // The loop body: publish the stored bytes, then mark the row or note the failure on it.
    method PublishRow(id: nat, reply: Reply) returns (error: Option<Error>)
      requires id < |rows|
      modifies this
      ensures Now() == Handle(old(Now()), id, reply) && error == ErrorOf(reply)
    {
      error := Publish(id, rows[id].message, reply.publish);
      if error.Some? {
        RecordAttempt(id, error.value, reply.recorded);
      } else {
        error := MarkPublished(id, reply.mark);
      }
    }

    // No broker configured: rows are only marked, so that they do not pile up.
    method DiscardPending(replies: nat -> Reply) returns (error: Option<Error>)
      modifies this`rows
      ensures (rows, error) == Discarded(old(rows), ListPending(old(rows), 100), replies, |ListPending(old(rows), 100)|)
    {
      var ids := ListPending(rows, 100);
      ghost var start := rows;
      for k := 0 to |ids|
        invariant |rows| == |start| && (rows, None) == Discarded(start, ids, replies, k)
      {
        var failed := MarkPublished(ids[k], replies(k).mark);
        if failed.Some? {
          DiscardStops(start, ids, replies, k + 1, |ids|);
          return failed;
        }
      }
      error := None;
    }
  }

  lemma {:induction false} DiscardStops(rows: seq<Row>, ids: seq<nat>, replies: nat -> Reply, m: nat, n: nat)
    requires m <= n <= |ids| && forall k :: 0 <= k < |ids| ==> ids[k] < |rows|
    requires Discarded(rows, ids, replies, m).1.Some?
    ensures Discarded(rows, ids, replies, n) == Discarded(rows, ids, replies, m)
  {
    if m < n {
      DiscardStops(rows, ids, replies, m, n - 1);
    }
  }

  /** The reported error is that of the earliest row that went wrong, and none is reported when none did. */
  lemma {:induction false} FirstErrorIsFirst(replies: nat -> Reply, n: nat)
    ensures FirstError(replies, n) == None <==> forall k :: 0 <= k < n ==> ErrorOf(replies(k)) == None
    ensures FirstError(replies, n).Some? ==>
      exists k :: 0 <= k < n && ErrorOf(replies(k)) == FirstError(replies, n)
        && forall j :: 0 <= j < k ==> ErrorOf(replies(j)) == None
  {
    if n > 0 {
      FirstErrorIsFirst(replies, n - 1);
      if FirstError(replies, n - 1) == None && ErrorOf(replies(n - 1)).Some? {
        assert ErrorOf(replies(n - 1)) == FirstError(replies, n);
      }
    }
  }

  /** Without a broker the rows up to the first error are marked as their replies say, and no row after it is. */
  lemma {:induction false} DiscardMarksAPrefix(rows: seq<Row>, ids: seq<nat>, replies: nat -> Reply, n: nat)
    returns (m: nat)
    requires n <= |ids| && forall k :: 0 <= k < |ids| ==> ids[k] < |rows|
    requires forall j, k :: 0 <= j < k < |ids| ==> ids[j] != ids[k]
    ensures m <= n && (Discarded(rows, ids, replies, n).1 == None ==> m == n)
    ensures Discarded(rows, ids, replies, n).1.Some? ==>
      m > 0 && MarkError(replies(m - 1).mark) == Discarded(rows, ids, replies, n).1
    ensures forall k :: 0 <= k < m - 1 ==> replies(k).mark == Marked
    ensures forall k :: 0 <= k < m ==>
      Discarded(rows, ids, replies, n).0[ids[k]] == MarkRow(rows[ids[k]], replies(k).mark)
    ensures forall i :: 0 <= i < |rows| && i !in ids[..m] ==> Discarded(rows, ids, replies, n).0[i] == rows[i]
  {
    hide MarkRow;
    if n == 0 {
      m := 0;
    } else {
      m := DiscardMarksAPrefix(rows, ids, replies, n - 1);
      var before, after := Discarded(rows, ids, replies, n - 1), Discarded(rows, ids, replies, n);
      if before.1 == None {
        var id := ids[n - 1];
        assert after == (before.0[id := MarkRow(before.0[id], replies(n - 1).mark)], MarkError(replies(n - 1).mark));
        assert before.0[id] == rows[id] by {
          assert id !in ids[..m];
        }
        hide Discarded;
        assert m > 0 ==> replies(m - 1).mark == Marked;
        forall k | 0 <= k < n ensures after.0[ids[k]] == MarkRow(rows[ids[k]], replies(k).mark) {
          assert k < n - 1 ==> ids[k] != id;
        }
        forall i | 0 <= i < |rows| && i !in ids[..n] ensures after.0[i] == rows[i] {
          assert i !in ids[..m] && i != id;
        }
        m := n;
      }
    }
  }

  // ------------------------------------------------------- one drain, row by row

  function Deliveries(rows: seq<Row>, ids: seq<nat>, replies: nat -> Reply, n: nat): seq<Delivery>
    requires n <= |ids| && forall k :: 0 <= k < |ids| ==> ids[k] < |rows|
  {
    if n == 0 then []
    else Deliveries(rows, ids, replies, n - 1) + Arrived(ids[n - 1], rows[ids[n - 1]].message, replies(n - 1))
  }

  lemma {:induction false} Kept(w: World, ids: seq<nat>, replies: nat -> Reply, n: nat)
    requires n <= |ids| && forall k :: 0 <= k < |ids| ==> ids[k] < |w.rows|
    ensures forall i :: 0 <= i < |w.rows| ==> HandleAll(w, ids, replies, n).rows[i].message == w.rows[i].message
  {
    if n > 0 {
      Kept(w, ids, replies, n - 1);
    }
  }

  lemma {:induction false} DeliveriesArrive(w: World, ids: seq<nat>, replies: nat -> Reply, n: nat)
    requires n <= |ids| && forall k :: 0 <= k < |ids| ==> ids[k] < |w.rows|
    ensures HandleAll(w, ids, replies, n).broker == w.broker + Deliveries(w.rows, ids, replies, n)
  {
    hide RowAfter, Arrived;
    if n > 0 {
      DeliveriesArrive(w, ids, replies, n - 1);
      Kept(w, ids, replies, n - 1);
    }
  }

  lemma {:induction false} OthersStay(w: World, ids: seq<nat>, replies: nat -> Reply, n: nat, i: nat)
    requires n <= |ids| && i < |w.rows| && forall k :: 0 <= k < |ids| ==> ids[k] < |w.rows|
    requires forall k :: 0 <= k < n ==> ids[k] != i
    ensures HandleAll(w, ids, replies, n).rows[i] == w.rows[i]
  {
    hide RowAfter, Arrived;
    if n > 0 {
      OthersStay(w, ids, replies, n - 1, i);
    }
  }

  lemma {:induction false} ListedRowMoves(w: World, ids: seq<nat>, replies: nat -> Reply, n: nat, k: nat)
    requires k < n <= |ids| && forall k :: 0 <= k < |ids| ==> ids[k] < |w.rows|
    requires forall j, k :: 0 <= j < k < |ids| ==> ids[j] != ids[k]
    ensures HandleAll(w, ids, replies, n).rows[ids[k]] == RowAfter(w.rows[ids[k]], replies(k))
  {
    hide RowAfter, Arrived;
    if k == n - 1 {
      OthersStay(w, ids, replies, k, ids[k]);
    } else {
      ListedRowMoves(w, ids, replies, n - 1, k);
    }
  }

  /**
   * Rows are independent: the k-th listed row ends up as its own reply alone decides, whatever happened to
   * the rows before it, rows not listed stay as they are, and the broker receives the delivered ones in order.
   */
  lemma EveryListedRowIsTried(w: World, replies: nat -> Reply)
    ensures var ids, after := ListPending(w.rows, 50), Drained(w, replies);
      && (forall k :: 0 <= k < |ids| ==> after.rows[ids[k]] == RowAfter(w.rows[ids[k]], replies(k)))
      && (forall i :: 0 <= i < |w.rows| && i !in ids ==> after.rows[i] == w.rows[i])
      && after.broker == w.broker + Deliveries(w.rows, ids, replies, |ids|)
  {
    hide RowAfter, Arrived, HandleAll, Pending;
    PendingLists(w.rows);
    var ids := ListPending(w.rows, 50);
    DeliveriesArrive(w, ids, replies, |ids|);
    forall k | 0 <= k < |ids| ensures Drained(w, replies).rows[ids[k]] == RowAfter(w.rows[ids[k]], replies(k)) {
      ListedRowMoves(w, ids, replies, |ids|, k);
    }
    forall i | 0 <= i < |w.rows| && i !in ids ensures Drained(w, replies).rows[i] == w.rows[i] {
      OthersStay(w, ids, replies, |ids|, i);
    }
  }

  // --------------------------------------------------------------- whole runs

  datatype Op = Enqueue(m: Message) | Drain(replies: nat -> Reply)

  function Do(w: World, op: Op): World {
    match op
    case Enqueue(m) => World(w.rows + [Row(m, false, 0, "")], w.broker)
    case Drain(replies) => Drained(w, replies)
  }

  function Run(w: World, ops: seq<Op>): World {
    if ops == [] then w else Do(Run(w, ops[..|ops| - 1]), ops[|ops| - 1])
  }

  /** A row that is no longer pending was itself published, with the bytes it was stored with. */
  ghost predicate Accounted(w: World) {
    forall i :: 0 <= i < |w.rows| && w.rows[i].published ==> Delivery(i, w.rows[i].message) in w.broker
  }

  lemma {:induction false} HandlingAccounts(w: World, ids: seq<nat>, replies: nat -> Reply, n: nat)
    requires Accounted(w) && n <= |ids| && forall k :: 0 <= k < |ids| ==> ids[k] < |w.rows|
    ensures Accounted(HandleAll(w, ids, replies, n))
  {
    if n > 0 {
      HandlingAccounts(w, ids, replies, n - 1);
    }
  }

  /** The bytes enqueued are the bytes of the row for ever after. */
  lemma {:induction false} RowsKeepTheirBytes(w: World, ops: seq<Op>)
    ensures |Run(w, ops).rows| >= |w.rows|
    ensures forall i :: 0 <= i < |w.rows| ==> Run(w, ops).rows[i].message == w.rows[i].message
  {
    if ops != [] {
      RowsKeepTheirBytes(w, ops[..|ops| - 1]);
      var before, op := Run(w, ops[..|ops| - 1]), ops[|ops| - 1];
      if op.Drain? {
        var ids := ListPending(before.rows, 50);
        Kept(before, ids, op.replies, |ids|);
      }
    }
  }

  /** Over any run with a broker, whatever fails, a row stops being pending only after its stored bytes went out. */
  lemma {:induction false} NothingIsDroppedSilently(w: World, ops: seq<Op>)
    requires Accounted(w)
    ensures Accounted(Run(w, ops))
  {
    if ops != [] {
      NothingIsDroppedSilently(w, ops[..|ops| - 1]);
      var before, op := Run(w, ops[..|ops| - 1]), ops[|ops| - 1];
      if op.Drain? {
        var ids := ListPending(before.rows, 50);
        HandlingAccounts(before, ids, op.replies, |ids|);
      }
    }
  }

  // --------------------------------------------------------- how long it takes

  ghost predicate Clean(replies: nat -> Reply) {
    forall k :: replies(k).publish == Delivered && replies(k).mark == Marked
  }

  ghost predicate AllRefused(replies: nat -> Reply) {
    forall k :: replies(k).publish.Refused?
  }

  lemma {:induction false} HeadLeaves(rows: seq<Row>, row: Row)
    requires Pending(rows) != [] && row.published
    ensures Pending(rows[Pending(rows)[0] := row]) == Pending(rows)[1..]
  {
    var last := |rows| - 1;
    var init, i := rows[..last], Pending(rows)[0];
    var next := rows[i := row];
    if i == last {
      assert next[..last] == init;
      assert forall id :: id in Pending(init) ==> id < last;
      assert Pending(rows) == Pending(init) || Pending(rows) == Pending(init) + [last];
    } else {
      assert Pending(init) != [];
      assert next[..last] == init[i := row];
      HeadLeaves(init, row);
      assert Pending(rows) == Pending(init) + Pending(rows)[|Pending(init)|..];
    }
  }

  lemma {:induction false} SameFlagSamePending(rows: seq<Row>, i: nat, row: Row)
    requires i < |rows| && row.published == rows[i].published
    ensures Pending(rows[i := row]) == Pending(rows)
  {
    var last := |rows| - 1;
    var init, next := rows[..last], rows[i := row];
    if i < last {
      assert next[..last] == init[i := row];
      SameFlagSamePending(init, i, row);
    } else {
      assert next[..last] == init;
    }
  }

  lemma {:induction false} CleanHandling(w: World, replies: nat -> Reply, n: nat)
    requires Clean(replies) && n <= |Pending(w.rows)|
    ensures Pending(HandleAll(w, Pending(w.rows), replies, n).rows) == Pending(w.rows)[n..]
  {
    if n > 0 {
      CleanHandling(w, replies, n - 1);
      var before := HandleAll(w, Pending(w.rows), replies, n - 1);
      hide Pending;
      assert Pending(before.rows)[0] == Pending(w.rows)[n - 1];
      var row := RowAfter(before.rows[Pending(before.rows)[0]], replies(n - 1));
      assert row.published;
      HeadLeaves(before.rows, row);
      hide RowAfter;
    }
  }

  lemma {:induction false} PrefixHandling(w: World, ids: seq<nat>, m: nat, replies: nat -> Reply, n: nat)
    requires n <= m <= |ids| && forall k :: 0 <= k < |ids| ==> ids[k] < |w.rows|
    ensures HandleAll(w, ids[..m], replies, n) == HandleAll(w, ids, replies, n)
  {
    if n > 0 {
      PrefixHandling(w, ids, m, replies, n - 1);
    }
  }

  lemma CleanDrain(w: World, replies: nat -> Reply)
    requires Clean(replies)
    ensures Pending(Drained(w, replies).rows) == if |Pending(w.rows)| <= 50 then [] else Pending(w.rows)[50..]
  {
    var ids := Pending(w.rows);
    if |ids| > 50 {
      CleanHandling(w, replies, 50);
      PrefixHandling(w, ids, 50, replies, 50);
    } else {
      CleanHandling(w, replies, |ids|);
    }
  }

  function Drains(replies: nat -> Reply, times: nat): seq<Op> {
    seq(times, _ => Drain(replies))
  }

  /** While nothing fails, each pass clears fifty rows: the passes needed are the rows over fifty, rounded up. */
  lemma {:induction false} PassesNeeded(w: World, replies: nat -> Reply, times: nat)
    requires Clean(replies)
    ensures var left, n := |Pending(Run(w, Drains(replies, times)).rows)|, |Pending(w.rows)|;
      && left == (if n <= 50 * times then 0 else n - 50 * times)
      && (left == 0 <==> times >= (n + 49) / 50)
  {
    var ops := Drains(replies, times);
    if times > 0 {
      PassesNeeded(w, replies, times - 1);
      assert ops[..times - 1] == Drains(replies, times - 1);
      CleanDrain(Run(w, ops[..times - 1]), replies);
    }
  }

  lemma {:induction false} RefusedHandling(w: World, ids: seq<nat>, replies: nat -> Reply, n: nat)
    requires AllRefused(replies) && n <= |ids| && forall k :: 0 <= k < |ids| ==> ids[k] < |w.rows|
    ensures Pending(HandleAll(w, ids, replies, n).rows) == Pending(w.rows)
    ensures HandleAll(w, ids, replies, n).broker == w.broker
  {
    if n > 0 {
      RefusedHandling(w, ids, replies, n - 1);
      var before := HandleAll(w, ids, replies, n - 1);
      SameFlagSamePending(before.rows, ids[n - 1], RowAfter(before.rows[ids[n - 1]], replies(n - 1)));
    }
  }

  lemma {:induction false} StillBlocked(w: World, replies: nat -> Reply, times: nat)
    requires AllRefused(replies)
    ensures Pending(Run(w, Drains(replies, times)).rows) == Pending(w.rows)
    ensures Run(w, Drains(replies, times)).broker == w.broker
  {
    hide Pending, HandleAll;
    var ops := Drains(replies, times);
    if times > 0 {
      StillBlocked(w, replies, times - 1);
      assert ops[..times - 1] == Drains(replies, times - 1);
      var before := Run(w, ops[..times - 1]);
      var ids := ListPending(before.rows, 50);
      RefusedHandling(before, ids, replies, |ids|);
    }
  }

  /**
   * The limit of that promise: while the fifty oldest rows keep being refused, no pass ever looks at the
   * next one, however many passes there are.
   */
  lemma {:induction false} OldFailuresBlockTheRest(w: World, replies: nat -> Reply, times: nat)
    requires AllRefused(replies)
    ensures var after := Run(w, Drains(replies, times));
      Pending(after.rows) == Pending(w.rows) && after.broker == w.broker
      && forall k :: 50 <= k < |Pending(w.rows)| ==> Pending(w.rows)[k] !in ListPending(after.rows, 50)
  {
    hide Pending, HandleAll;
    StillBlocked(w, replies, times);
    PendingLists(w.rows);
  }

  // ---------------------------------------------------------- overlapping passes

  /** What a pass calls next: it holds the messages it listed, and works through them. */
  datatype Phase = Publishing | Marking(id: nat) | Noting(id: nat, error: Error)

  datatype Pass = Pass(todo: seq<(nat, Message)>, phase: Phase)

  /** Several passes, of the worker and of request handlers, over one table and one broker. */
  datatype Shared = Shared(world: World, passes: map<nat, Pass>)

  datatype Event =
    | Write(m: Message)
    | List(pass: nat)
    | Publish(pass: nat, publish: PublishReply)
    | Mark(pass: nat, mark: MarkReply)
    | Note(pass: nat, recorded: bool)

  function Listed(rows: seq<Row>): (todo: seq<(nat, Message)>)
    ensures forall k :: 0 <= k < |todo| ==> todo[k].0 < |rows| && rows[todo[k].0].message == todo[k].1
  {
    var ids := ListPending(rows, 50);
    seq(|ids|, k requires 0 <= k < |ids| => (ids[k], rows[ids[k]].message))
  }

  predicate May(s: Shared, e: Event) {
    match e
    case Write(_) => true
    case List(p) => p !in s.passes
    case Publish(p, _) => p in s.passes && s.passes[p].phase.Publishing? && s.passes[p].todo != []
    case Mark(p, _) => p in s.passes && s.passes[p].phase.Marking? && s.passes[p].phase.id < |s.world.rows|
    case Note(p, _) => p in s.passes && s.passes[p].phase.Noting? && s.passes[p].phase.id < |s.world.rows|
  }

  function SetRow(w: World, id: nat, row: Row): World
    requires id < |w.rows|
  {
    w.(rows := w.rows[id := row])
  }

  function Happen(s: Shared, e: Event): Shared
    requires May(s, e)
  {
    match e
    case Write(m) => s.(world := s.world.(rows := s.world.rows + [Row(m, false, 0, "")]))
    case List(p) => s.(passes := s.passes[p := Pass(Listed(s.world.rows), Publishing)])
    case Publish(p, reply) =>
      var (id, m) := s.passes[p].todo[0];
      Shared(if reply.Refused? then s.world else s.world.(broker := s.world.broker + [Delivery(id, m)]),
             s.passes[p := Pass(s.passes[p].todo[1..],
                           if reply.Delivered? then Marking(id) else Noting(id, reply.error))])
    case Mark(p, reply) =>
      var id := s.passes[p].phase.id;
      Shared(SetRow(s.world, id, MarkRow(s.world.rows[id], reply)), s.passes[p := s.passes[p].(phase := Publishing)])
    case Note(p, recorded) =>
      var id, row := s.passes[p].phase.id, s.world.rows[s.passes[p].phase.id];
      var noted := row.(attempts := row.attempts + 1, lastError := s.passes[p].phase.error);
      Shared(if recorded then SetRow(s.world, id, noted) else s.world,
             s.passes[p := s.passes[p].(phase := Publishing)])
  }

  /** What a pass holds is what is stored, and what it is about to mark has been delivered. */
  ghost predicate Holds(w: World, pass: Pass) {
    && (forall k :: 0 <= k < |pass.todo| ==>
          pass.todo[k].0 < |w.rows| && w.rows[pass.todo[k].0].message == pass.todo[k].1)
    && match pass.phase
       case Publishing => true
       case Marking(id) => id < |w.rows| && Delivery(id, w.rows[id].message) in w.broker
       case Noting(id, _) => id < |w.rows|
  }

  ghost predicate AllHold(s: Shared) {
    Accounted(s.world) && forall p :: p in s.passes ==> Holds(s.world, s.passes[p])
  }

  lemma HoldsOn(w: World, v: World, pass: Pass)
    requires Holds(w, pass) && |w.rows| <= |v.rows| && forall d :: d in w.broker ==> d in v.broker
    requires forall i :: 0 <= i < |w.rows| ==> v.rows[i].message == w.rows[i].message
    ensures Holds(v, pass)
  {
  }

  lemma HappenKeeps(s: Shared, e: Event)
    requires AllHold(s) && May(s, e)
    ensures AllHold(Happen(s, e))
  {
    var t := Happen(s, e);
    forall p | p in t.passes ensures Holds(t.world, t.passes[p]) {
      if p in s.passes {
        assert Holds(s.world, s.passes[p]);
        HoldsOn(s.world, t.world, s.passes[p]);
      }
      if e.Publish? && p == e.pass && !e.publish.Refused? {
        assert Delivery(s.passes[p].todo[0].0, s.passes[p].todo[0].1) in t.world.broker;
      }
    }
    if e.Mark? {
      assert Holds(s.world, s.passes[e.pass]);
    }
  }

  ghost predicate Occurs(states: seq<Shared>, events: seq<Event>) {
    |states| == |events| + 1 && states[0] == Shared(World([], []), map[])
    && forall i :: 0 <= i < |events| ==> May(states[i], events[i]) && states[i + 1] == Happen(states[i], events[i])
  }

  /** However passes overlap with each other and with new rows, a row is marked only once its stored bytes went out. */
  lemma {:induction false} OverlapDropsNothing(states: seq<Shared>, events: seq<Event>, i: nat)
    requires Occurs(states, events) && i < |states|
    ensures AllHold(states[i])
    ensures forall k :: 0 <= k < |states[i].world.rows| && states[i].world.rows[k].published ==>
      Delivery(k, states[i].world.rows[k].message) in states[i].world.broker
  {
    hide May, Happen, Holds;
    if i > 0 {
      OverlapDropsNothing(states, events, i - 1);
      HappenKeeps(states[i - 1], events[i - 1]);
    }
  }
}
