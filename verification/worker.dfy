/**
 * The confirmation worker: it takes booking ids from `booking_queue`, moves each booking
 * from Pending to Confirmed with a bounded, doubling retry, acknowledges the message on
 * success and rejects it without requeueing otherwise, so that the broker dead-letters it
 * to `booking_queue.dlq`.
 */
module Worker {
  import opened Wrappers
  import opened Backoff
  import opened BookingStore
  import opened StoreInvariant

  const DefaultRetries: nat := 3
  const DefaultDelay: nat := 1000

  datatype WorkerError =
    | NotFoundOrProcessed   // the conditional update touched no row: "Booking not found or already processed"
    | StoreFailure          // a statement of the transaction failed
    | ConnectFailure        // `pool.connect()` failed
    | RollbackFailure       // the ROLLBACK itself failed

  /**
   * How the store fails in one attempt. `NoConnection`: `pool.connect()`, which sits outside
   * the `try`, throws. `QueryError`: BEGIN, the UPDATE or COMMIT throws and the ROLLBACK
   * succeeds. `RollbackError`: the statements run normally but the ROLLBACK, if the attempt
   * needs one, throws from inside the `catch`. `QueryAndRollbackError`: a statement throws and
   * the ROLLBACK that follows throws too.
   */
  datatype Fault = NoConnection | QueryError | RollbackError | QueryAndRollbackError

  /** How `processBooking` ends: it returns a boolean or throws. */
  datatype Outcome = Returned(value: bool) | Threw(error: WorkerError)

  /** One call's outcome, the bookings it leaves, the waits between attempts, and the attempts made. */
  datatype Run = Run(outcome: Outcome, bookings: map<BookingId, Booking>, waits: seq<nat>, attempts: nat)

  /** The conditional update `UPDATE bookings SET status = 'Confirmed' WHERE id = $1 AND status = 'Pending'` matches a row. */
  predicate IsPending(bookings: map<BookingId, Booking>, id: BookingId) {
    id in bookings && bookings[id].status == Pending
  }

  /** How one attempt ends: it commits, it fails and may be retried, or it throws past every retry. */
  datatype Step = Commit | Retry(error: WorkerError) | Fatal(error: WorkerError)

  /** Attempt number `attempt`, with the store failing as `faults` says. */
  function StepOf(bookings: map<BookingId, Booking>, id: BookingId, faults: map<nat, Fault>, attempt: nat): (st: Step)
    ensures st == Commit <==> (attempt !in faults || faults[attempt] == RollbackError) && IsPending(bookings, id)
    ensures st.Fatal? <==> attempt in faults && (faults[attempt] in {NoConnection, QueryAndRollbackError} || (faults[attempt] == RollbackError && !IsPending(bookings, id)))
  {
    if attempt in faults && faults[attempt] == NoConnection then Fatal(ConnectFailure)
    else if attempt in faults && faults[attempt] == QueryAndRollbackError then Fatal(RollbackFailure)
    else if (attempt !in faults || faults[attempt] == RollbackError) && IsPending(bookings, id) then Commit
    else if attempt in faults && faults[attempt] == RollbackError then Fatal(RollbackFailure)
    else Retry(if attempt in faults then StoreFailure else NotFoundOrProcessed)
  }

  /**
   * `processBooking(id, retries, delay)` as the source has it. Attempts are numbered from the
   * first call. A failed attempt rolls back and, while retries remain, waits and tries again;
   * the error of the last attempt is the one thrown. A failed connection or ROLLBACK is thrown
   * at once: the retry is made only from inside the `catch`, after a ROLLBACK that succeeded.
   */
  function Process(bookings: map<BookingId, Booking>, id: BookingId, faults: map<nat, Fault>, attempt: nat, retries: nat, delay: nat)
    : (r: Run)
    // it never returns false
    ensures r.outcome != Returned(false)
    // only a Pending booking changes, and only to Confirmed
    ensures r.outcome == Returned(true) ==>
              IsPending(bookings, id) && r.bookings == bookings[id := bookings[id].(status := Confirmed)]
    ensures r.outcome.Threw? ==> r.bookings == bookings
    ensures r.attempts == |r.waits| + 1 && |r.waits| <= retries
    decreases retries
  {
    match StepOf(bookings, id, faults, attempt)
    case Commit => Run(Returned(true), bookings[id := bookings[id].(status := Confirmed)], [], 1)
    case Fatal(e) => Run(Threw(e), bookings, [], 1)
    case Retry(e) =>
      if retries > 0 then
        var inner := Process(bookings, id, faults, attempt + 1, retries - 1, 2 * delay);
        Run(inner.outcome, inner.bookings, [delay] + inner.waits, inner.attempts + 1)
      else
        Run(Threw(e), bookings, [], 1)
  }

  /** However the call ends, its waits are `delay`, `2*delay`, … */
  lemma {:induction false} ProcessWaitsDouble(bookings: map<BookingId, Booking>, id: BookingId, faults: map<nat, Fault>, attempt: nat, retries: nat, delay: nat)
    ensures var r := Process(bookings, id, faults, attempt, retries, delay);
      r.waits == Delays(delay, |r.waits|)
    decreases retries
  {
    if StepOf(bookings, id, faults, attempt).Retry? && retries > 0 {
      ProcessWaitsDouble(bookings, id, faults, attempt + 1, retries - 1, 2 * delay);
    }
  }

  /** Attempt `k` may end the call at once: no connection, or a failed ROLLBACK. */
  predicate Ends(faults: map<nat, Fault>, k: nat) {
    k in faults && faults[k] != QueryError
  }

  /**
   * A booking that is missing, already Confirmed or Cancelled fails every attempt: the call
   * changes nothing and throws. If no attempt loses its connection or its ROLLBACK, it waits
   * `delay`, `2*delay`, … (`retries` times) before throwing the last attempt's error.
   */
  lemma {:induction false} NotPendingThrows(bookings: map<BookingId, Booking>, id: BookingId, faults: map<nat, Fault>, attempt: nat, retries: nat, delay: nat)
    requires !IsPending(bookings, id)
    ensures var r := Process(bookings, id, faults, attempt, retries, delay);
      r.outcome.Threw? && r.bookings == bookings
    ensures (forall k :: attempt <= k <= attempt + retries ==> !Ends(faults, k)) ==>
              Process(bookings, id, faults, attempt, retries, delay) ==
                Run(Threw(if attempt + retries in faults then StoreFailure else NotFoundOrProcessed),
                    bookings, Delays(delay, retries), retries + 1)
    decreases retries
  {
    if retries > 0 {
      NotPendingThrows(bookings, id, faults, attempt + 1, retries - 1, 2 * delay);
      if forall k :: attempt <= k <= attempt + retries ==> !Ends(faults, k) {
        assert !Ends(faults, attempt);
        assert StepOf(bookings, id, faults, attempt).Retry?;
        assert forall k :: attempt + 1 <= k <= (attempt + 1) + (retries - 1) ==> !Ends(faults, k);
        var inner := Process(bookings, id, faults, attempt + 1, retries - 1, 2 * delay);
        assert inner == Run(Threw(if attempt + retries in faults then StoreFailure else NotFoundOrProcessed),
                            bookings, Delays(2 * delay, retries - 1), retries);
        assert Delays(delay, retries) == [delay] + Delays(2 * delay, retries - 1);
      }
    } else if !Ends(faults, attempt) {
      assert StepOf(bookings, id, faults, attempt) == Retry(if attempt in faults then StoreFailure else NotFoundOrProcessed);
    }
  }

  /** With the defaults and a store that does not fail: four attempts, waits of 1000, 2000 and 4000 ms, then the error is thrown. */
  lemma DefaultNotPending(bookings: map<BookingId, Booking>, id: BookingId)
    requires !IsPending(bookings, id)
    ensures var r := Process(bookings, id, map[], 0, DefaultRetries, DefaultDelay);
      && r.outcome == Threw(NotFoundOrProcessed)
      && r.attempts == 4 && r.waits == [1000, 2000, 4000]
      && r.bookings == bookings
  {
    NotPendingThrows(bookings, id, map[], 0, DefaultRetries, DefaultDelay);
  }

  /** Attempt `k` commits a Pending booking: its connection holds and its statements succeed. */
  predicate Commits(faults: map<nat, Fault>, k: nat) {
    k !in faults || faults[k] == RollbackError
  }

  /** Attempt `k` fails in a statement, rolls back, and so leaves the call free to retry. */
  predicate RolledBack(faults: map<nat, Fault>, k: nat) {
    k in faults && faults[k] == QueryError
  }

  /**
   * A Pending booking is confirmed exactly when some attempt within the budget commits and
   * every attempt before it failed in a statement and rolled back; a lost connection ends
   * the call even when a later attempt would have committed.
   */
  lemma {:induction false} PendingConfirmedIff(bookings: map<BookingId, Booking>, id: BookingId, faults: map<nat, Fault>, attempt: nat, retries: nat, delay: nat)
    requires IsPending(bookings, id)
    ensures Process(bookings, id, faults, attempt, retries, delay).outcome == Returned(true) <==>
              exists k :: attempt <= k <= attempt + retries && Commits(faults, k)
                && forall j :: attempt <= j < k ==> RolledBack(faults, j)
    decreases retries
  {
    if RolledBack(faults, attempt) && retries > 0 {
      PendingConfirmedIff(bookings, id, faults, attempt + 1, retries - 1, 2 * delay);
      if exists k :: attempt <= k <= attempt + retries && Commits(faults, k) && forall j :: attempt <= j < k ==> RolledBack(faults, j) {
        var k :| attempt <= k <= attempt + retries && Commits(faults, k) && forall j :: attempt <= j < k ==> RolledBack(faults, j);
        assert k != attempt;
        assert attempt + 1 <= k <= (attempt + 1) + (retries - 1) && forall j :: attempt + 1 <= j < k ==> RolledBack(faults, j);
      }
      if exists k :: attempt + 1 <= k <= (attempt + 1) + (retries - 1) && Commits(faults, k) && forall j :: attempt + 1 <= j < k ==> RolledBack(faults, j) {
        var k :| attempt + 1 <= k <= (attempt + 1) + (retries - 1) && Commits(faults, k) && forall j :: attempt + 1 <= j < k ==> RolledBack(faults, j);
        assert forall j :: attempt <= j < k ==> RolledBack(faults, j);
      }
    } else if !Commits(faults, attempt) {
      forall k | attempt <= k <= attempt + retries && Commits(faults, k)
        ensures exists j :: attempt <= j < k && !RolledBack(faults, j)
      {
        assert attempt < k && !RolledBack(faults, attempt);
      }
    }
  }

  /** A concrete case: the first attempt loses its connection, and the Pending booking stays Pending although the retry would have confirmed it. */
  lemma LostConnectionIsNotRetried(bookings: map<BookingId, Booking>, id: BookingId)
    requires IsPending(bookings, id)
    ensures Process(bookings, id, map[0 := NoConnection], 0, DefaultRetries, DefaultDelay)
              == Run(Threw(ConnectFailure), bookings, [], 1)
    ensures Process(bookings, id, map[], 1, DefaultRetries - 1, 2 * DefaultDelay).outcome == Returned(true)
  {
  }

  /** A concrete case: a statement of the first attempt fails and so does its ROLLBACK; the Pending booking stays Pending, with no retry. */
  lemma FailedRollbackIsNotRetried(bookings: map<BookingId, Booking>, id: BookingId)
    requires IsPending(bookings, id)
    ensures Process(bookings, id, map[0 := QueryAndRollbackError], 0, DefaultRetries, DefaultDelay)
              == Run(Threw(RollbackFailure), bookings, [], 1)
  {
  }

  /**
   * The loop state of `ConfirmationWorker.ProcessBooking`: finishing the call from attempt
   * `attempt` gives the outcome and bookings of the whole call, and the waits still to come
   * complete the ones made.
   */
  ghost predicate Follows(whole: Run, waits: seq<nat>, bookings: map<BookingId, Booking>, id: BookingId, faults: map<nat, Fault>, attempt: nat, retries: nat, delay: nat) {
    var r := Process(bookings, id, faults, attempt, retries, delay);
    whole.outcome == r.outcome && whole.bookings == r.bookings && whole.waits == waits + r.waits
  }

  /** A rolled-back attempt followed by a wait keeps the loop state on track. */
  lemma FollowsStep(whole: Run, waits: seq<nat>, bookings: map<BookingId, Booking>, id: BookingId, faults: map<nat, Fault>, attempt: nat, retries: nat, delay: nat)
    requires Follows(whole, waits, bookings, id, faults, attempt, retries, delay)
    requires StepOf(bookings, id, faults, attempt).Retry? && retries > 0
    ensures Follows(whole, waits + [delay], bookings, id, faults, attempt + 1, retries - 1, 2 * delay)
  {
    var next := Process(bookings, id, faults, attempt + 1, retries - 1, 2 * delay);
    assert whole.waits == (waits + [delay]) + next.waits;
  }

  /** The attempt that ends the call decides its outcome, and no wait follows it. */
  lemma FollowsEnd(whole: Run, waits: seq<nat>, bookings: map<BookingId, Booking>, id: BookingId, faults: map<nat, Fault>, attempt: nat, retries: nat, delay: nat)
    requires Follows(whole, waits, bookings, id, faults, attempt, retries, delay)
    requires !(StepOf(bookings, id, faults, attempt).Retry? && retries > 0)
    ensures whole.waits == waits
    ensures var st := StepOf(bookings, id, faults, attempt);
      && (st == Commit ==> whole.outcome == Returned(true) && whole.bookings == bookings[id := bookings[id].(status := Confirmed)])
      && (st != Commit ==> whole.outcome == Threw(st.error) && whole.bookings == bookings)
  {
    assert waits + [] == waits;
  }

  /** The worker's update keeps the store invariant: Pending and Confirmed both hold their seats. */
  lemma ProcessKeepsConsistency(db: Db, id: BookingId, faults: map<nat, Fault>, attempt: nat, retries: nat, delay: nat)
    requires Consistent(db)
    ensures Consistent(Db(db.seats, Process(db.bookings, id, faults, attempt, retries, delay).bookings, db.links))
  {
    var r := Process(db.bookings, id, faults, attempt, retries, delay);
    if r.outcome == Returned(true) {
      LiveStatusChangePreservesConsistency(db, id, Confirmed);
    } else {
      assert Db(db.seats, r.bookings, db.links) == db;
    }
  }

  // ---------------------------------------------------------------------------------------
  // Broker configuration: the dead-letter route
  // ---------------------------------------------------------------------------------------

  /** A declared queue and its dead-letter arguments. */
  datatype QueueSpec = QueueSpec(name: string, deadLetterExchange: Option<string>, deadLetterRoutingKey: Option<string>)

  /** `bindQueue(queue, exchange, routingKey)` */
  datatype Binding = Binding(queue: string, exchange: string, routingKey: string)

  const MainQueueName: string := "booking_queue"
  const DeadLetterQueueName: string := "booking_queue.dlq"
  const DeadLetterExchange: string := "dead_letter"

  function MainQueueSpec(): QueueSpec {
    QueueSpec(MainQueueName, Some(DeadLetterExchange), Some(DeadLetterQueueName))
  }

  function DeclaredBindings(): seq<Binding> {
    [Binding(DeadLetterQueueName, DeadLetterExchange, DeadLetterQueueName)]
  }

  /** A direct exchange delivers a message to every queue bound to it with exactly the message's routing key. */
  function Route(bindings: seq<Binding>, exchange: string, key: string): (qs: seq<string>)
    ensures forall q :: q in qs <==> Binding(q, exchange, key) in bindings
    decreases |bindings|
  {
    if bindings == [] then []
    else
      var rest := Route(bindings[1..], exchange, key);
      assert bindings == [bindings[0]] + bindings[1..];
      if bindings[0].exchange == exchange && bindings[0].routingKey == key then [bindings[0].queue] + rest else rest
  }

  /**
   * Where a message rejected without requeue from queue `q` goes: nowhere without a
   * dead-letter exchange; otherwise routed through it, by the configured key or else by the
   * message's own routing key.
   */
  function DeadLetterTargets(q: QueueSpec, bindings: seq<Binding>, messageKey: string): (qs: seq<string>)
    ensures q.deadLetterExchange.None? ==> qs == []
  {
    match q.deadLetterExchange
    case None => []
    case Some(x) =>
      Route(bindings, x, match q.deadLetterRoutingKey case Some(k) => k case None => messageKey)
  }

  /** With the declared configuration a rejected booking message lands in `booking_queue.dlq`, and only there. */
  lemma RejectedReachDeadLetterQueue()
    ensures DeadLetterTargets(MainQueueSpec(), DeclaredBindings(), MainQueueName) == [DeadLetterQueueName]
  {
    var bs := DeclaredBindings();
    assert bs[1..] == [];
  }

  // ---------------------------------------------------------------------------------------
  // The consumer
  // ---------------------------------------------------------------------------------------

  /** How a delivered message was settled. */
  datatype Settlement = Acked(id: BookingId) | Rejected(id: BookingId)

  class ConfirmationWorker {
    var bookings: map<BookingId, Booking>
    /** Messages waiting on `booking_queue`, oldest first. */
    var mainQueue: seq<BookingId>
    /** Messages dead-lettered to `booking_queue.dlq`, oldest first. */
    var dlq: seq<BookingId>
    /** Messages acknowledged, in order. */
    var acked: seq<BookingId>

    constructor (bookings0: map<BookingId, Booking>, pending: seq<BookingId>)
      ensures bookings == bookings0 && mainQueue == pending && dlq == [] && acked == []
    {
      bookings := bookings0;
      mainQueue := pending;
      dlq := [];
      acked := [];
    }

    /** Every message is in exactly one of the three places. */
    function Messages(): multiset<BookingId>
      reads this
    {
      multiset(mainQueue) + multiset(acked) + multiset(dlq)
    }

    /** `processBooking(id)` with its defaults (3 retries from 1000 ms), the recursion run as a loop. */
    method ProcessBooking(id: BookingId, faults: map<nat, Fault>) returns (outcome: Outcome, waits: seq<nat>)
      modifies this
      ensures var r := Process(old(bookings), id, faults, 0, DefaultRetries, DefaultDelay);
        outcome == r.outcome && waits == r.waits && bookings == r.bookings
      ensures mainQueue == old(mainQueue) && dlq == old(dlq) && acked == old(acked)
    {
      var attempt := 0;
      var retries := DefaultRetries;
      var delay := DefaultDelay;
      waits := [];
      ghost var whole := Process(bookings, id, faults, attempt, retries, delay);
      assert Follows(whole, waits, bookings, id, faults, attempt, retries, delay);
      var step := StepOf(bookings, id, faults, attempt);
      // each pass is one attempt whose update fails or matches no row, rolled back, then a wait
      while step.Retry? && retries > 0
        invariant Follows(whole, waits, bookings, id, faults, attempt, retries, delay)
        invariant step == StepOf(bookings, id, faults, attempt)
        modifies {}
        decreases retries
      {
        FollowsStep(whole, waits, bookings, id, faults, attempt, retries, delay);
        waits := waits + [delay];
        attempt := attempt + 1;
        retries := retries - 1;
        delay := 2 * delay;
        step := StepOf(bookings, id, faults, attempt);
      }
      FollowsEnd(whole, waits, bookings, id, faults, attempt, retries, delay);
      match step
      case Commit =>
        bookings := bookings[id := bookings[id].(status := Confirmed)];
        outcome := Returned(true);
      case Fatal(e) =>
        outcome := Threw(e);
      case Retry(e) =>
        outcome := Threw(e);
    }

    /**
     * The consume callback on the oldest message: process it, then acknowledge it if the
     * result is truthy and otherwise reject it without requeue, which dead-letters it. An
     * empty queue delivers nothing.
     */
    method Deliver(faults: map<nat, Fault>) returns (settled: Option<Settlement>)
      modifies this
      ensures old(mainQueue) == [] ==>
                settled == None && bookings == old(bookings) && mainQueue == [] && dlq == old(dlq) && acked == old(acked)
      ensures old(mainQueue) != [] ==>
                var id := old(mainQueue)[0];
                var r := Process(old(bookings), id, faults, 0, DefaultRetries, DefaultDelay);
                && bookings == r.bookings
                && mainQueue == old(mainQueue)[1..]
                && (r.outcome == Returned(true) ==> settled == Some(Acked(id)) && acked == old(acked) + [id] && dlq == old(dlq))
                && (r.outcome.Threw? ==> settled == Some(Rejected(id)) && dlq == old(dlq) + [id] && acked == old(acked))
      ensures Messages() == old(Messages())
    {
      if mainQueue == [] {
        return None;
      }
      var id := mainQueue[0];
      ghost var r := Process(bookings, id, faults, 0, DefaultRetries, DefaultDelay);
      assert mainQueue == [id] + mainQueue[1..];
      mainQueue := mainQueue[1..];
      var outcome, _ := ProcessBooking(id, faults);
      assert outcome == r.outcome && bookings == r.bookings;
      var how := Settle(id, outcome);
      settled := Some(how);
    }

    /**
     * Settles a processed message: a truthy result acknowledges it; anything else rejects it
     * without requeue, and the broker dead-letters it.
     */
    method Settle(id: BookingId, outcome: Outcome) returns (settled: Settlement)
      modifies this
      ensures outcome == Returned(true) ==> settled == Acked(id) && acked == old(acked) + [id] && dlq == old(dlq)
      ensures outcome != Returned(true) ==> settled == Rejected(id) && dlq == old(dlq) + [id] && acked == old(acked)
      ensures bookings == old(bookings) && mainQueue == old(mainQueue)
    {
      if outcome == Returned(true) {
        acked := acked + [id];
        settled := Acked(id);
      } else {
        // nack(msg, false, false): the broker dead-letters the message
        RejectedReachDeadLetterQueue();
        var targets := DeadLetterTargets(MainQueueSpec(), DeclaredBindings(), MainQueueName);
        if DeadLetterQueueName in targets {
          dlq := dlq + [id];
        }
        settled := Rejected(id);
      }
    }
  }

  /** Redelivering the id of a booking that is already Confirmed leaves it Confirmed and dead-letters the message. */
  lemma RedeliveredConfirmedIsRejected(bookings: map<BookingId, Booking>, id: BookingId, faults: map<nat, Fault>)
    requires id in bookings && bookings[id].status == Confirmed
    ensures var r := Process(bookings, id, faults, 0, DefaultRetries, DefaultDelay);
      r.outcome.Threw? && r.bookings == bookings
    ensures (forall k :: 0 <= k <= DefaultRetries ==> !Ends(faults, k)) ==>
              Process(bookings, id, faults, 0, DefaultRetries, DefaultDelay).attempts == DefaultRetries + 1
  {
    NotPendingThrows(bookings, id, faults, 0, DefaultRetries, DefaultDelay);
  }
}
