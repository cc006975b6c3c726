/**
 The payment service: the two-transaction charge and the reconciliation worker that finishes
 payments whose second transaction never ran.
 */
module PaymentService {
  import opened Events
  import opened Gateway
  import opened Consumers

  datatype PaymentStatus = Processing | Succeeded | Failed

  datatype Payment = Payment(amount: int, status: PaymentStatus, simulate: Option<string>)

  /** payments.order_id is UNIQUE and rows are never deleted, so the order id names the row. */
  datatype PaymentDb = PaymentDb(
    payments: map<OrderId, Payment>,
    outbox: seq<Row>,
    processed: set<EventId>
  )

  /** What a handler or the reconciler remembers of a payment outside any transaction. */
  datatype Charge = Charge(order: OrderId, amount: int, simulate: Option<string>)

  /** payments.payment_simulate is VARCHAR(20). */
  const SIMULATE_WIDTH := 20

  function OutcomeStatus(c: Charge): PaymentStatus {
    if ProcessPayment(c.amount, c.simulate) then Succeeded else Failed
  }

  function OutcomeTopic(c: Charge): Topic {
    if ProcessPayment(c.amount, c.simulate) then PaymentSucceeded else PaymentFailed
  }

  function ChargeOf(e: Envelope): Charge
    requires e.body.OrderBody?
  {
    Charge(e.order, e.body.amount, e.body.simulate)
  }

  /** Transaction 1 without the ledger check: the unique constraints alone. */
  function InsertIntent(db: PaymentDb, e: Envelope): Attempt<PaymentDb> {
    if !e.body.OrderBody? then Attempt(db, Raised(MissingField))
    else if !Fits(e.body.simulate, SIMULATE_WIDTH) then Attempt(db, Raised(ValueTooLong))
    else if e.order in db.payments then Attempt(db, Swallowed)
    else if e.id in db.processed then Attempt(db, Raised(DuplicateEvent))
    else
      var row := Payment(e.body.amount, Processing, e.body.simulate);
      Attempt(db.(payments := db.payments[e.order := row], processed := db.processed + {e.id}), Committed)
  }

  /** Transaction 1: record the intent to charge, and mark the event processed. */
  function RecordIntent(db: PaymentDb, e: Envelope): Attempt<PaymentDb> {
    if !e.body.OrderBody? then Attempt(db, Raised(MissingField))
    else if e.id in db.processed then Attempt(db, Skipped)
    else InsertIntent(db, e)
  }

  /** Transaction 2: the status is written without looking at the one already there. */
  function RecordOutcome(db: PaymentDb, c: Charge, now: int): PaymentDb {
    db.(payments := if c.order in db.payments
                    then db.payments[c.order := db.payments[c.order].(status := OutcomeStatus(c))]
                    else db.payments,
        outbox := Emit(db.outbox, Payments, OutcomeTopic(c), c.order, EmptyBody, now))
  }

  predicate Stuck(db: PaymentDb, order: OrderId) {
    order in db.payments && db.payments[order].status == Processing
  }

  predicate Resolved(db: PaymentDb, order: OrderId) {
    order in db.payments && db.payments[order].status != Processing
  }

  /** The columns the reconciler's first query returns. */
  function Remembered(db: PaymentDb, order: OrderId): Charge
    requires order in db.payments
  {
    Charge(order, db.payments[order].amount, db.payments[order].simulate)
  }

  ghost predicate Holds(db: PaymentDb, c: Charge) {
    c.order in db.payments && c == Remembered(db, c.order)
  }

  /** What that query returns for the rows not touched for three minutes: each stuck row once. */
  ghost predicate Snapshot(db: PaymentDb, stale: set<OrderId>, stuck: seq<Charge>) {
    && (forall k :: 0 <= k < |stuck| ==>
          stuck[k].order in stale && Stuck(db, stuck[k].order) && stuck[k] == Remembered(db, stuck[k].order))
    && (forall o :: o in stale && Stuck(db, o) ==> Remembered(db, o) in stuck)
    && forall j, k :: 0 <= j < k < |stuck| ==> stuck[j].order != stuck[k].order
  }

  /** The reconciler's transaction for one remembered row: it checks the status again under the row lock. */
  function Reconcile(db: PaymentDb, c: Charge, now: int): PaymentDb {
    if Stuck(db, c.order) then RecordOutcome(db, c, now) else db
  }

  /** The complete handler, or only its first transaction when the process dies before the second. */
  function Handle(db: PaymentDb, e: Envelope, now: int, dies: bool): Attempt<PaymentDb> {
    var first := RecordIntent(db, e);
    if first.outcome != Committed || dies then first
    else Attempt(RecordOutcome(first.db, ChargeOf(e), now), Committed)
  }

  function Deliver(db: PaymentDb, d: Delivery): PaymentDb {
    Handle(db, d.e, d.now, d.halts).db
  }

  /** An event Transaction 1 can record: it has the fields, and its directive fits VARCHAR(20). */
  predicate Payable(e: Envelope) {
    e.body.OrderBody? && (e.body.simulate.Some? ==> |e.body.simulate.value| <= 20)
  }

  /** The row Transaction 2 appends. */
  function OutcomeRow(rows: seq<Row>, order: OrderId, declined: bool, now: int): Row {
    Row(Envelope(EventId(Payments, |rows|), if declined then PaymentFailed else PaymentSucceeded, order, EmptyBody), now, false)
  }

  /**
   What the whole handler leaves behind. It commits exactly for a new event that can be recorded and whose
   order has no payment yet; then the payment carries the event's amount and directive and, unless the
   handler stopped early, the gateway's answer, announced by one event.
   */
  lemma HandlerRun(db: PaymentDb, e: Envelope, now: int, dies: bool)
    ensures var r := Handle(db, e, now, dies);
      && (r.outcome == Committed <==> Payable(e) && e.id !in db.processed && e.order !in db.payments)
      && (r.outcome == Raised(MissingField) <==> !e.body.OrderBody?)
      && (r.outcome == Skipped <==> e.body.OrderBody? && e.id in db.processed)
      && (r.outcome == Raised(ValueTooLong) <==> e.body.OrderBody? && e.id !in db.processed && !Payable(e))
      && (r.outcome == Swallowed <==> Payable(e) && e.id !in db.processed && e.order in db.payments)
      && (r.outcome != Committed ==> r.db == db)
      && (r.outcome == Committed ==>
            var declined := Declined(e.body.simulate);
            var status := if dies then Processing else if declined then Failed else Succeeded;
            r.db == PaymentDb(
              db.payments[e.order := Payment(e.body.amount, status, e.body.simulate)],
              if dies then db.outbox else db.outbox + [OutcomeRow(db.outbox, e.order, declined, now)],
              db.processed + {e.id}))
  {
    if e.body.OrderBody? {
      DeclinedExactly(e.body.amount, e.body.simulate);
    }
  }

  /** As for the restaurant: the constraints alone commit exactly what the ledger check lets through. */
  lemma LedgerCheckRedundant(db: PaymentDb, e: Envelope)
    ensures InsertIntent(db, e).db == RecordIntent(db, e).db
    ensures InsertIntent(db, e).outcome == Committed <==> RecordIntent(db, e).outcome == Committed
  {
  }

  /** Something another actor does to this database between two of the reconciler's transactions. */
  datatype Interference =
    | Intent(e: Envelope)
    | Finish(c: Charge, now: int)
    | Rival(c: Charge, now: int)

  function Disturb(db: PaymentDb, others: seq<Interference>): PaymentDb {
    if others == [] then db
    else
      var before := Disturb(db, others[..|others| - 1]);
      match others[|others| - 1]
      case Intent(e) => RecordIntent(before, e).db
      case Finish(c, now) => RecordOutcome(before, c, now)
      case Rival(c, now) => Reconcile(before, c, now)
  }

  /** Nobody takes a row away, changes its amount or directive, or makes a resolved one stuck again. */
  lemma {:induction false} DisturbKeeps(db: PaymentDb, others: seq<Interference>, order: OrderId)
    requires order in db.payments
    ensures order in Disturb(db, others).payments
    ensures Remembered(Disturb(db, others), order) == Remembered(db, order)
    ensures Resolved(db, order) ==> Resolved(Disturb(db, others), order)
  {
    if others != [] {
      DisturbKeeps(db, others[..|others| - 1], order);
    }
  }

  /** Interference k records the order's first payment. */
  predicate Records(db: PaymentDb, others: seq<Interference>, k: nat, order: OrderId) {
    && k < |others| && others[k].Intent? && others[k].e.order == order
    && Payable(others[k].e) && others[k].e.id !in Disturb(db, others[..k]).processed
  }

  /** Interference k settles a payment of the order that is there. */
  predicate Settles(db: PaymentDb, others: seq<Interference>, k: nat, order: OrderId) {
    && k < |others| && !others[k].Intent? && others[k].c.order == order
    && order in Disturb(db, others[..k]).payments
  }

  lemma DisturbNext(db: PaymentDb, others: seq<Interference>, order: OrderId)
    requires others != []
    ensures var n := |others| - 1;
      var before, after := Disturb(db, others[..n]), Disturb(db, others);
      && (order in after.payments <==> order in before.payments || Records(db, others, n, order))
      && (Resolved(after, order) <==> Resolved(before, order) || Settles(db, others, n, order))
  {
  }

  lemma EarlierOthers(db: PaymentDb, others: seq<Interference>, n: nat, k: nat, order: OrderId)
    requires k < n <= |others|
    ensures Records(db, others[..n], k, order) <==> Records(db, others, k, order)
    ensures Settles(db, others[..n], k, order) <==> Settles(db, others, k, order)
  {
    assert others[..n][..k] == others[..k];
  }

  /** The others are not idle: a payment exists exactly if it did or one of them recorded it, and is resolved exactly if it was or one of them settled it. */
  lemma {:induction false} DisturbExactly(db: PaymentDb, others: seq<Interference>, order: OrderId)
    ensures order in Disturb(db, others).payments <==> order in db.payments || exists k: nat :: Records(db, others, k, order)
    ensures Resolved(Disturb(db, others), order) <==> Resolved(db, order) || exists k: nat :: Settles(db, others, k, order)
  {
    if others != [] {
      var n := |others| - 1;
      DisturbExactly(db, others[..n], order);
      DisturbNext(db, others, order);
      forall k: nat ensures k < n ==> (Records(db, others[..n], k, order) <==> Records(db, others, k, order))
        ensures k < n ==> (Settles(db, others[..n], k, order) <==> Settles(db, others, k, order))
      {
        if k < n {
          EarlierOthers(db, others, n, k, order);
        }
      }
    }
  }

  /** What the worker did with one remembered row: the time of its transaction, and the database just before and after. */
  datatype Resolution = Resolution(charge: Charge, now: int, before: PaymentDb, after: PaymentDb)

  predicate Moved(r: Resolution) {
    Stuck(r.before, r.charge.order)
  }

  function CountMoved(trace: seq<Resolution>): nat {
    if trace == [] then 0
    else CountMoved(trace[..|trace| - 1]) + (if Moved(trace[|trace| - 1]) then 1 else 0)
  }

  /** Rows the worker itself appended. */
  function RowsAdded(trace: seq<Resolution>): int {
    if trace == [] then 0
    else
      var r := trace[|trace| - 1];
      RowsAdded(trace[..|trace| - 1]) + |r.after.outbox| - |r.before.outbox|
  }

  /** One entry of the trace: a stuck row is settled by the remembered directive with one event, any other row is left alone. */
  predicate Faithful(r: Resolution) {
    if Moved(r) then
      var order, declined := r.charge.order, Declined(r.charge.simulate);
      r.after == PaymentDb(
        r.before.payments[order := r.before.payments[order].(status := if declined then Failed else Succeeded)],
        r.before.outbox + [OutcomeRow(r.before.outbox, order, declined, r.now)],
        r.before.processed)
    else
      r.after == r.before
  }

  /** The database when the call has finished its first k transactions. */
  ghost function Reached(start: PaymentDb, trace: seq<Resolution>, k: nat): PaymentDb
    requires k <= |trace|
  {
    if k == 0 then start else trace[k - 1].after
  }

  /** The trace of a call so far: one faithful entry per remembered row, with the interference in between. */
  ghost predicate Traces(start: PaymentDb, stuck: seq<Charge>, others: nat -> seq<Interference>, clock: nat -> int, trace: seq<Resolution>) {
    && |trace| <= |stuck|
    && forall k :: 0 <= k < |trace| ==> Follows(start, stuck[k], others(k), clock(k), trace, k)
  }

  /** What was remembered is still what the row says when its turn comes. */
  ghost predicate Follows(start: PaymentDb, c: Charge, other: seq<Interference>, now: int, trace: seq<Resolution>, k: nat)
    requires k < |trace|
  {
    && trace[k].charge == c && trace[k].now == now
    && Faithful(trace[k])
    && Holds(trace[k].before, c)
    && trace[k].before == Disturb(Reached(start, trace, k), other)
  }

  lemma ExtendTrace(start: PaymentDb, stuck: seq<Charge>, others: nat -> seq<Interference>, clock: nat -> int,
                    trace: seq<Resolution>, r: Resolution)
    requires Traces(start, stuck, others, clock, trace) && |trace| < |stuck|
    requires Faithful(r) && r.charge == stuck[|trace|] && r.now == clock(|trace|)
    requires r.before == Disturb(Reached(start, trace, |trace|), others(|trace|))
    requires Holds(r.before, r.charge)
    ensures Traces(start, stuck, others, clock, trace + [r])
    ensures CountMoved(trace + [r]) == CountMoved(trace) + (if Moved(r) then 1 else 0)
  {
    var trace' := trace + [r];
    assert trace'[..|trace|] == trace;
    forall k | 0 <= k < |trace'|
      ensures Follows(start, stuck[k], others(k), clock(k), trace', k)
    {
      if k < |trace| {
        assert Follows(start, stuck[k], others(k), clock(k), trace, k);
        assert trace'[k] == trace[k] && Reached(start, trace', k) == Reached(start, trace, k);
      }
    }
  }

  /** Moves and outbox rows of the call are the same number. */
  lemma {:induction false} MovesAreRows(trace: seq<Resolution>)
    requires forall k :: 0 <= k < |trace| ==> Faithful(trace[k])
    ensures CountMoved(trace) == RowsAdded(trace)
  {
    if trace != [] {
      MovesAreRows(trace[..|trace| - 1]);
      assert Faithful(trace[|trace| - 1]);
    }
  }

  lemma TraceFaithful(start: PaymentDb, stuck: seq<Charge>, others: nat -> seq<Interference>, clock: nat -> int, trace: seq<Resolution>)
    requires Traces(start, stuck, others, clock, trace)
    ensures CountMoved(trace) == RowsAdded(trace)
  {
    forall k | 0 <= k < |trace| ensures Faithful(trace[k]) {
      assert Follows(start, stuck[k], others(k), clock(k), trace, k);
    }
    MovesAreRows(trace);
  }

  /** Undisturbed, the call's rows are all that is new in the outbox. */
  lemma {:induction false} RowsAddedAlone(start: PaymentDb, stuck: seq<Charge>, others: nat -> seq<Interference>, clock: nat -> int,
                                          trace: seq<Resolution>)
    requires Traces(start, stuck, others, clock, trace) && forall k: nat :: others(k) == []
    ensures |Reached(start, trace, |trace|).outbox| == |start.outbox| + RowsAdded(trace)
  {
    if trace != [] {
      var n := |trace| - 1;
      var earlier := trace[..n];
      forall k | 0 <= k < n ensures Follows(start, stuck[k], others(k), clock(k), earlier, k) {
        assert Follows(start, stuck[k], others(k), clock(k), trace, k);
        assert Reached(start, earlier, k) == Reached(start, trace, k);
      }
      RowsAddedAlone(start, stuck, others, clock, earlier);
      assert Follows(start, stuck[n], others(n), clock(n), trace, n);
      assert Reached(start, earlier, n) == Reached(start, trace, n);
    }
  }

  ghost predicate AllHold(db: PaymentDb, stuck: seq<Charge>) {
    forall j :: 0 <= j < |stuck| ==> Holds(db, stuck[j])
  }

  predicate ResolvedUpTo(db: PaymentDb, stuck: seq<Charge>, k: nat) {
    forall j :: 0 <= j < k && j < |stuck| ==> Resolved(db, stuck[j].order)
  }

  lemma OthersKeep(db: PaymentDb, others: seq<Interference>, stuck: seq<Charge>, k: nat)
    requires AllHold(db, stuck) && ResolvedUpTo(db, stuck, k)
    ensures AllHold(Disturb(db, others), stuck) && ResolvedUpTo(Disturb(db, others), stuck, k)
  {
    forall j | 0 <= j < |stuck|
      ensures Holds(Disturb(db, others), stuck[j]) && (j < k ==> Resolved(Disturb(db, others), stuck[j].order))
    {
      DisturbKeeps(db, others, stuck[j].order);
    }
  }

  lemma ReconcileKeeps(db: PaymentDb, stuck: seq<Charge>, k: nat, now: int)
    requires AllHold(db, stuck) && ResolvedUpTo(db, stuck, k) && k < |stuck|
    ensures AllHold(Reconcile(db, stuck[k], now), stuck) && ResolvedUpTo(Reconcile(db, stuck[k], now), stuck, k + 1)
  {
  }

  class PaymentNode {
    var payments: map<OrderId, Payment>
    var outbox: seq<Row>
    var processed: set<EventId>

    ghost function Db(): PaymentDb
      reads this
    {
      PaymentDb(payments, outbox, processed)
    }

    constructor ()
      ensures Db() == PaymentDb(map[], [], {})
    {
      payments, outbox, processed := map[], [], {};
    }

    method RecordIntentTx(e: Envelope) returns (outcome: Outcome)
      modifies this
      ensures Attempt(Db(), outcome) == RecordIntent(old(Db()), e)
    {
      if !e.body.OrderBody? {
        return Raised(MissingField);
      }
      if e.id in processed {
        return Skipped;
      }
      if !Fits(e.body.simulate, SIMULATE_WIDTH) {
        return Raised(ValueTooLong);
      }
      if e.order in payments {
        return Swallowed;
      }
      payments := payments[e.order := Payment(e.body.amount, Processing, e.body.simulate)];
      processed := processed + {e.id};
      outcome := Committed;
    }

    method RecordOutcomeTx(c: Charge, success: bool, now: int)
      requires success == ProcessPayment(c.amount, c.simulate)
      modifies this
      ensures Db() == RecordOutcome(old(Db()), c, now)
    {
      if c.order in payments {
        payments := payments[c.order := payments[c.order].(status := if success then Succeeded else Failed)];
      }
      outbox := Emit(outbox, Payments, if success then PaymentSucceeded else PaymentFailed, c.order, EmptyBody, now);
    }

    /** `dies` is the process stopping around the gateway call. */
    method HandleMessage(e: Envelope, now: int, dies: bool) returns (outcome: Outcome)
      modifies this
      ensures Attempt(Db(), outcome) == Handle(old(Db()), e, now, dies)
    {
      outcome := RecordIntentTx(e);
      if outcome != Committed || dies {
        return;
      }
      var success := ProcessPayment(e.body.amount, e.body.simulate);
      RecordOutcomeTx(ChargeOf(e), success, now);
    }

    /** One attempt at the next message of a partition; an exception leaves nothing behind. */
    method AttemptNext(logs: seq<seq<Envelope>>, position: seq<nat>, t: Try)
      requires Within(logs, position)
      modifies this
      ensures Db() == Tried(Deliver, old(Db()), logs, position, t)
    {
      if HasNext(logs, position, t.part) && t.result != Undone {
        var _ := HandleMessage(logs[t.part][position[t.part]], t.now, t.result == Halted);
      }
    }

    /** One turn of the polling loop: exceptions are passed over, and only a process that survives commits the offsets. */
    method Poll(logs: seq<seq<Envelope>>, position: seq<nat>, r: Round) returns (offsets: seq<nat>)
      requires Within(logs, position)
      modifies this
      ensures Db() == Fold(Deliver, old(Db()), Deliveries(logs, position, r.tries))
      ensures offsets == Next(logs, position, r)
    {
      var next := position;
      for k := 0 to |r.tries|
        invariant next == Advance(logs, position, r.tries[..k])
        invariant Db() == Fold(Deliver, old(Db()), Deliveries(logs, position, r.tries[..k]))
      {
        DeliverNext(Deliver, old(Db()), logs, position, r.tries, k);
        var t := r.tries[k];
        AttemptNext(logs, next, t);
        if HasNext(logs, next, t.part) {
          next := next[t.part := next[t.part] + 1];
        }
      }
      assert r.tries[..|r.tries|] == r.tries;
      offsets := if r.survives then next else position;
    }

    /** run_consumer over all the partitions it is assigned. */
    method RunConsumer(logs: seq<seq<Envelope>>, committed: seq<nat>, rounds: seq<Round>) returns (offsets: seq<nat>)
      requires Within(logs, committed)
      modifies this
      ensures Db() == Fold(Deliver, old(Db()), Schedule(logs, committed, rounds))
      ensures offsets == Offsets(logs, committed, rounds)
    {
      offsets := committed;
      for i := 0 to |rounds|
        invariant Within(logs, offsets) && offsets == Offsets(logs, committed, rounds[..i])
        invariant Db() == Fold(Deliver, old(Db()), Schedule(logs, committed, rounds[..i]))
      {
        RoundNext(Deliver, old(Db()), logs, committed, rounds, i);
        offsets := Poll(logs, offsets, rounds[i]);
      }
      assert rounds[..|rounds|] == rounds;
    }

    /** Other actors' committed transactions, replayed on this database. */
    method Interfere(others: seq<Interference>)
      modifies this
      ensures Db() == Disturb(old(Db()), others)
    {
      for k := 0 to |others|
        invariant Db() == Disturb(old(Db()), others[..k])
      {
        assert others[..k + 1][..k] == others[..k];
        match others[k] {
          case Intent(e) =>
            var _ := RecordIntentTx(e);
          case Finish(c, now) =>
            RecordOutcomeTx(c, ProcessPayment(c.amount, c.simulate), now);
          case Rival(c, now) =>
            if c.order in payments && payments[c.order].status == Processing {
              RecordOutcomeTx(c, ProcessPayment(c.amount, c.simulate), now);
            }
        }
      }
      assert others[..|others|] == others;
    }

    /** The reconciler's transaction: lock the row, look at the status again, settle it if it is still stuck. */
    method ResolveTx(c: Charge, now: int) returns (moved: bool, ghost r: Resolution)
      modifies this
      ensures r == Resolution(c, now, old(Db()), Db()) && Faithful(r)
      ensures Db() == Reconcile(old(Db()), c, now)
      ensures moved == Moved(r)
    {
      var success := ProcessPayment(c.amount, c.simulate);
      DeclinedExactly(c.amount, c.simulate);
      moved := c.order in payments && payments[c.order].status == Processing;
      if moved {
        RecordOutcomeTx(c, success, now);
      }
      r := Resolution(c, now, old(Db()), Db());
    }

    /** The first query, in whatever order the rows come. */
    method FindStuck(stale: set<OrderId>) returns (stuck: seq<Charge>)
      ensures Snapshot(Db(), stale, stuck)
    {
      stuck := [];
      var left := set o | o in stale && o in payments && payments[o].status == Processing;
      while left != {}
        invariant forall o :: o in left ==> o in stale && Stuck(Db(), o)
        invariant forall o :: o in stale && Stuck(Db(), o) ==> o in left || Remembered(Db(), o) in stuck
        invariant forall k :: 0 <= k < |stuck| ==>
                    && stuck[k].order in stale && stuck[k].order !in left
                    && Stuck(Db(), stuck[k].order) && stuck[k] == Remembered(Db(), stuck[k].order)
        invariant forall j, k :: 0 <= j < k < |stuck| ==> stuck[j].order != stuck[k].order
        decreases left
      {
        var o :| o in left;
        stuck, left := stuck + [Charge(o, payments[o].amount, payments[o].simulate)], left - {o};
      }
    }

    /**
     Takes the snapshot, then settles its rows one transaction at a time, the k-th at time `clock(k)` and
     after `others(k)`. The trace relates the returned count to this call's own effects, and at the end no
     row of the snapshot is stuck, whoever resolved it.
     */
    method ReconcileStuckPayments(stale: set<OrderId>, others: nat -> seq<Interference>, clock: nat -> int)
      returns (reconciled: nat, ghost stuck: seq<Charge>, ghost trace: seq<Resolution>)
      modifies this
      ensures Snapshot(old(Db()), stale, stuck)
      ensures |trace| == |stuck| && Traces(old(Db()), stuck, others, clock, trace)
      ensures Db() == Reached(old(Db()), trace, |trace|)
      ensures reconciled == CountMoved(trace) == RowsAdded(trace)
      ensures forall o :: o in stale && Stuck(old(Db()), o) ==> Resolved(Db(), o)
    {
      reconciled, trace := 0, [];
      ghost var start := Db();
      var found := FindStuck(stale);
      stuck := found;
      for k := 0 to |found|
        invariant |trace| == k && Traces(start, stuck, others, clock, trace)
        invariant Db() == Reached(start, trace, k)
        invariant reconciled == CountMoved(trace)
        invariant AllHold(Db(), found) && ResolvedUpTo(Db(), found, k)
      {
        OthersKeep(Db(), others(k), found, k);
        Interfere(others(k));
        ReconcileKeeps(Db(), found, k, clock(k));
        var moved, r := ResolveTx(found[k], clock(k));
        if moved {
          reconciled := reconciled + 1;
        }
        ExtendTrace(start, stuck, others, clock, trace, r);
        trace := trace + [r];
      }
      TraceFaithful(start, stuck, others, clock, trace);
    }
  }
}
