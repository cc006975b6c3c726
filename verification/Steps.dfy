/** Each kind of step, and then every run, keeps the invariant. */
module Steps {
  import opened Events
  import opened Stock
  import opened Outbox
  import opened System
  import opened Views
  import opened Invariant
  import R = RestaurantService
  import P = PaymentService
  import O = OrderService

  /** The one order a step can be about. */
  function Subject(step: Step): Option<OrderId> {
    match step
    case CreateOrder(id, _, _) => Some(id)
    case RestaurantHandles(e, _) => Some(e.order)
    case FinishRelease(r) => Some(r.e.order)
    case OrderHandles(e, _) => Some(e.order)
    case RecordIntent(e) => Some(e.order)
    case RecordOutcome(order, _) => Some(order)
    case Reconcile(c, _) => Some(c.order)
    case _ => None
  }

  /** Nothing happened to any order, except that handlers in flight may have died. */
  ghost predicate Quiet(s: State, s': State) {
    && Books(s')
    && (forall o :: SameOrGrounded(ViewOf(s, o), ViewOf(s', o)))
    && PendingRows(s') <= PendingRows(s)
    && s'.restaurant.stock == s.restaurant.stock
    && s'.orders.orders == s.orders.orders
  }

  predicate SameOrGrounded(v: View, v': View) {
    v' == v || v' == v.(flight := None)
  }

  lemma QuietKeeps(s: State, s': State)
    requires AllConsistent(s) && Quiet(s, s')
    ensures AllConsistent(s')
    ensures AllOnward(s, s')
  {
    forall o ensures Consistent(o, ViewOf(s', o)) && Onward(o, ViewOf(s, o), ViewOf(s', o)) {
      assert Consistent(o, ViewOf(s, o));
      assert SameOrGrounded(ViewOf(s, o), ViewOf(s', o));
      FlightLost(o, ViewOf(s, o));
    }
  }

  // ---------- the shape of each kind of step ----------

  lemma CreateShape(s: State, id: OrderId, req: O.Request, now: int)
    requires Books(s) && AllConsistent(s)
    ensures var s' := Apply(s, CreateOrder(id, req, now));
      s' == s || Effect(s, s', id)
  {
    if O.Insert(s.orders, id, req, now).outcome == Committed {
      assert Consistent(id, ViewOf(s, id));
      CreateEffect(s, id, req, now);
    }
  }

  lemma PublishShape(s: State, service: Service, a: Action)
    requires Books(s) && Enabled(s, Publish(service, a))
    ensures Quiet(s, Apply(s, Publish(service, a)))
  {
    PublishView(s, service, a);
    PublishBooks(s, service, a);
    PublishPending(s, service, a);
  }

  lemma PublishPending(s: State, service: Service, a: Action)
    requires Enabled(s, Publish(service, a))
    ensures PendingRows(Apply(s, Publish(service, a))) ==
              PendingRows(s) - if a.Finish? && !OutboxOf(s, service)[ChannelOf(s, service).holders[a.relay].row].published then 1 else 0
  {
    if a.Finish? {
      MarkFacts(OutboxOf(s, service), ChannelOf(s, service).holders[a.relay].row);
    }
  }

  lemma RestaurantIdle(s: State, e: Envelope, now: int)
    requires R.Handle(s.restaurant, e, now).outcome != Committed
    ensures WithRestaurant(s, R.Handle(s.restaurant, e, now).db) == s
  {
  }

  lemma RestaurantShape(s: State, e: Envelope, now: int)
    requires Books(s) && RowOf(s, e) && AllConsistent(s) && e.topic in {OrderPlaced, StockRelease}
    ensures var s' := WithRestaurant(s, R.Handle(s.restaurant, e, now).db);
      s' == s || Effect(s, s', e.order)
  {
    R.LedgerCheckRedundant(s.restaurant, e, now);
    if R.Handle(s.restaurant, e, now).outcome == Committed {
      assert Consistent(e.order, ViewOf(s, e.order));
      if e.topic == OrderPlaced {
        PlaceEffect(s, e, now);
      } else {
        ReleaseEffect(s, e);
      }
    } else {
      RestaurantIdle(s, e, now);
    }
  }

  /**
     A release that commits on a row read long ago: if the row has changed since, the event is already in
     the ledger and the primary key undoes everything; otherwise it is the atomic release.
   */
  lemma StaleReadHarmless(s: State, r: Release)
    requires Books(s) && AllConsistent(s) && ReleaseSound(s, r)
    ensures R.ReleaseOrder(s.restaurant, r.e, r.row).db ==
            R.ReleaseOrder(s.restaurant, r.e, R.ReservationOf(s.restaurant, r.e.order)).db
    ensures R.ReleaseOrder(s.restaurant, r.e, r.row).db == R.Handle(s.restaurant, r.e, 0).db
    ensures RowOf(s, r.e)
  {
    var v := ViewOf(s, r.e.order);
    assert Consistent(r.e.order, v);
    RowByTopic(r.e.order, v, r.e);
    AboutMembers(s.orders.outbox, Orders, r.e.order);
    if !v.releaseSeen {
      assert PhaseOf(v) == Failed;
    } else {
      assert r.e.id in s.restaurant.processed;
    }
  }

  /** So it is the atomic handler's step. */
  lemma FinishAsHandle(s: State, r: Release)
    requires Books(s) && AllConsistent(s) && ReleasesSound(s) && r in s.releasing
    ensures Apply(s, FinishRelease(r)) == WithRestaurant(s, R.Handle(s.restaurant, r.e, 0).db).(releasing := s.releasing - {r})
    ensures RowOf(s, r.e) && r.e.topic == StockRelease
  {
    assert ReleaseSound(s, r);
    StaleReadHarmless(s, r);
  }

  lemma FinishShape(s: State, r: Release)
    requires Books(s) && AllConsistent(s) && ReleasesSound(s) && r in s.releasing
    ensures var s' := Apply(s, FinishRelease(r));
      s' == s.(releasing := s'.releasing) || Effect(s, s', r.e.order)
  {
    FinishAsHandle(s, r);
    RestaurantShape(s, r.e, 0);
    var s1 := WithRestaurant(s, R.Handle(s.restaurant, r.e, 0).db);
    if s1 != s {
      Forget(s, s1, Apply(s, FinishRelease(r)), r.e.order);
    }
  }

  /** Dropping what is only in the consumers' memory changes no view. */
  lemma ForgetViews(s1: State, s2: State)
    requires s2 == s1.(releasing := s2.releasing, stuck := s2.stuck)
    ensures forall x :: ViewOf(s2, x) == ViewOf(s1, x)
    ensures PendingRows(s2) == PendingRows(s1) && (Books(s1) ==> Books(s2))
  {
  }

  lemma Forget(s: State, s1: State, s2: State, o: OrderId)
    requires s2 == s1.(releasing := s2.releasing, stuck := s2.stuck)
    requires Effect(s, s1, o)
    ensures Effect(s, s2, o)
  {
    ForgetViews(s1, s2);
    forall x | x != o ensures ViewOf(s2, x) == ViewOf(s, x) {
      assert ViewOf(s1, x) == ViewOf(s, x);
    }
  }

  lemma OrderShape(s: State, e: Envelope, now: int)
    requires Books(s) && RowOf(s, e) && AllConsistent(s) && Enabled(s, OrderHandles(e, now))
    ensures var s' := Apply(s, OrderHandles(e, now));
      s' == s || Effect(s, s', e.order)
  {
    O.LedgerCheckRedundant(s.orders, e, now);
    if O.Transact(s.orders, e, now).outcome == Committed {
      assert Consistent(e.order, ViewOf(s, e.order));
      OrderEffect(s, e, now);
    }
  }

  lemma IntentShape(s: State, e: Envelope)
    requires Books(s) && RowOf(s, e) && AllConsistent(s) && Enabled(s, RecordIntent(e))
    ensures var s' := Apply(s, RecordIntent(e));
      s' == s || Effect(s, s', e.order)
  {
    if P.RecordIntent(s.payments, e).outcome == Committed {
      assert Consistent(e.order, ViewOf(s, e.order));
      IntentEffect(s, e);
    }
  }

  lemma OutcomeShape(s: State, o: OrderId, now: int)
    requires Books(s) && AllConsistent(s) && Enabled(s, RecordOutcome(o, now))
    ensures Effect(s, Apply(s, RecordOutcome(o, now)), o)
  {
    assert Consistent(o, ViewOf(s, o));
    OutcomeEffect(s, s.flights[o], now, s.flights - {o});
  }

  lemma ReconcileShape(s: State, c: P.Charge, now: int)
    requires Books(s) && AllConsistent(s) && StuckSound(s) && Enabled(s, Reconcile(c, now))
    ensures var s' := Apply(s, Reconcile(c, now));
      s' == s.(stuck := s'.stuck) || Effect(s, s', c.order)
  {
    if P.Stuck(s.payments, c.order) {
      assert Consistent(c.order, ViewOf(s, c.order));
      OutcomeEffect(s, c, now, s.flights);
      Forget(s, s.(payments := P.Reconcile(s.payments, c, now)), Apply(s, Reconcile(c, now)), c.order);
    }
  }

  lemma MemoryShape(s: State, s': State)
    requires Books(s)
    requires s' == s.(flights := s'.flights, stuck := s'.stuck, releasing := s'.releasing)
    requires s'.flights.Keys <= s.flights.Keys && forall o :: o in s'.flights ==> s'.flights[o] == s.flights[o]
    ensures Quiet(s, s')
  {
    forall o ensures SameOrGrounded(ViewOf(s, o), ViewOf(s', o)) {
    }
  }

  /** The events a step works on have been sent, so they are rows. */
  ghost predicate Grounded(s: State, step: Step) {
    match step
    case RestaurantHandles(e, _) => RowOf(s, e)
    case ReadReservation(e) => RowOf(s, e)
    case OrderHandles(e, _) => RowOf(s, e)
    case RecordIntent(e) => RowOf(s, e)
    case _ => true
  }

  lemma EnabledGrounded(s: State, step: Step)
    requires RelayInv(s) && Enabled(s, step)
    ensures Grounded(s, step)
  {
    match step
    case RestaurantHandles(e, _) => SentIsRow(s, e);
    case ReadReservation(e) => SentIsRow(s, e);
    case OrderHandles(e, _) => SentIsRow(s, e);
    case RecordIntent(e) => SentIsRow(s, e);
    case _ =>
  }

  /** Steps that only remember or forget something, or fail. */
  predicate InMemoryOnly(step: Step) {
    step.ReadReservation? || step.Snapshot? || step.Crash? || step.Fault?
  }

  lemma MemoryStep(s: State, step: Step)
    requires Books(s) && Enabled(s, step) && InMemoryOnly(step)
    ensures Quiet(s, Apply(s, step))
  {
    MemoryShape(s, Apply(s, step));
  }

  /** A step that changes no order at all is quiet. */
  ghost predicate Touches(s: State, s': State, step: Step) {
    Subject(step).Some? && Effect(s, s', Subject(step).value)
  }

  lemma OrderSideShape(s: State, step: Step)
    requires Books(s) && AllConsistent(s) && Enabled(s, step) && Grounded(s, step)
    requires step.CreateOrder? || step.OrderHandles? || step.RestaurantHandles?
    ensures Apply(s, step) == s || Touches(s, Apply(s, step), step)
  {
    match step
    case CreateOrder(id, req, now) => CreateShape(s, id, req, now);
    case OrderHandles(e, now) => OrderShape(s, e, now);
    case RestaurantHandles(e, now) => RestaurantShape(s, e, now);
  }

  lemma PaymentSideShape(s: State, step: Step)
    requires Books(s) && AllConsistent(s) && StuckSound(s) && ReleasesSound(s) && Enabled(s, step) && Grounded(s, step)
    requires step.RecordIntent? || step.RecordOutcome? || step.Reconcile? || step.FinishRelease?
    ensures var s' := Apply(s, step);
      s' == s.(stuck := s'.stuck, releasing := s'.releasing) || Touches(s, s', step)
  {
    match step
    case RecordIntent(e) => IntentShape(s, e);
    case RecordOutcome(o, now) => OutcomeShape(s, o, now);
    case Reconcile(c, now) => ReconcileShape(s, c, now);
    case FinishRelease(r) => FinishShape(s, r);
  }

  lemma ShapeOfStep(s: State, step: Step)
    requires Books(s) && AllConsistent(s) && StuckSound(s) && ReleasesSound(s)
    requires Enabled(s, step) && Grounded(s, step)
    ensures Quiet(s, Apply(s, step)) || Touches(s, Apply(s, step), step)
  {
    var s' := Apply(s, step);
    if InMemoryOnly(step) {
      MemoryStep(s, step);
    } else if step.Publish? {
      PublishShape(s, step.service, step.a);
    } else {
      if step.CreateOrder? || step.OrderHandles? || step.RestaurantHandles? {
        OrderSideShape(s, step);
      } else {
        PaymentSideShape(s, step);
      }
      if s' == s.(stuck := s'.stuck, releasing := s'.releasing) {
        MemoryShape(s, s');
      }
    }
  }

  // ---------- the payment handler as steps ----------

  /** The complete handler is its two steps, and the handler that dies in between is the first of them. */
  lemma HandlerAsSteps(s: State, e: Envelope, now: int)
    requires Enabled(s, RecordIntent(e))
    ensures var s1 := Apply(s, RecordIntent(e));
      && s1.payments == P.Handle(s.payments, e, now, true).db
      && (P.Handle(s.payments, e, now, true).outcome != Committed ==> s1 == s && P.Handle(s.payments, e, now, false).db == s.payments)
      && (P.Handle(s.payments, e, now, true).outcome == Committed ==>
            && Enabled(s1, RecordOutcome(e.order, now))
            && Apply(s1, RecordOutcome(e.order, now)) ==
               s.(payments := P.Handle(s.payments, e, now, false).db, flights := s.flights - {e.order}))
  {
    var s1 := Apply(s, RecordIntent(e));
    if P.RecordIntent(s.payments, e).outcome == Committed {
      assert s1.flights - {e.order} == s.flights - {e.order};
    }
  }

  lemma RunPrepend(s: State, step: Step, rest: seq<Step>)
    requires Enabled(s, step) && Valid(Apply(s, step), rest)
    ensures Valid(s, [step] + rest)
    ensures Run(s, [step] + rest) == Run(Apply(s, step), rest)
  {
    assert ([step] + rest)[1..] == rest;
  }

  /** Processes that lose everything they had in memory. */
  const CRASH := Crash({}, {}, {})

  function Amnesia(s: State): State {
    s.(flights := map[], stuck := {}, releasing := {})
  }

  lemma QueryStuck(s: State, c: P.Charge)
    requires P.Stuck(s.payments, c.order) && P.Holds(s.payments, c)
    ensures Enabled(s, Snapshot({c.order})) && Apply(s, Snapshot({c.order})) == s.(stuck := s.stuck + {c})
  {
    assert (set o | o in {c.order} :: P.Remembered(s.payments, o)) == {c};
  }

  /** After a crash, a payment left half done is found and settled. */
  lemma CrashThenReconcile(s: State, c: P.Charge, now: int)
    requires P.Stuck(s.payments, c.order) && P.Holds(s.payments, c)
    ensures var steps := [CRASH] + ([Snapshot({c.order})] + ([Reconcile(c, now)] + []));
      Valid(s, steps) && Run(s, steps) == Amnesia(s).(payments := P.RecordOutcome(s.payments, c, now))
  {
    var s1 := Amnesia(s);
    var s2 := s1.(stuck := {c});
    var s3 := s1.(payments := P.RecordOutcome(s.payments, c, now));
    assert Apply(s, CRASH) == s1;
    QueryStuck(s1, c);
    assert s1.stuck + {c} == s2.stuck;
    assert Apply(s2, Reconcile(c, now)) == s3 by {
      assert s2.stuck - {c} == s1.stuck;
    }
    RunPrepend(s2, Reconcile(c, now), []);
    RunPrepend(s1, Snapshot({c.order}), [Reconcile(c, now)] + []);
    RunPrepend(s, CRASH, [Snapshot({c.order})] + ([Reconcile(c, now)] + []));
  }

  /**
   What reconciliation is for: when the process dies between the two transactions, the reconciler's query
   and its transaction leave the payment database that the complete handler would have left.
   */
  lemma ReconciledAsHandled(s: State, e: Envelope, now: int) returns (steps: seq<Step>)
    requires Enabled(s, RecordIntent(e)) && P.Handle(s.payments, e, now, true).outcome == Committed
    ensures steps == [RecordIntent(e), CRASH, Snapshot({e.order}), Reconcile(P.Charge(e.order, e.body.amount, e.body.simulate), now)]
    ensures Valid(s, steps)
    ensures Run(s, steps) == Amnesia(s).(payments := P.Handle(s.payments, e, now, false).db)
  {
    var c := P.Charge(e.order, e.body.amount, e.body.simulate);
    CrashThenReconcile(Apply(s, RecordIntent(e)), c, now);
    var rest := [CRASH] + ([Snapshot({c.order})] + ([Reconcile(c, now)] + []));
    RunPrepend(s, RecordIntent(e), rest);
    steps := [RecordIntent(e)] + rest;
  }

  /** A crash takes any part of what was in memory and nothing else; the reconciler's query remembers each stuck row it found. */
  lemma MemoryExactly(s: State, flights: set<OrderId>, stuck: set<P.Charge>, releasing: set<Release>, found: set<OrderId>)
    requires Enabled(s, Snapshot(found))
    ensures var s' := Apply(s, Crash(flights, stuck, releasing));
      && s' == s.(flights := s'.flights, stuck := s'.stuck, releasing := s'.releasing)
      && (forall o :: o in s'.flights <==> o in s.flights && o in flights)
      && (forall o :: o in s'.flights ==> s'.flights[o] == s.flights[o])
      && (forall c :: c in s'.stuck <==> c in s.stuck && c in stuck)
      && (forall r :: r in s'.releasing <==> r in s.releasing && r in releasing)
    ensures var s' := Apply(s, Snapshot(found));
      && s' == s.(stuck := s'.stuck)
      && forall c: P.Charge :: c in s'.stuck <==> c in s.stuck || (c.order in found && P.Holds(s.payments, c))
  {
    var s' := Apply(s, Snapshot(found));
    forall c: P.Charge ensures c in s'.stuck <==> c in s.stuck || (c.order in found && P.Holds(s.payments, c)) {
      if c.order in found {
        assert P.Stuck(s.payments, c.order);
      }
    }
  }

  // ---------- the invariant ----------

  lemma StepConserves(seed: map<ItemId, int>, s: State, step: Step)
    requires R.Conserved(seed, s.restaurant) && Books(s) && AllConsistent(s) && ReleasesSound(s) && Enabled(s, step)
    ensures R.Conserved(seed, Apply(s, step).restaurant)
  {
    match step
    case RestaurantHandles(e, now) => R.TransactConserves(seed, s.restaurant, e, now);
    case FinishRelease(r) =>
      FinishAsHandle(s, r);
      R.TransactConserves(seed, s.restaurant, r.e, 0);
    case _ =>
  }

  lemma StepKeysUnique(s: State, step: Step)
    requires O.KeysUnique(s.orders.orders) && Enabled(s, step)
    ensures O.KeysUnique(Apply(s, step).orders.orders)
  {
    match step
    case CreateOrder(id, req, now) => O.InsertKeepsKeysUnique(s.orders, id, req, now);
    case OrderHandles(e, now) => O.HandleKeepsKeysUnique(s.orders, e, now);
    case _ =>
  }

  /** Payment rows are never deleted and their directive is never changed, so what was remembered stays right. */
  lemma StepStuckSound(s: State, step: Step)
    requires StuckSound(s) && Enabled(s, step)
    ensures StuckSound(Apply(s, step))
  {
  }

  lemma StepReleases(s: State, step: Step)
    requires Books(s) && AllConsistent(s) && ReleasesSound(s) && Enabled(s, step) && Grounded(s, step)
    requires AllOnward(s, Apply(s, step))
    ensures ReleasesSound(Apply(s, step))
  {
    var s' := Apply(s, step);
    if step.ReadReservation? {
      ReadSound(s, step.e);
      forall r | r in s'.releasing ensures ReleaseSound(s', r) {
        assert ReleaseSound(s, r);
      }
    } else {
      ReleasesKept(s, s');
    }
  }

  /** Reading the reservation row: what was read is right now, and that will be enough later. */
  lemma ReadSound(s: State, e: Envelope)
    requires AllConsistent(s) && RowOf(s, e) && Enabled(s, ReadReservation(e))
    ensures ReleaseSound(s, Release(e, R.ReservationOf(s.restaurant, e.order)))
  {
    var v := ViewOf(s, e.order);
    assert Consistent(e.order, v);
    ViewRow(s, e);
    RowByTopic(e.order, v, e);
    assert !v.releaseSeen;
  }

  /** Every order moves on or stays where it is, and stays consistent. */
  lemma OrdersMoveOn(s: State, s': State, step: Step)
    requires AllConsistent(s)
    requires Quiet(s, s') || Touches(s, s', step)
    ensures AllConsistent(s')
    ensures AllOnward(s, s')
  {
    if Quiet(s, s') {
      QuietKeeps(s, s');
    } else {
      TouchKeeps(s, s', Subject(step).value);
    }
  }

  lemma TouchKeeps(s: State, s': State, o: OrderId)
    requires AllConsistent(s) && Effect(s, s', o)
    ensures AllConsistent(s')
    ensures AllOnward(s, s')
  {
    forall x ensures Consistent(x, ViewOf(s', x)) && Onward(x, ViewOf(s, x), ViewOf(s', x)) {
      assert Consistent(x, ViewOf(s, x));
    }
  }

  /** One step of any kind keeps the saga invariant. */
  lemma StepKeepsSaga(seed: map<ItemId, int>, s: State, step: Step)
    requires SagaInv(seed, s) && Enabled(s, step) && Grounded(s, step)
    ensures SagaInv(seed, Apply(s, step))
    ensures AllOnward(s, Apply(s, step))
  {
    ShapeOfStep(s, step);
    OrdersMoveOn(s, Apply(s, step), step);
    StepConserves(seed, s, step);
    StepKeysUnique(s, step);
    StepStuckSound(s, step);
    StepReleases(s, step);
  }

  // ---------- relay accounts ----------

  /** What a step does to one outbox and its relays: nothing, one relay action or one new row. */
  ghost predicate OutboxMoved(service: Service, rows: seq<Row>, ch: Channel, rows': seq<Row>, ch': Channel) {
    || (rows' == rows && ch' == ch)
    || (exists a :: CanAct(rows, ch, a) && rows' == ActRows(rows, ch, a) && ch' == ActChannel(rows, ch, a))
    || (exists topic, o, body, now :: rows' == Emit(rows, service, topic, o, body, now) && ch' == ch)
  }

  lemma StepMovesOutbox(s: State, step: Step, service: Service)
    requires Enabled(s, step)
    ensures var s' := Apply(s, step);
      OutboxMoved(service, OutboxOf(s, service), ChannelOf(s, service), OutboxOf(s', service), ChannelOf(s', service))
  {
  }

  lemma MoveKeepsAccount(service: Service, rows: seq<Row>, ch: Channel, rows': seq<Row>, ch': Channel)
    requires Accounted(rows, service, ch) && OutboxMoved(service, rows, ch, rows', ch')
    ensures Accounted(rows', service, ch')
  {
    if a :| CanAct(rows, ch, a) && rows' == ActRows(rows, ch, a) && ch' == ActChannel(rows, ch, a) {
      ActKeepsAccount(rows, service, ch, a);
    } else if topic, o, body, now :| rows' == Emit(rows, service, topic, o, body, now) && ch' == ch {
      EmitKeepsAccount(rows, service, ch, topic, o, body, now);
    }
  }

  lemma StepKeepsAccounts(s: State, step: Step)
    requires RelayInv(s) && Enabled(s, step)
    ensures RelayInv(Apply(s, step))
  {
    forall service ensures Booked(Apply(s, step), service) {
      assert Booked(s, service);
      StepMovesOutbox(s, step, service);
      MoveKeepsAccount(service, OutboxOf(s, service), ChannelOf(s, service),
                       OutboxOf(Apply(s, step), service), ChannelOf(Apply(s, step), service));
    }
  }

  // ---------- all runs ----------

  lemma StepKeeps(seed: map<ItemId, int>, s: State, step: Step)
    requires Inv(seed, s) && Enabled(s, step)
    ensures Inv(seed, Apply(s, step))
    ensures AllOnward(s, Apply(s, step))
  {
    EnabledGrounded(s, step);
    StepKeepsSaga(seed, s, step);
    StepKeepsAccounts(s, step);
  }

  lemma InitInv(seed: map<ItemId, int>)
    requires WellStocked(seed)
    ensures Inv(seed, Init(seed))
  {
    var s := Init(seed);
    forall id | id in seed ensures s.restaurant.stock[id] + Held(s.restaurant.reservations, id) == seed[id] {
      assert Demands(s.restaurant.reservations, id) == map[];
    }
    forall service ensures Booked(s, service) {
    }
  }

  lemma {:induction false} RunKeeps(seed: map<ItemId, int>, s: State, steps: seq<Step>)
    requires Inv(seed, s) && Valid(s, steps)
    ensures Inv(seed, Run(s, steps))
    decreases |steps|
  {
    if steps != [] {
      StepKeeps(seed, s, steps[0]);
      RunKeeps(seed, Apply(s, steps[0]), steps[1..]);
    }
  }

  /** Every state the system can reach satisfies the invariant. */
  lemma Reachable(seed: map<ItemId, int>, steps: seq<Step>)
    requires WellStocked(seed) && Valid(Init(seed), steps)
    ensures Inv(seed, Run(Init(seed), steps))
  {
    InitInv(seed);
    RunKeeps(seed, Init(seed), steps);
  }
}
