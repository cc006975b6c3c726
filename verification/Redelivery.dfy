/**
 Exactly-once effect: whatever the schedule of attempts, each service's database is what handling every
 event once would have left, and racing copies of an event add nothing to it.
 */
module Redelivery {
  import opened Events
  import opened Gateway
  import opened Stock
  import opened Consumers
  import opened Outbox
  import R = RestaurantService
  import P = PaymentService
  import O = OrderService

  // ---------- order service ----------

  /** Delivering the event does nothing and never will. */
  predicate OrderIdle(db: O.OrderDb, e: Envelope) {
    || e.id in db.processed
    || O.TargetOf(e.topic).None?
    || e.order !in db.orders
    || db.orders[e.order].status != O.Pending
  }

  lemma OrdersExactlyOnce(db: O.OrderDb, ds: seq<Delivery>)
    requires IdsIdentify(ds)
    ensures Fold(O.Deliver, db, ds) == Fold(O.Deliver, db, FirstOccurrences(ds))
  {
    assert Idempotent(O.Deliver, (x: O.OrderDb) => true, OrderIdle, ds);
    ExactlyOnce(O.Deliver, (x: O.OrderDb) => true, OrderIdle, db, ds);
  }

  // ---------- payment service ----------

  predicate PaymentIdle(db: P.PaymentDb, e: Envelope) {
    || e.id in db.processed
    || !e.body.OrderBody?
    || !Fits(e.body.simulate, P.SIMULATE_WIDTH)
    || e.order in db.payments
  }

  /** A delivery that stops after Transaction 1 is the delivery that counts; repeating it completes nothing. */
  lemma PaymentsExactlyOnce(db: P.PaymentDb, ds: seq<Delivery>)
    requires IdsIdentify(ds)
    ensures Fold(P.Deliver, db, ds) == Fold(P.Deliver, db, FirstOccurrences(ds))
  {
    assert Idempotent(P.Deliver, (x: P.PaymentDb) => true, PaymentIdle, ds);
    ExactlyOnce(P.Deliver, (x: P.PaymentDb) => true, PaymentIdle, db, ds);
  }

  // ---------- restaurant service ----------

  /**
   What the restaurant's ledger needs: one order.placed event per order, with quantities >= 0. Then no
   transaction is swallowed or aborted, so every event that does something is entered in the ledger.
   */
  ghost predicate OnePlacedEach(events: set<Envelope>) {
    && (forall e :: e in events && e.topic == OrderPlaced && e.body.OrderBody? ==> NonNegative(e.body.items))
    && forall e, f :: e in events && f in events && e.topic == OrderPlaced && f.topic == OrderPlaced && e.order == f.order ==> e == f
  }

  predicate StockIdle(db: R.RestaurantDb, e: Envelope) {
    || e.id in db.processed
    || e.topic !in {OrderPlaced, StockRelease}
    || (e.topic == OrderPlaced && !e.body.OrderBody?)
  }

  /** Reservations come only from these events, and those are in the ledger. */
  ghost predicate Traceable(seed: map<ItemId, int>, events: set<Envelope>, db: R.RestaurantDb) {
    && R.Conserved(seed, db)
    && (forall o :: o in db.reservations ==> NonNegative(db.reservations[o]))
    && forall e :: e in events && e.topic == OrderPlaced && e.order in db.reservations ==> e.id in db.processed
  }

  /** An event that is not idle commits when it is delivered. */
  lemma FirstDeliveryCommits(seed: map<ItemId, int>, events: set<Envelope>, db: R.RestaurantDb, d: Delivery)
    requires WellStocked(seed) && OnePlacedEach(events) && Traceable(seed, events, db) && d.e in events && !StockIdle(db, d.e)
    ensures R.Handle(db, d.e, d.now).outcome == Committed
  {
    if d.e.topic == OrderPlaced {
      R.PlaceCommits(db, d.e, d.now);
    } else if d.e.order in db.reservations {
      R.ReleaseCommits(seed, db, d.e);
    }
  }

  lemma DeliverIdles(seed: map<ItemId, int>, events: set<Envelope>, db: R.RestaurantDb, d: Delivery)
    requires WellStocked(seed) && OnePlacedEach(events) && Traceable(seed, events, db) && d.e in events
    ensures StockIdle(R.Deliver(db, d), d.e)
  {
    if !StockIdle(db, d.e) {
      FirstDeliveryCommits(seed, events, db, d);
    }
  }

  /** Reservations appear only with their own event, which is then in the ledger. */
  lemma DeliverReserves(events: set<Envelope>, db: R.RestaurantDb, d: Delivery, o: OrderId)
    requires OnePlacedEach(events) && d.e in events
    requires o in R.Deliver(db, d).reservations
    ensures var db' := R.Deliver(db, d);
      || (o in db.reservations && db'.reservations[o] == db.reservations[o] && db.processed <= db'.processed)
      || (d.e.topic == OrderPlaced && d.e.order == o && d.e.id in db'.processed && NonNegative(db'.reservations[o]))
  {
  }

  lemma DeliverTraceable(seed: map<ItemId, int>, events: set<Envelope>, db: R.RestaurantDb, d: Delivery)
    requires WellStocked(seed) && OnePlacedEach(events) && Traceable(seed, events, db) && d.e in events
    ensures Traceable(seed, events, R.Deliver(db, d))
  {
    var db' := R.Deliver(db, d);
    R.TransactConserves(seed, db, d.e, d.now);
    forall o | o in db'.reservations ensures NonNegative(db'.reservations[o]) {
      DeliverReserves(events, db, d, o);
    }
    forall e | e in events && e.topic == OrderPlaced && e.order in db'.reservations ensures e.id in db'.processed {
      DeliverReserves(events, db, d, e.order);
    }
  }

  /** What is idle stays idle, and delivering it does nothing. */
  lemma StockIdleStays(db: R.RestaurantDb, d: Delivery, e: Envelope)
    requires StockIdle(db, e)
    ensures StockIdle(R.Deliver(db, d), e)
    ensures d.e == e ==> R.Deliver(db, d) == db
  {
  }

  lemma RestaurantIdempotent(seed: map<ItemId, int>, events: set<Envelope>, ds: seq<Delivery>)
    requires WellStocked(seed) && OnePlacedEach(events) && Among(ds, events)
    ensures Idempotent(R.Deliver, (x: R.RestaurantDb) => Traceable(seed, events, x), StockIdle, ds)
  {
    forall db, d | Traceable(seed, events, db) && d in ds
      ensures Traceable(seed, events, R.Deliver(db, d)) && StockIdle(R.Deliver(db, d), d.e)
    {
      DeliverTraceable(seed, events, db, d);
      DeliverIdles(seed, events, db, d);
    }
    forall db, d: Delivery, e | StockIdle(db, e)
      ensures StockIdle(R.Deliver(db, d), e)
    {
      StockIdleStays(db, d, e);
    }
    forall db, d: Delivery | StockIdle(db, d.e)
      ensures R.Deliver(db, d) == db
    {
      StockIdleStays(db, d, d.e);
    }
  }

  lemma RestaurantExactlyOnce(seed: map<ItemId, int>, events: set<Envelope>, db: R.RestaurantDb, ds: seq<Delivery>)
    requires WellStocked(seed) && OnePlacedEach(events) && Traceable(seed, events, db)
    requires IdsIdentify(ds) && Among(ds, events)
    ensures Fold(R.Deliver, db, ds) == Fold(R.Deliver, db, FirstOccurrences(ds))
  {
    RestaurantIdempotent(seed, events, ds);
    ExactlyOnce(R.Deliver, (x: R.RestaurantDb) => Traceable(seed, events, x), StockIdle, db, ds);
  }

  // ---------- the polling loops ----------

  lemma LoopSchedule(logs: seq<seq<Envelope>>, from: seq<nat>, rounds: seq<Round>)
    requires Within(logs, from) && Keyed(logs)
    ensures IdsIdentify(Schedule(logs, from, rounds)) && Among(Schedule(logs, from, rounds), EventsIn(logs))
    ensures Faultless(rounds) ==> Seamless(logs, from, rounds)
  {
    ScheduleAmong(logs, from, rounds);
    AmongIdentify(Schedule(logs, from, rounds), EventsIn(logs));
    if Faultless(rounds) {
      forall p: nat | p < |logs|
        ensures Those(Envelopes(FirstOccurrences(Schedule(logs, from, rounds))), logs[p]) ==
                Distinct(logs[p], from[p], Furthest(logs, from, rounds, p))
      {
        RestartsInvisible(logs, from, rounds, p);
      }
    }
  }

  /** Leaving out repeats, the loop went through each partition in order, up to the furthest message reached. */
  ghost predicate Seamless(logs: seq<seq<Envelope>>, from: seq<nat>, rounds: seq<Round>)
    requires Within(logs, from)
  {
    forall p: nat :: p < |logs| ==>
      Those(Envelopes(FirstOccurrences(Schedule(logs, from, rounds))), logs[p]) ==
      Distinct(logs[p], from[p], Furthest(logs, from, rounds, p))
  }

  /**
   The restaurant's polling loop, end to end: from the seeded stock and any partitions, over any number
   of restarts, it leaves what handling each event once would leave; without faults, each event of each
   partition up to the furthest message reached, in that partition's order.
   */
  lemma RestaurantLoop(seed: map<ItemId, int>, logs: seq<seq<Envelope>>, from: seq<nat>, rounds: seq<Round>)
    requires WellStocked(seed) && OnePlacedEach(EventsIn(logs)) && Keyed(logs) && Within(logs, from)
    ensures var ds := Schedule(logs, from, rounds);
      var start := R.RestaurantDb(seed, map[], [], {});
      && Fold(R.Deliver, start, ds) == Fold(R.Deliver, start, FirstOccurrences(ds))
      && (Faultless(rounds) ==> Seamless(logs, from, rounds))
  {
    var start := R.RestaurantDb(seed, map[], [], {});
    forall id | id in seed ensures start.stock[id] + Held(start.reservations, id) == seed[id] {
      assert Demands(start.reservations, id) == map[];
    }
    LoopSchedule(logs, from, rounds);
    RestaurantExactlyOnce(seed, EventsIn(logs), start, Schedule(logs, from, rounds));
  }

  lemma OrderLoop(start: O.OrderDb, logs: seq<seq<Envelope>>, from: seq<nat>, rounds: seq<Round>)
    requires Keyed(logs) && Within(logs, from)
    ensures var ds := Schedule(logs, from, rounds);
      && Fold(O.Deliver, start, ds) == Fold(O.Deliver, start, FirstOccurrences(ds))
      && (Faultless(rounds) ==> Seamless(logs, from, rounds))
  {
    LoopSchedule(logs, from, rounds);
    OrdersExactlyOnce(start, Schedule(logs, from, rounds));
  }

  lemma PaymentLoop(start: P.PaymentDb, logs: seq<seq<Envelope>>, from: seq<nat>, rounds: seq<Round>)
    requires Keyed(logs) && Within(logs, from)
    ensures var ds := Schedule(logs, from, rounds);
      && Fold(P.Deliver, start, ds) == Fold(P.Deliver, start, FirstOccurrences(ds))
      && (Faultless(rounds) ==> Seamless(logs, from, rounds))
  {
    LoopSchedule(logs, from, rounds);
    PaymentsExactlyOnce(start, Schedule(logs, from, rounds));
  }

  // ---------- what a schedule leaves of each payment ----------

  const NO_PAYMENTS := P.PaymentDb(map[], [], {})

  /** A delivery of an event that can be recorded as the order's payment. */
  predicate Charges(d: Delivery, o: OrderId) {
    d.e.order == o && P.Payable(d.e)
  }

  /** The first of them. */
  predicate FirstCharge(ds: seq<Delivery>, j: nat, o: OrderId) {
    && j < |ds| && Charges(ds[j], o)
    && forall i :: 0 <= i < j ==> !Charges(ds[i], o)
  }

  /** The payment as that delivery leaves it for good: half done if it stopped early, otherwise settled and announced once. */
  predicate AsCharged(db: P.PaymentDb, d: Delivery)
    requires d.e.body.OrderBody?
  {
    var o, declined := d.e.order, Declined(d.e.body.simulate);
    var status := if d.halts then P.Processing else if declined then P.Failed else P.Succeeded;
    var rows := About(db.outbox, o);
    && o in db.payments && db.payments[o] == P.Payment(d.e.body.amount, status, d.e.body.simulate)
    && (if d.halts then rows == []
        else |rows| == 1 && rows[0].topic == if declined then PaymentFailed else PaymentSucceeded)
  }

  /** What the deliveries have left of one order's payment. */
  ghost predicate ChargedBy(db: P.PaymentDb, ds: seq<Delivery>, o: OrderId) {
    && (forall j: nat :: FirstCharge(ds, j, o) ==> AsCharged(db, ds[j]))
    && ((forall j: nat :: !FirstCharge(ds, j, o)) ==> o !in db.payments && About(db.outbox, o) == [])
  }

  /** The ledger holds only events that were recorded. */
  ghost predicate LedgerOf(db: P.PaymentDb, ds: seq<Delivery>) {
    forall id :: id in db.processed ==> exists k :: 0 <= k < |ds| && ds[k].e.id == id && P.Payable(ds[k].e)
  }

  lemma {:induction false} WhoChargesFirst(ds: seq<Delivery>, k: nat, o: OrderId) returns (j: nat)
    requires k < |ds| && Charges(ds[k], o)
    ensures FirstCharge(ds, j, o)
  {
    if i: nat :| i < k && Charges(ds[i], o) {
      j := WhoChargesFirst(ds, i, o);
    } else {
      j := k;
    }
  }

  /** What one delivery does to one order. */
  lemma DeliverCharge(db: P.PaymentDb, d: Delivery, o: OrderId)
    ensures var db' := P.Deliver(db, d);
      if Charges(d, o) && d.e.id !in db.processed && o !in db.payments then
        About(db.outbox, o) == [] ==> AsCharged(db', d)
      else
        && About(db'.outbox, o) == About(db.outbox, o)
        && (o in db'.payments <==> o in db.payments)
        && (o in db.payments ==> db'.payments[o] == db.payments[o])
  {
    P.HandlerRun(db, d.e, d.now, d.halts);
    if P.Handle(db, d.e, d.now, d.halts).outcome == Committed && !d.halts {
      var topic := if Declined(d.e.body.simulate) then PaymentFailed else PaymentSucceeded;
      EmitFacts(db.outbox, Payments, topic, d.e.order, EmptyBody, d.now);
    }
  }

  lemma LedgerNext(db: P.PaymentDb, ds: seq<Delivery>, d: Delivery)
    requires LedgerOf(db, ds)
    ensures LedgerOf(P.Deliver(db, d), ds + [d])
  {
    P.HandlerRun(db, d.e, d.now, d.halts);
    assert (ds + [d])[|ds|] == d;
    assert forall k :: 0 <= k < |ds| ==> (ds + [d])[k] == ds[k];
  }

  lemma FirstChargeNext(ds: seq<Delivery>, d: Delivery, j: nat, o: OrderId)
    requires FirstCharge(ds + [d], j, o)
    ensures j < |ds| ==> FirstCharge(ds, j, o)
    ensures j == |ds| ==> Charges(d, o) && forall i: nat :: !FirstCharge(ds, i, o)
  {
    assert forall k :: 0 <= k < |ds| ==> (ds + [d])[k] == ds[k];
  }

  lemma ChargeNext(db: P.PaymentDb, ds: seq<Delivery>, d: Delivery, o: OrderId)
    requires IdsIdentify(ds + [d]) && LedgerOf(db, ds) && ChargedBy(db, ds, o)
    ensures ChargedBy(P.Deliver(db, d), ds + [d], o)
  {
    var db', ds' := P.Deliver(db, d), ds + [d];
    DeliverCharge(db, d, o);
    if Charges(d, o) && d.e.id in db.processed {
      var k :| 0 <= k < |ds| && ds[k].e.id == d.e.id && P.Payable(ds[k].e);
      assert ds'[k].e == ds'[|ds|].e;
      var j := WhoChargesFirst(ds, k, o);
    }
    forall j: nat | FirstCharge(ds', j, o) ensures AsCharged(db', ds'[j]) {
      FirstChargeNext(ds, d, j, o);
    }
    if forall j: nat :: !FirstCharge(ds', j, o) {
      NoneNext(ds, d, o);
    }
  }

  lemma NoneNext(ds: seq<Delivery>, d: Delivery, o: OrderId)
    requires forall j: nat :: !FirstCharge(ds + [d], j, o)
    ensures !Charges(d, o) && forall j: nat :: !FirstCharge(ds, j, o)
  {
    var ds' := ds + [d];
    if k: nat :| k < |ds'| && Charges(ds'[k], o) {
      var j := WhoChargesFirst(ds', k, o);
    }
    assert !Charges(ds'[|ds|], o);
    assert forall k :: 0 <= k < |ds| ==> ds'[k] == ds[k];
  }

  ghost predicate Charged(db: P.PaymentDb, ds: seq<Delivery>, o: OrderId) {
    LedgerOf(db, ds) && ChargedBy(db, ds, o)
  }

  lemma ChargedNext(db: P.PaymentDb, ds: seq<Delivery>, d: Delivery, o: OrderId)
    requires IdsIdentify(ds + [d]) && Charged(db, ds, o)
    ensures Charged(P.Deliver(db, d), ds + [d], o)
  {
    LedgerNext(db, ds, d);
    ChargeNext(db, ds, d, o);
  }

  lemma NothingCharged(o: OrderId)
    ensures Charged(NO_PAYMENTS, [], o)
  {
  }

  /** Each payment is what its first recordable delivery made of it, whatever came later. */
  lemma {:induction false} FirstChargeCounts(ds: seq<Delivery>, o: OrderId)
    requires IdsIdentify(ds)
    ensures Charged(Fold(P.Deliver, NO_PAYMENTS, ds), ds, o)
  {
    if ds == [] {
      NothingCharged(o);
    } else {
      var n := |ds| - 1;
      FirstChargeCounts(ds[..n], o);
      assert ds == ds[..n] + [ds[n]];
      ChargedNext(Fold(P.Deliver, NO_PAYMENTS, ds[..n]), ds[..n], ds[n], o);
    }
  }

  /** What the attempts behind the deliveries say about one order's payment. */
  ghost predicate HaltsShow(db: P.PaymentDb, ds: seq<Delivery>, ts: seq<Try>, o: OrderId) {
    && |ts| == |ds|
    && (o in db.payments <==> exists j: nat :: FirstCharge(ds, j, o))
    && (P.Stuck(db, o) <==> exists j: nat :: FirstCharge(ds, j, o) && ts[j].result == Halted)
    && |About(db.outbox, o)| == (if P.Resolved(db, o) then 1 else 0)
    && forall j: nat :: FirstCharge(ds, j, o) ==> AsCharged(db, ds[j])
  }

  lemma HaltsOf(logs: seq<seq<Envelope>>, db: P.PaymentDb, ds: seq<Delivery>, ts: seq<Try>, o: OrderId)
    requires ChargedBy(db, ds, o) && RunsOf(logs, ds, ts)
    ensures HaltsShow(db, ds, ts, o)
  {
    if j: nat :| FirstCharge(ds, j, o) {
      assert AsCharged(db, ds[j]) && RunOf(logs, ds[j], ts[j]);
      forall i: nat | FirstCharge(ds, i, o) ensures i == j {
      }
    }
  }

  /**
   The loop from an empty payment database: a payment is PROCESSING exactly if the attempt that first
   recorded it got no further than Transaction 1, and has its one outcome event exactly if it got to the end.
   */
  lemma HaltedExactly(logs: seq<seq<Envelope>>, from: seq<nat>, rounds: seq<Round>, o: OrderId)
    requires Keyed(logs) && Within(logs, from)
    ensures var ds := Schedule(logs, from, rounds);
      HaltsShow(Fold(P.Deliver, NO_PAYMENTS, ds), ds, ScheduleOrigins(logs, from, rounds), o)
  {
    var ds := Schedule(logs, from, rounds);
    LoopSchedule(logs, from, rounds);
    FirstChargeCounts(ds, o);
    RunsGoAsAttempts(logs, from, rounds);
    HaltsOf(logs, Fold(P.Deliver, NO_PAYMENTS, ds), ds, ScheduleOrigins(logs, from, rounds), o);
  }

  predicate AllFinished(tries: seq<Try>) {
    forall t :: t in tries ==> t.result == Finished
  }

  lemma NoHaltNoStuck(db: P.PaymentDb, ds: seq<Delivery>, ts: seq<Try>, o: OrderId)
    requires HaltsShow(db, ds, ts, o) && AllFinished(ts)
    ensures !P.Stuck(db, o) && |About(db.outbox, o)| == if o in db.payments then 1 else 0
  {
  }

  /** If every attempt gets to the end, no payment is left half done and each has exactly one outcome event. */
  lemma FinishedLoopSettles(logs: seq<seq<Envelope>>, from: seq<nat>, rounds: seq<Round>, o: OrderId)
    requires Keyed(logs) && Within(logs, from)
    requires forall i :: 0 <= i < |rounds| ==> AllFinished(rounds[i].tries)
    ensures var db := Fold(P.Deliver, NO_PAYMENTS, Schedule(logs, from, rounds));
      && !P.Stuck(db, o)
      && |About(db.outbox, o)| == if o in db.payments then 1 else 0
  {
    var ds, ts := Schedule(logs, from, rounds), ScheduleOrigins(logs, from, rounds);
    HaltedExactly(logs, from, rounds, o);
    RunsGoAsAttempts(logs, from, rounds);
    assert AllFinished(ts);
    NoHaltNoStuck(Fold(P.Deliver, NO_PAYMENTS, ds), ds, ts, o);
  }

  lemma OneItemAndBack(item: ItemId, n: int)
    requires 0 < n <= INT_MAX
    ensures Deduct(map[item := n], [Item(item, 1)]) == Update(map[item := n - 1], None)
    ensures Restore(map[item := n - 1], [Item(item, 1)]) == Update(map[item := n], None)
  {
    assert [Item(item, 1)][1..] == [];
    assert map[item := n][item := n - 1] == map[item := n - 1];
    assert map[item := n - 1][item := n] == map[item := n];
  }

  /**
   Why one order.placed event per order: a second one is swallowed while the first one's reservation
   stands and is not entered in the ledger, so after the release a redelivery reserves the stock again.
   */
  lemma SecondPlacedEventReservesAgain(item: ItemId, o: OrderId, user: UserId)
    ensures var body := OrderBody(user, [Item(item, 1)], 0, None);
      var first := Delivery(Envelope(EventId(Orders, 0), OrderPlaced, o, body), 0, false);
      var second := Delivery(Envelope(EventId(Orders, 1), OrderPlaced, o, body), 0, false);
      var release := Delivery(Envelope(EventId(Orders, 2), StockRelease, o, EmptyBody), 0, false);
      var db1 := R.Deliver(R.RestaurantDb(map[item := 2], map[], [], {}), first);
      var db2 := R.Deliver(db1, second);
      var db3 := R.Deliver(db2, release);
      var db4 := R.Deliver(db3, second);
      && db2 == db1 && R.Handle(db1, second.e, 0).outcome == Swallowed
      && db3.stock == map[item := 2] && o !in db3.reservations
      && db4.stock == map[item := 1] && o in db4.reservations
  {
    OneItemAndBack(item, 2);
    OneItemAndBack(item, 1);
  }

  // ---------- the stamps of the rows ----------

  ghost predicate StampsRows<Db(!new)>(step: (Db, Delivery) -> Db, rows: Db -> seq<Row>) {
    forall db, d: Delivery :: Stamped(rows(db), rows(step(db, d)), Some(d.now))
  }

  ghost predicate TimesRise(ds: seq<Delivery>) {
    forall i, j :: 0 <= i < j < |ds| ==> ds[i].now < ds[j].now
  }

  predicate WrittenBefore(rows: seq<Row>, ds: seq<Delivery>) {
    forall i, k :: 0 <= i < |rows| && 0 <= k < |ds| ==> rows[i].createdAt < ds[k].now
  }

  ghost predicate RowsUpTo(rows: seq<Row>, start: seq<Row>, ds: seq<Delivery>) {
    forall i :: 0 <= i < |rows| ==>
      || (i < |start| && rows[i].createdAt == start[i].createdAt)
      || exists k :: 0 <= k < |ds| && rows[i].createdAt == ds[k].now
  }

  /** Every row the loop writes bears the time of the attempt that wrote it; so if those times rise, the rows stand in the order of their stamps. */
  lemma {:induction false} LoopWritesInOrder<Db(!new)>(step: (Db, Delivery) -> Db, rows: Db -> seq<Row>, start: Db, ds: seq<Delivery>)
    requires StampsRows(step, rows) && TimesRise(ds) && InOrder(rows(start)) && WrittenBefore(rows(start), ds)
    ensures RowsUpTo(rows(Fold(step, start, ds)), rows(start), ds)
    ensures InOrder(rows(Fold(step, start, ds)))
  {
    if ds != [] {
      var n := |ds| - 1;
      var before := Fold(step, start, ds[..n]);
      LoopWritesInOrder(step, rows, start, ds[..n]);
      var old', new' := rows(before), rows(step(before, ds[n]));
      assert Stamped(old', new', Some(ds[n].now));
      UpToNext(rows(start), old', new', ds);
    }
  }

  lemma UpToNext(start: seq<Row>, rows: seq<Row>, rows': seq<Row>, ds: seq<Delivery>)
    requires ds != [] && TimesRise(ds) && WrittenBefore(start, ds) && InOrder(rows)
    requires RowsUpTo(rows, start, ds[..|ds| - 1]) && Stamped(rows, rows', Some(ds[|ds| - 1].now))
    ensures RowsUpTo(rows', start, ds) && InOrder(rows')
  {
    var n := |ds| - 1;
    forall i | 0 <= i < |rows| ensures rows[i].createdAt < ds[n].now {
      if k :| 0 <= k < n && rows[i].createdAt == ds[..n][k].now {
        assert ds[k].now < ds[n].now;
      }
    }
    StampedKeepsOrder(rows, rows', Some(ds[n].now));
    forall i | 0 <= i < |rows'| && !(i < |start| && rows'[i].createdAt == start[i].createdAt)
      ensures exists k :: 0 <= k < |ds| && rows'[i].createdAt == ds[k].now
    {
      if i < |rows| {
        var k :| 0 <= k < n && rows[i].createdAt == ds[..n][k].now;
        assert rows'[i].createdAt == ds[k].now;
      } else {
        assert rows'[i].createdAt == ds[n].now;
      }
    }
  }

  /** All three handlers write their rows so. */
  lemma HandlersStamp()
    ensures StampsRows(O.Deliver, (db: O.OrderDb) => db.outbox)
    ensures StampsRows(P.Deliver, (db: P.PaymentDb) => db.outbox)
    ensures StampsRows(R.Deliver, (db: R.RestaurantDb) => db.outbox)
  {
  }

  // ---------- racing copies ----------

  function OrderLedger(db: O.OrderDb): set<EventId> {
    db.processed
  }

  function PaymentLedger(db: P.PaymentDb): set<EventId> {
    db.processed
  }

  function StockLedger(db: R.RestaurantDb): set<EventId> {
    db.processed
  }

  /** The transactions as they run once the ledger has been consulted, possibly long ago. */
  function OrderBodyTx(db: O.OrderDb, d: Delivery): O.OrderDb {
    O.Transact(db, d.e, d.now).db
  }

  function StockBodyTx(db: R.RestaurantDb, d: Delivery): R.RestaurantDb {
    R.Transact(db, d.e, d.now).db
  }

  function IntentBodyTx(db: P.PaymentDb, d: Delivery): P.PaymentDb {
    P.InsertIntent(db, d.e).db
  }

  function Intent(db: P.PaymentDb, d: Delivery): P.PaymentDb {
    P.RecordIntent(db, d.e).db
  }

  /** Any number of order consumers racing on any copies: as if each event had been handled once, in the order of commits. */
  lemma OrderRace(start: O.OrderDb, moves: seq<Move>)
    requires ChecksIdentify(moves)
    ensures Race(OrderLedger, OrderBodyTx, start, moves).db ==
            Fold(O.Deliver, start, FirstOccurrences(Ended(OrderLedger, OrderBodyTx, start, moves)))
  {
    EndedIdentify(OrderLedger, OrderBodyTx, start, moves);
    RaceIsSerial(OrderLedger, O.Deliver, OrderBodyTx, start, moves);
    OrdersExactlyOnce(start, Ended(OrderLedger, OrderBodyTx, start, moves));
  }

  lemma IntentGuarded()
    ensures Guarded(PaymentLedger, Intent, IntentBodyTx)
  {
  }

  lemma IntentsExactlyOnce(db: P.PaymentDb, ds: seq<Delivery>)
    requires IdsIdentify(ds)
    ensures Fold(Intent, db, ds) == Fold(Intent, db, FirstOccurrences(ds))
  {
    assert Idempotent(Intent, (x: P.PaymentDb) => true, PaymentIdle, ds);
    ExactlyOnce(Intent, (x: P.PaymentDb) => true, PaymentIdle, db, ds);
  }

  /** The same for the first transaction of the payment handler. */
  lemma IntentRace(start: P.PaymentDb, moves: seq<Move>)
    requires ChecksIdentify(moves)
    ensures Race(PaymentLedger, IntentBodyTx, start, moves).db ==
            Fold(Intent, start, FirstOccurrences(Ended(PaymentLedger, IntentBodyTx, start, moves)))
  {
    IntentGuarded();
    EndedIdentify(PaymentLedger, IntentBodyTx, start, moves);
    RaceIsSerial(PaymentLedger, Intent, IntentBodyTx, start, moves);
    IntentsExactlyOnce(start, Ended(PaymentLedger, IntentBodyTx, start, moves));
  }

  lemma StockGuarded()
    ensures Guarded(StockLedger, R.Deliver, StockBodyTx)
  {
  }

  /** And for the restaurant, under the same assumption as for its schedules. */
  lemma RestaurantRace(seed: map<ItemId, int>, events: set<Envelope>, start: R.RestaurantDb, moves: seq<Move>)
    requires WellStocked(seed) && OnePlacedEach(events) && Traceable(seed, events, start)
    requires forall e, f :: e in events && f in events && e.id == f.id ==> e == f
    requires forall k :: 0 <= k < |moves| && moves[k].Check? ==> moves[k].e in events
    ensures Race(StockLedger, StockBodyTx, start, moves).db ==
            Fold(R.Deliver, start, FirstOccurrences(Ended(StockLedger, StockBodyTx, start, moves)))
  {
    var ds := Ended(StockLedger, StockBodyTx, start, moves);
    StockGuarded();
    RaceIsSerial(StockLedger, R.Deliver, StockBodyTx, start, moves);
    EndedChecked(StockLedger, StockBodyTx, start, moves, events);
    RestaurantExactlyOnce(seed, events, start, ds);
  }

  /** Verdicts the restaurant has announced about an order. */
  function Verdicts(db: R.RestaurantDb, o: OrderId): nat {
    CountTopic(About(db.outbox, o), StockReserved) + CountTopic(About(db.outbox, o), StockRejected)
  }

  lemma CountNext(envs: seq<Envelope>, e: Envelope, topic: Topic)
    ensures CountTopic(envs + [e], topic) == CountTopic(envs, topic) + (if e.topic == topic then 1 else 0)
  {
    assert (envs + [e])[..|envs|] == envs;
  }

  /** Whether the delivery is the one that decides about its order. */
  ghost predicate Decides(db: R.RestaurantDb, d: Delivery) {
    d.e.topic == OrderPlaced && d.e.id !in db.processed && d.e.id in R.Deliver(db, d).processed
  }

  lemma DecisionRow(db: R.RestaurantDb, d: Delivery) returns (topic: Topic, body: Body)
    requires Decides(db, d)
    ensures topic in {StockReserved, StockRejected}
    ensures R.Deliver(db, d).outbox == Emit(db.outbox, Restaurant, topic, d.e.order, body, d.now)
  {
    match R.Reserve(db.stock, db.reservations, d.e.order, d.e.body.items)
    case Reserved(_, _) => topic, body := StockReserved, d.e.body;
    case Short(reason) => topic, body := StockRejected, RejectBody(reason);
    case _ => assert false;
  }

  lemma NoDecision(db: R.RestaurantDb, d: Delivery)
    requires !Decides(db, d)
    ensures R.Deliver(db, d).outbox == db.outbox
  {
  }

  lemma DeliverVerdict(db: R.RestaurantDb, d: Delivery, o: OrderId)
    ensures Verdicts(R.Deliver(db, d), o) == Verdicts(db, o) + (if Decides(db, d) && d.e.order == o then 1 else 0)
  {
    if Decides(db, d) {
      var topic, body := DecisionRow(db, d);
      var sent := Envelope(EventId(Restaurant, |db.outbox|), topic, d.e.order, body);
      EmitFacts(db.outbox, Restaurant, topic, d.e.order, body, d.now);
      CountNext(About(db.outbox, o), sent, StockReserved);
      CountNext(About(db.outbox, o), sent, StockRejected);
      assert About(db.outbox, o) + [] == About(db.outbox, o);
    } else {
      NoDecision(db, d);
    }
  }

  /** However the copies of one order.placed event are delivered, it gets at most one verdict, signed quantities included. */
  lemma {:induction false} VerdictOnce(db: R.RestaurantDb, ds: seq<Delivery>, e: Envelope)
    requires forall d :: d in ds && d.e.topic == OrderPlaced && d.e.order == e.order ==> d.e == e
    requires Verdicts(db, e.order) <= if e.id in db.processed then 1 else 0
    ensures var end := Fold(R.Deliver, db, ds);
      Verdicts(end, e.order) <= if e.id in end.processed then 1 else 0
  {
    if ds != [] {
      var n := |ds| - 1;
      VerdictOnce(db, ds[..n], e);
      DeliverVerdict(Fold(R.Deliver, db, ds[..n]), ds[n], e.order);
    }
  }

  /** So a racing duplicate that meets too little stock never adds stock.rejected to the first one's stock.reserved. */
  lemma RaceOneVerdict(start: R.RestaurantDb, moves: seq<Move>, events: set<Envelope>, e: Envelope)
    requires forall k :: 0 <= k < |moves| && moves[k].Check? ==> moves[k].e in events
    requires forall f :: f in events && f.topic == OrderPlaced && f.order == e.order ==> f == e
    requires Verdicts(start, e.order) == 0
    ensures Verdicts(Race(StockLedger, StockBodyTx, start, moves).db, e.order) <= 1
  {
    StockGuarded();
    RaceIsSerial(StockLedger, R.Deliver, StockBodyTx, start, moves);
    EndedChecked(StockLedger, StockBodyTx, start, moves, events);
    VerdictOnce(start, Ended(StockLedger, StockBodyTx, start, moves), e);
  }
}
