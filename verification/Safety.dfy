/** What holds in every state any run can reach, read off the invariant in terms of the three databases. */
module Safety {
  import opened Events
  import opened Gateway
  import opened Sums
  import opened Stock
  import opened System
  import opened Views
  import opened Invariant
  import opened Steps
  import R = RestaurantService
  import P = PaymentService
  import O = OrderService
  import Consumers
  import Redelivery
  import Outbox

  /** The topics of the events one service wrote about an order. */
  function Count(rows: seq<Row>, o: OrderId, topic: Topic): nat {
    CountTopic(About(rows, o), topic)
  }

  lemma CountOne(envs: seq<Envelope>, topic: Topic)
    requires |envs| == 1
    ensures CountTopic(envs, topic) == if envs[0].topic == topic then 1 else 0
  {
    assert envs[..0] == [];
  }

  lemma CountTwo(envs: seq<Envelope>, topic: Topic)
    requires |envs| == 2
    ensures CountTopic(envs, topic) == (if envs[0].topic == topic then 1 else 0) + (if envs[1].topic == topic then 1 else 0)
  {
    assert envs[..1] == [envs[0]];
    CountOne(envs[..1], topic);
  }

  lemma ConsistentAt(seed: map<ItemId, int>, steps: seq<Step>, o: OrderId)
    requires WellStocked(seed) && Valid(Init(seed), steps)
    ensures Inv(seed, Run(Init(seed), steps))
    ensures Consistent(o, ViewOf(Run(Init(seed), steps), o))
  {
    Reachable(seed, steps);
  }

  /** The status a customer sees is true in the other two databases, whatever was lost, repeated or reordered. */
  lemma StatusIsTruthful(seed: map<ItemId, int>, steps: seq<Step>, o: OrderId)
    requires WellStocked(seed) && Valid(Init(seed), steps)
    requires o in Run(Init(seed), steps).orders.orders
    ensures var s := Run(Init(seed), steps);
      var ord := s.orders.orders[o];
      var payment := Lookup(s.payments.payments, o);
      var reservation := Lookup(s.restaurant.reservations, o);
      && (ord.status == O.Confirmed ==> payment.Some? && payment.value.status == P.Succeeded && reservation == Some(ord.items))
      && (ord.status == O.PaymentFailure ==> payment.Some? && payment.value.status == P.Failed)
      && (ord.status == O.StockUnavailable ==> payment.None? && reservation.None?)
      && (payment.Some? && payment.value.status == P.Succeeded ==> reservation == Some(ord.items))
  {
    ConsistentAt(seed, steps, o);
  }

  /** A payment row exists only after stock.reserved was written for that order, and carries that order's own data. */
  lemma PaymentNeedsReservation(seed: map<ItemId, int>, steps: seq<Step>, o: OrderId)
    requires WellStocked(seed) && Valid(Init(seed), steps)
    requires o in Run(Init(seed), steps).payments.payments
    ensures var s := Run(Init(seed), steps);
      && o in s.orders.orders
      && Count(s.restaurant.outbox, o, StockReserved) == 1 && Count(s.restaurant.outbox, o, StockRejected) == 0
      && s.payments.payments[o].amount == s.orders.orders[o].amount
      && s.payments.payments[o].simulate == Carried(s.orders.orders[o].simulate)
  {
    ConsistentAt(seed, steps, o);
    CountOne(ViewOf(Run(Init(seed), steps), o).restaurantRows, StockReserved);
    CountOne(ViewOf(Run(Init(seed), steps), o).restaurantRows, StockRejected);
  }

  /** Reserved and rejected exclude each other, and each is announced at most once. */
  lemma OneVerdict(seed: map<ItemId, int>, steps: seq<Step>, o: OrderId)
    requires WellStocked(seed) && Valid(Init(seed), steps)
    ensures var s := Run(Init(seed), steps);
      Count(s.restaurant.outbox, o, StockReserved) + Count(s.restaurant.outbox, o, StockRejected) <= 1
  {
    ConsistentAt(seed, steps, o);
    var v := ViewOf(Run(Init(seed), steps), o);
    if |v.restaurantRows| == 1 {
      CountOne(v.restaurantRows, StockReserved);
      CountOne(v.restaurantRows, StockRejected);
    }
  }

  /** Order rows and order.placed rows are in bijection. */
  lemma OnePlacedEventPerOrder(seed: map<ItemId, int>, steps: seq<Step>, o: OrderId)
    requires WellStocked(seed) && Valid(Init(seed), steps)
    ensures var s := Run(Init(seed), steps);
      && Count(s.orders.outbox, o, OrderPlaced) == (if o in s.orders.orders then 1 else 0)
      && (forall i :: 0 <= i < |s.orders.outbox| ==> s.orders.outbox[i].env.order in s.orders.orders)
      && O.KeysUnique(s.orders.orders)
  {
    ConsistentAt(seed, steps, o);
    var s := Run(Init(seed), steps);
    var v := ViewOf(s, o);
    if v.order.Some? {
      if |v.orderRows| == 1 { CountOne(v.orderRows, OrderPlaced); } else { CountTwo(v.orderRows, OrderPlaced); }
    }
    forall i | 0 <= i < |s.orders.outbox| ensures s.orders.outbox[i].env.order in s.orders.orders {
      var e := s.orders.outbox[i].env;
      AboutMembers(s.orders.outbox, Orders, e.order);
      assert Stored(s.orders.outbox, e);
      assert Consistent(e.order, ViewOf(s, e.order));
    }
  }

  /** Compensation is asked for exactly once, exactly for the failed orders, and never before the reservation it undoes. */
  lemma CompensationExact(seed: map<ItemId, int>, steps: seq<Step>, o: OrderId)
    requires WellStocked(seed) && Valid(Init(seed), steps)
    ensures var s := Run(Init(seed), steps);
      var failed := o in s.orders.orders && s.orders.orders[o].status == O.PaymentFailure;
      && Count(s.orders.outbox, o, StockRelease) == (if failed then 1 else 0)
      && (failed ==> Count(s.restaurant.outbox, o, StockReserved) == 1)
      && (failed ==> (o in s.restaurant.reservations <==> !ViewOf(s, o).releaseSeen))
  {
    ConsistentAt(seed, steps, o);
    var v := ViewOf(Run(Init(seed), steps), o);
    if v.order.Some? {
      if |v.orderRows| == 1 { CountOne(v.orderRows, StockRelease); } else { CountTwo(v.orderRows, StockRelease); }
      if |v.restaurantRows| == 1 { CountOne(v.restaurantRows, StockReserved); }
    }
  }

  /** A stock.release that anyone can receive comes after its order's reservation was committed. */
  lemma ReleaseAfterReservation(seed: map<ItemId, int>, steps: seq<Step>, e: Envelope)
    requires WellStocked(seed) && Valid(Init(seed), steps)
    requires Sent(Run(Init(seed), steps), e) && e.topic == StockRelease
    ensures var s := Run(Init(seed), steps);
      && Count(s.restaurant.outbox, e.order, StockReserved) == 1
      && e.order in s.payments.payments && s.payments.payments[e.order].status == P.Failed
  {
    var s := Run(Init(seed), steps);
    ConsistentAt(seed, steps, e.order);
    SentIsRow(s, e);
    ViewRow(s, e);
    RowByTopic(e.order, ViewOf(s, e.order), e);
    CountOne(ViewOf(s, e.order).restaurantRows, StockReserved);
  }

  /** All outcome events of an order agree with the gateway's answer to the directive given at creation; there are at most two. */
  lemma OutcomesAgree(seed: map<ItemId, int>, steps: seq<Step>, e: Envelope)
    requires WellStocked(seed) && Valid(Init(seed), steps)
    requires RowOf(Run(Init(seed), steps), e) && e.id.source == Payments
    ensures var s := Run(Init(seed), steps);
      && e.order in s.orders.orders
      && e.topic == (if ProcessPayment(0, s.orders.orders[e.order].simulate) then PaymentSucceeded else PaymentFailed)
      && 1 <= |About(s.payments.outbox, e.order)| <= 2
      && e.order in s.payments.payments
      && s.payments.payments[e.order].status == (if e.topic == PaymentSucceeded then P.Succeeded else P.Failed)
  {
    var s := Run(Init(seed), steps);
    ConsistentAt(seed, steps, e.order);
    assert e in ViewOf(s, e.order).paymentRows;
    var ord := s.orders.orders[e.order];
    OutcomeCarried(ord.amount, 0, ord.simulate);
  }

  lemma PaymentStays(o: OrderId, v: View, v': View)
    requires Consistent(o, v) && Consistent(o, v') && Onward(o, v, v')
    requires v.payment.Some? && v.payment.value.status != P.Processing
    ensures v'.payment == v.payment
  {
    assert Paid(PhaseOf(v)) || Unpaid(PhaseOf(v));
  }

  /** A settled payment never changes, although Transaction 2 writes without looking. */
  lemma SettledPaymentStays(seed: map<ItemId, int>, s: State, step: Step, o: OrderId)
    requires Inv(seed, s) && Enabled(s, step)
    requires o in s.payments.payments && s.payments.payments[o].status != P.Processing
    ensures Lookup(Apply(s, step).payments.payments, o) == Some(s.payments.payments[o])
  {
    StepKeeps(seed, s, step);
    PaymentStays(o, ViewOf(s, o), ViewOf(Apply(s, step), o));
  }

  /** Stock on hand is what was seeded less what is reserved, item by item, and never negative. */
  lemma StockConserved(seed: map<ItemId, int>, steps: seq<Step>, id: ItemId)
    requires WellStocked(seed) && Valid(Init(seed), steps) && id in seed
    ensures var s := Run(Init(seed), steps);
      && id in s.restaurant.stock && 0 <= s.restaurant.stock[id] <= INT_MAX
      && s.restaurant.stock[id] == seed[id] - Held(s.restaurant.reservations, id)
  {
    Reachable(seed, steps);
  }

  /** The items of the orders a customer was told are confirmed. */
  function ConfirmedItems(s: State): map<OrderId, seq<Item>> {
    map o | o in s.orders.orders && s.orders.orders[o].status == O.Confirmed :: s.orders.orders[o].items
  }

  predicate NonNegativeOrders(s: State) {
    forall o :: o in s.orders.orders ==> NonNegative(s.orders.orders[o].items)
  }

  /** Nothing is oversold: confirmed orders together never exceed the seeded stock. */
  lemma NeverOversold(seed: map<ItemId, int>, steps: seq<Step>, id: ItemId)
    requires WellStocked(seed) && Valid(Init(seed), steps) && id in seed
    requires NonNegativeOrders(Run(Init(seed), steps))
    ensures Held(ConfirmedItems(Run(Init(seed), steps)), id) <= seed[id]
  {
    var s := Run(Init(seed), steps);
    Reachable(seed, steps);
    var all, confirmed := Demands(s.restaurant.reservations, id), Demands(ConfirmedItems(s), id);
    forall o ensures o in confirmed ==> o in all && all[o] == confirmed[o]
      ensures o in all ==> all[o] >= 0
    {
      assert Consistent(o, ViewOf(s, o));
      if o in all { DemandNonNegative(s.orders.orders[o].items, id); }
    }
    SumRestrict(all.Keys, confirmed.Keys, all);
    SumAgree(confirmed.Keys, confirmed, all);
  }

  lemma SentPlaced(seed: map<ItemId, int>, s: State, e: Envelope)
    requires Inv(seed, s) && Sent(s, e)
    ensures RowOf(s, e) && e.order in s.orders.orders
    ensures e.topic == OrderPlaced ==> At(ViewOf(s, e.order).orderRows, 0, e) && e.body == BodyOf(s.orders.orders[e.order])
  {
    SentIsRow(s, e);
    ViewRow(s, e);
    assert Consistent(e.order, ViewOf(s, e.order));
    RowByTopic(e.order, ViewOf(s, e.order), e);
  }

  /**
   What the exactly-once theorems need of the partitions is true of whatever the brokers hold, as long as
   topic and key decide where an event goes: each order is placed once, and an id names one event.
   */
  lemma LogsMeetAssumption(seed: map<ItemId, int>, steps: seq<Step>, logs: seq<seq<Envelope>>)
    requires WellStocked(seed) && Valid(Init(seed), steps)
    requires forall e :: e in Consumers.EventsIn(logs) ==> Sent(Run(Init(seed), steps), e)
    requires forall p, q, e :: 0 <= p < |logs| && 0 <= q < |logs| && e in logs[p] && e in logs[q] ==> p == q
    ensures Consumers.Keyed(logs)
    ensures NonNegativeOrders(Run(Init(seed), steps)) ==> Redelivery.OnePlacedEach(Consumers.EventsIn(logs))
  {
    var s := Run(Init(seed), steps);
    Reachable(seed, steps);
    forall e | e in Consumers.EventsIn(logs) ensures RowOf(s, e) && e.order in s.orders.orders
      ensures e.topic == OrderPlaced ==> At(ViewOf(s, e.order).orderRows, 0, e) && e.body == BodyOf(s.orders.orders[e.order])
    {
      SentPlaced(seed, s, e);
    }
    forall p, q, e, f | 0 <= p < |logs| && 0 <= q < |logs| && e in logs[p] && f in logs[q] && e.id == f.id ensures p == q && e == f {
      assert e in Consumers.EventsIn(logs) && f in Consumers.EventsIn(logs);
      IdsTell(s, e, f.id.source, f.order);
    }
  }

  // ---------- the order of the outbox tables ----------

  /** When the transaction of a step that can write an event runs. */
  function TimeOf(step: Step): Option<int> {
    match step
    case CreateOrder(_, _, now) => Some(now)
    case RestaurantHandles(_, now) => Some(now)
    case OrderHandles(_, now) => Some(now)
    case RecordOutcome(_, now) => Some(now)
    case Reconcile(_, now) => Some(now)
    case _ => None
  }

  predicate TimesRise(steps: seq<Step>) {
    forall i, j :: 0 <= i < j < |steps| && TimeOf(steps[i]).Some? && TimeOf(steps[j]).Some? ==>
                     TimeOf(steps[i]).value < TimeOf(steps[j]).value
  }

  /** Every row was written before any of the steps. */
  predicate Before(rows: seq<Row>, steps: seq<Step>) {
    forall r, step :: r in rows && step in steps && TimeOf(step).Some? ==> r.createdAt < TimeOf(step).value
  }

  lemma StepStamps(s: State, step: Step, service: Service)
    requires Enabled(s, step)
    ensures Outbox.Stamped(OutboxOf(s, service), OutboxOf(Apply(s, step), service), TimeOf(step))
  {
  }

  lemma StampedInOrder(rows: seq<Row>, rows': seq<Row>, steps: seq<Step>)
    requires steps != [] && TimesRise(steps) && Outbox.InOrder(rows) && Before(rows, steps)
    requires Outbox.Stamped(rows, rows', TimeOf(steps[0]))
    ensures Outbox.InOrder(rows') && Before(rows', steps[1..])
  {
    assert steps[0] in steps;
    forall r, step | r in rows' && step in steps[1..] && TimeOf(step).Some? ensures r.createdAt < TimeOf(step).value {
      var i :| 0 <= i < |rows'| && rows'[i] == r;
      if i < |rows| {
        assert rows[i] in rows && step in steps;
      }
    }
    assert forall i :: 0 <= i < |rows| ==> rows[i] in rows;
    Outbox.StampedKeepsOrder(rows, rows', TimeOf(steps[0]));
  }

  lemma {:induction false} RunInOrder(s: State, steps: seq<Step>, service: Service)
    requires Valid(s, steps) && TimesRise(steps)
    requires Outbox.InOrder(OutboxOf(s, service)) && Before(OutboxOf(s, service), steps)
    ensures Outbox.InOrder(OutboxOf(Run(s, steps), service))
    decreases |steps|
  {
    if steps != [] {
      var s' := Apply(s, steps[0]);
      StepStamps(s, steps[0], service);
      StampedInOrder(OutboxOf(s, service), OutboxOf(s', service), steps);
      RunInOrder(s', steps[1..], service);
    }
  }

  /**
   In any run whose transactions happen one after the other, the stamps of each outbox rise with the
   positions of its rows; so `ORDER BY created_at` is the order in which the rows were written.
   */
  lemma WrittenInOrder(seed: map<ItemId, int>, steps: seq<Step>, service: Service)
    requires Valid(Init(seed), steps) && TimesRise(steps)
    ensures Outbox.InOrder(OutboxOf(Run(Init(seed), steps), service))
  {
    RunInOrder(Init(seed), steps, service);
  }
}
