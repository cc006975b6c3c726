/**
 The whole system: three databases, the relays between them and the broker, and everything that lives
 only in memory between two transactions. A run is any sequence of enabled steps, so messages may be
 delivered again, out of order or never, and processes may die at any point.
 */
module System {
  import opened Events
  import opened Gateway
  import opened Stock
  import opened Outbox
  import R = RestaurantService
  import P = PaymentService
  import O = OrderService

  /** A stock.release transaction that has read the reservation row, without a lock, and not yet committed. */
  datatype Release = Release(e: Envelope, row: Option<seq<Item>>)

  datatype State = State(
    orders: O.OrderDb,
    restaurant: R.RestaurantDb,
    payments: P.PaymentDb,
    orderChannel: Channel,
    restaurantChannel: Channel,
    paymentChannel: Channel,
    flights: map<OrderId, P.Charge>, // payment handlers between their two transactions
    stuck: set<P.Charge>,            // rows remembered by the reconcilers
    releasing: set<Release>
  )

  function Init(seed: map<ItemId, int>): State {
    State(O.OrderDb(map[], [], {}), R.RestaurantDb(seed, map[], [], {}), P.PaymentDb(map[], [], {}),
          QUIET, QUIET, QUIET, map[], {}, {})
  }

  datatype Step =
    | CreateOrder(id: OrderId, req: O.Request, now: int)
    | Publish(service: Service, a: Action)
    | RestaurantHandles(e: Envelope, now: int)
    | ReadReservation(e: Envelope)
    | FinishRelease(release: Release)
    | OrderHandles(e: Envelope, now: int)
    | RecordIntent(e: Envelope)
    | RecordOutcome(order: OrderId, now: int)
    | Snapshot(found: set<OrderId>)
    | Reconcile(charge: P.Charge, now: int)
    | Crash(flights: set<OrderId>, stuck: set<P.Charge>, releasing: set<Release>) // what survives
    | Fault // an attempt that is rolled back and whose message is passed over

  function OutboxOf(s: State, service: Service): seq<Row> {
    match service
    case Orders => s.orders.outbox
    case Restaurant => s.restaurant.outbox
    case Payments => s.payments.outbox
  }

  function ChannelOf(s: State, service: Service): Channel {
    match service
    case Orders => s.orderChannel
    case Restaurant => s.restaurantChannel
    case Payments => s.paymentChannel
  }

  function WithOutbox(s: State, service: Service, rows: seq<Row>, channel: Channel): State {
    match service
    case Orders => s.(orders := s.orders.(outbox := rows), orderChannel := channel)
    case Restaurant => s.(restaurant := s.restaurant.(outbox := rows), restaurantChannel := channel)
    case Payments => s.(payments := s.payments.(outbox := rows), paymentChannel := channel)
  }

  /** The broker has the event, so a consumer may be handed it, now and ever after. */
  predicate Sent(s: State, e: Envelope) {
    e in s.orderChannel.log || e in s.restaurantChannel.log || e in s.paymentChannel.log
  }

  ghost predicate Enabled(s: State, step: Step) {
    match step
    case CreateOrder(_, _, _) => true
    case Publish(service, a) => CanAct(OutboxOf(s, service), ChannelOf(s, service), a)
    case RestaurantHandles(e, _) => Sent(s, e) && e.topic in {OrderPlaced, StockRelease}
    case ReadReservation(e) => Sent(s, e) && e.topic == StockRelease && e.id !in s.restaurant.processed
    case FinishRelease(release) => release in s.releasing
    case OrderHandles(e, _) => Sent(s, e) && e.topic in {PaymentSucceeded, PaymentFailed, StockRejected}
    case RecordIntent(e) => Sent(s, e) && e.topic == StockReserved
    case RecordOutcome(order, _) => order in s.flights
    case Snapshot(found) => forall o :: o in found ==> P.Stuck(s.payments, o)
    case Reconcile(c, _) => c in s.stuck
    case Crash(_, _, _) => true
    case Fault => true
  }

  ghost function Apply(s: State, step: Step): State
    requires Enabled(s, step)
  {
    match step
    case CreateOrder(id, req, now) => s.(orders := O.Insert(s.orders, id, req, now).db)
    case Publish(service, a) =>
      var rows, channel := OutboxOf(s, service), ChannelOf(s, service);
      WithOutbox(s, service, ActRows(rows, channel, a), ActChannel(rows, channel, a))
    case RestaurantHandles(e, now) => s.(restaurant := R.Handle(s.restaurant, e, now).db)
    case ReadReservation(e) => s.(releasing := s.releasing + {Release(e, R.ReservationOf(s.restaurant, e.order))})
    case FinishRelease(r) =>
      s.(restaurant := R.ReleaseOrder(s.restaurant, r.e, r.row).db, releasing := s.releasing - {r})
    case OrderHandles(e, now) => s.(orders := O.Handle(s.orders, e, now).db)
    case RecordIntent(e) =>
      var r := P.RecordIntent(s.payments, e);
      s.(payments := r.db,
         flights := if r.outcome == Committed then s.flights[e.order := P.ChargeOf(e)] else s.flights)
    case RecordOutcome(order, now) =>
      s.(payments := P.RecordOutcome(s.payments, s.flights[order], now), flights := s.flights - {order})
    case Snapshot(found) =>
      s.(stuck := s.stuck + set o | o in found :: P.Remembered(s.payments, o))
    case Reconcile(c, now) => s.(payments := P.Reconcile(s.payments, c, now), stuck := s.stuck - {c})
    case Crash(flights, stuck, releasing) =>
      s.(flights := map o | o in s.flights && o in flights :: s.flights[o],
         stuck := s.stuck * stuck, releasing := s.releasing * releasing)
    case Fault => s
  }

  ghost predicate Valid(s: State, steps: seq<Step>)
    decreases |steps|
  {
    steps == [] || (Enabled(s, steps[0]) && Valid(Apply(s, steps[0]), steps[1..]))
  }

  ghost function Run(s: State, steps: seq<Step>): State
    requires Valid(s, steps)
    decreases |steps|
  {
    if steps == [] then s else Run(Apply(s, steps[0]), steps[1..])
  }

  /** Everything the system knows about one order, in all three databases and in memory. */
  datatype View = View(
    order: Option<O.Order>,
    orderRows: seq<Envelope>,
    restaurantRows: seq<Envelope>,
    paymentRows: seq<Envelope>,
    reservation: Option<seq<Item>>,
    payment: Option<P.Payment>,
    flight: Option<P.Charge>,
    placedSeen: bool,
    releaseSeen: bool,
    reservedSeen: bool,
    rejectedSeen: bool,
    outcomeSeen: bool
  )

  function Lookup<V>(m: map<OrderId, V>, o: OrderId): Option<V> {
    if o in m then Some(m[o]) else None
  }

  predicate SeenAt(rows: seq<Envelope>, k: nat, ledger: set<EventId>) {
    k < |rows| && rows[k].id in ledger
  }

  function ViewOf(s: State, o: OrderId): View {
    ViewIn(s.orders, s.restaurant, s.payments, s.flights, o)
  }

  function ViewIn(orders: O.OrderDb, restaurant: R.RestaurantDb, payments: P.PaymentDb, flights: map<OrderId, P.Charge>, o: OrderId): View {
    var orderRows := About(orders.outbox, o);
    var restaurantRows := About(restaurant.outbox, o);
    var paymentRows := About(payments.outbox, o);
    View(Lookup(orders.orders, o), orderRows, restaurantRows, paymentRows,
         Lookup(restaurant.reservations, o), Lookup(payments.payments, o), Lookup(flights, o),
         SeenAt(orderRows, 0, restaurant.processed), SeenAt(orderRows, 1, restaurant.processed),
         SeenAt(restaurantRows, 0, payments.processed), SeenAt(restaurantRows, 0, orders.processed),
         SeenAt(paymentRows, 0, orders.processed) || SeenAt(paymentRows, 1, orders.processed))
  }

  /** Where an order stands in the saga. */
  datatype Phase =
    | Placed
    | Rejected    // the restaurant has refused, the order service does not know yet
    | Unavailable
    | Reserved
    | Processing
    | Charged
    | Declined
    | Confirmed
    | Failed      // the order service has asked for compensation
    | Released

  function PhaseOf(v: View): Phase
    requires v.order.Some?
  {
    match v.order.value.status
    case Confirmed => Confirmed
    case StockUnavailable => Unavailable
    case PaymentFailure => if v.reservation.Some? then Failed else Released
    case Pending =>
      if v.payment.Some? then
        match v.payment.value.status
        case Processing => Processing
        case Succeeded => Charged
        case Failed => Declined
      else if v.reservation.Some? then Reserved
      else if v.restaurantRows == [] then Placed
      else Rejected
  }

  /** The details an order's events carry. */
  function BodyOf(ord: O.Order): Body {
    OrderBody(ord.user, ord.items, ord.amount, Carried(ord.simulate))
  }

  function ChargeFor(o: OrderId, ord: O.Order): P.Charge {
    P.Charge(o, ord.amount, Carried(ord.simulate))
  }

  predicate Paid(p: Phase) {
    p in {Charged, Confirmed}
  }

  predicate Unpaid(p: Phase) {
    p in {Declined, Failed, Released}
  }

  ghost predicate OrderSide(v: View, ord: O.Order) {
    && |v.orderRows| == (if ord.status == O.PaymentFailure then 2 else 1)
    && v.orderRows[0].topic == OrderPlaced && v.orderRows[0].body == BodyOf(ord)
    && (|v.orderRows| == 2 ==> v.orderRows[1].topic == StockRelease)
    && Fits(ord.simulate, O.SIMULATE_WIDTH)
  }

  ghost predicate RestaurantSide(v: View, ord: O.Order, p: Phase) {
    && (v.placedSeen <==> p != Placed)
    && |v.restaurantRows| == (if p == Placed then 0 else 1)
    && (p in {Rejected, Unavailable} ==> v.restaurantRows[0].topic == StockRejected)
    && (p !in {Placed, Rejected, Unavailable} ==>
          v.restaurantRows[0].topic == StockReserved && v.restaurantRows[0].body == BodyOf(ord))
    && v.reservation == (if p in {Placed, Rejected, Unavailable, Released} then None else Some(ord.items))
    && (v.rejectedSeen <==> p == Unavailable)
    && (v.releaseSeen <==> p == Released)
  }

  ghost predicate PaymentSide(o: OrderId, v: View, ord: O.Order, p: Phase) {
    var charge := ChargeFor(o, ord);
    && (v.payment.Some? <==> p == Processing || Paid(p) || Unpaid(p))
    && (v.reservedSeen <==> v.payment.Some?)
    && (v.payment.Some? ==>
          v.payment.value == P.Payment(ord.amount, if p == Processing then P.Processing else P.OutcomeStatus(charge), Carried(ord.simulate)))
    && (Paid(p) ==> P.OutcomeStatus(charge) == P.Succeeded)
    && (Unpaid(p) ==> P.OutcomeStatus(charge) == P.Failed)
    && (if Paid(p) || Unpaid(p) then 1 <= |v.paymentRows| <= 2 else v.paymentRows == [])
    && (forall e :: e in v.paymentRows ==> e.topic == P.OutcomeTopic(charge))
    && (v.flight.Some? ==> v.payment.Some? && v.flight.value == charge && |v.paymentRows| <= 1)
    && (v.outcomeSeen <==> p in {Confirmed, Failed, Released})
  }

  /** The moves of the saga; `pays` is what the gateway answers for the order. */
  predicate Edge(p: Phase, p': Phase, pays: bool) {
    match p
    case Placed => p' == Reserved || p' == Rejected
    case Rejected => p' == Unavailable
    case Reserved => p' == Processing
    case Processing => p' == if pays then Charged else Declined
    case Charged => p' == Confirmed
    case Declined => p' == Failed
    case Failed => p' == Released
    case _ => false
  }

  predicate Pays(o: OrderId, ord: O.Order) {
    P.OutcomeStatus(ChargeFor(o, ord)) == P.Succeeded
  }

  /** Steps an order still needs, counting every event still to be written twice: to write it and to publish it. */
  function Remaining(p: Phase): nat {
    match p
    case Placed => 10
    case Reserved => 8
    case Processing => 5
    case Declined => 3
    case Charged => 1
    case Rejected => 1
    case Failed => 1
    case _ => 0
  }

  /** Work outstanding for one order; a handler in flight may still write a second outcome event. */
  function Work(v: View): nat {
    (if v.order.Some? then Remaining(PhaseOf(v)) else 0) + (if v.flight.Some? then 2 else 0)
  }

  function RowCount(v: View): nat {
    |v.orderRows| + |v.restaurantRows| + |v.paymentRows|
  }

  /** How the view of one order may change: its details never, its phase along one edge, at a cost already accounted for. */
  ghost predicate Onward(o: OrderId, v: View, v': View) {
    match v.order
    case None => v'.order.Some? ==> PhaseOf(v') == Placed && v'.flight.None?
    case Some(ord) =>
      && v'.order.Some? && v'.order.value == ord.(status := v'.order.value.status)
      && v.orderRows <= v'.orderRows
      && (v.releaseSeen ==> v'.releaseSeen)
      && (PhaseOf(v') == PhaseOf(v) || Edge(PhaseOf(v), PhaseOf(v'), Pays(o, ord)))
      && (if v' == v then true else Work(v') + RowCount(v') < Work(v) + RowCount(v))
  }

  /** What every reachable state satisfies, one order at a time. */
  ghost predicate Consistent(o: OrderId, v: View) {
    match v.order
    case None =>
      && v.orderRows == [] && v.restaurantRows == [] && v.paymentRows == []
      && v.reservation.None? && v.payment.None? && v.flight.None?
    case Some(ord) =>
      && OrderSide(v, ord)
      && RestaurantSide(v, ord, PhaseOf(v))
      && PaymentSide(o, v, ord, PhaseOf(v))
  }

  ghost predicate AllOnward(s: State, s': State) {
    forall o :: Onward(o, ViewOf(s, o), ViewOf(s', o))
  }

  /** A ledger only holds ids of rows that exist. */
  ghost predicate Known(s: State, ledger: set<EventId>) {
    forall id :: id in ledger ==> id.serial < |OutboxOf(s, id.source)|
  }

  ghost predicate Ledgers(s: State) {
    Known(s, s.orders.processed) && Known(s, s.restaurant.processed) && Known(s, s.payments.processed)
  }

  ghost predicate Numbering(s: State) {
    && Numbered(s.orders.outbox, Orders)
    && Numbered(s.restaurant.outbox, Restaurant)
    && Numbered(s.payments.outbox, Payments)
  }

  ghost predicate Books(s: State) {
    Numbering(s) && Ledgers(s)
  }

  /** The relay accounts of one service balance. */
  ghost predicate Booked(s: State, service: Service) {
    Accounted(OutboxOf(s, service), service, ChannelOf(s, service))
  }

  /** What a reconciler remembers is still what the payment row says. */
  ghost predicate StuckSound(s: State) {
    forall c :: c in s.stuck ==> P.Holds(s.payments, c)
  }

  /**
   A reservation row read too early is harmless: it was either the order's own reservation, or missing
   because the release had already been committed.
   */
  ghost predicate ReleaseSound(s: State, r: Release) {
    var v := ViewOf(s, r.e.order);
    && r.e in v.orderRows && r.e.topic == StockRelease
    && v.order.Some?
    && (r.row.Some? ==> r.row.value == v.order.value.items)
    && (r.row.None? ==> v.releaseSeen)
  }

  ghost predicate AllConsistent(s: State) {
    forall o :: Consistent(o, ViewOf(s, o))
  }

  ghost predicate ReleasesSound(s: State) {
    forall r :: r in s.releasing ==> ReleaseSound(s, r)
  }

  ghost predicate SagaInv(seed: map<ItemId, int>, s: State) {
    && Books(s)
    && R.Conserved(seed, s.restaurant)
    && O.KeysUnique(s.orders.orders)
    && AllConsistent(s)
    && StuckSound(s)
    && ReleasesSound(s)
  }

  ghost predicate RelayInv(s: State) {
    forall service :: Booked(s, service)
  }

  ghost predicate Inv(seed: map<ItemId, int>, s: State) {
    SagaInv(seed, s) && RelayInv(s)
  }
}
