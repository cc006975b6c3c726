/**
 Progress: outstanding work never grows except by a new order, whatever goes wrong. A finer distance to
 rest never grows while nothing goes wrong, and each step in which something happens reduces it. An order
 that is not settled waits for certain events, and exactly those commit when they are handed over.
 */
module Progress {
  import opened Events
  import opened Sums
  import opened Stock
  import opened Outbox
  import opened System
  import opened Views
  import opened Invariant
  import opened Steps
  import opened Safety
  import R = RestaurantService
  import P = PaymentService
  import O = OrderService

  // ---------- the measure ----------

  function Works(s: State): map<OrderId, int> {
    map o | o in s.orders.orders :: Work(ViewOf(s, o))
  }

  /** Work outstanding for all orders, and events written but not yet marked as published. */
  ghost function Measure(s: State): int {
    Sum(Works(s)) + PendingRows(s)
  }

  lemma GroundedWork(v: View, v': View)
    requires SameOrGrounded(v, v')
    ensures Work(v') <= Work(v)
  {
  }

  lemma QuietMeasure(s: State, s': State)
    requires Quiet(s, s')
    ensures Measure(s') <= Measure(s)
  {
    forall o | o in s.orders.orders ensures Works(s')[o] <= Works(s)[o] {
      assert SameOrGrounded(ViewOf(s, o), ViewOf(s', o));
      GroundedWork(ViewOf(s, o), ViewOf(s', o));
    }
    SumBelow(Works(s).Keys, Works(s'), Works(s));
  }

  lemma WorkAt(s: State, s': State, x: OrderId)
    requires ViewOf(s', x) == ViewOf(s, x)
    ensures Lookup(Works(s'), x) == Lookup(Works(s), x)
  {
    assert x in s.orders.orders <==> ViewOf(s, x).order.Some?;
    assert x in s'.orders.orders <==> ViewOf(s', x).order.Some?;
  }

  lemma WorksElsewhere(s: State, s': State, o: OrderId)
    requires OthersKept(s, s', o)
    ensures Works(s') == if o in s'.orders.orders then Works(s)[o := Work(ViewOf(s', o))] else Works(s) - {o}
  {
    forall x | x != o ensures Lookup(Works(s'), x) == Lookup(Works(s), x) {
      assert ViewOf(s', x) == ViewOf(s, x);
      WorkAt(s, s', x);
    }
    SameElsewhere(Works(s), Works(s'), o);
  }

  /** What an order gives up in work is more than the rows it adds. */
  lemma EffectMeasure(s: State, s': State, o: OrderId)
    requires OthersKept(s, s', o) && Onward(o, ViewOf(s, o), ViewOf(s', o)) && o in s.orders.orders
    requires PendingRows(s') + RowCount(ViewOf(s, o)) == PendingRows(s) + RowCount(ViewOf(s', o))
    ensures Measure(s') <= Measure(s)
    ensures ViewOf(s', o) != ViewOf(s, o) ==> Measure(s') < Measure(s)
  {
    var v, v' := ViewOf(s, o), ViewOf(s', o);
    WorksElsewhere(s, s', o);
    SumUpdate(Works(s), o, Work(v'));
    assert Sum(Works(s')) == Sum(Works(s)) + Work(v') - Work(v);
  }

  /** No order comes into being except by being created. */
  lemma OrdersFixed(s: State, step: Step)
    requires Enabled(s, step) && !step.CreateOrder?
    ensures Apply(s, step).orders.orders.Keys == s.orders.orders.Keys
  {
  }

  lemma WorksAbsent(s: State, s': State, o: OrderId)
    requires OthersKept(s, s', o) && o !in s.orders.orders && o !in s'.orders.orders
    ensures Works(s') == Works(s)
  {
    WorksElsewhere(s, s', o);
    assert Works(s) - {o} == Works(s);
  }

  lemma AbsentRows(o: OrderId, v: View)
    requires Consistent(o, v) && v.order.None?
    ensures RowCount(v) == 0
  {
  }

  lemma AbsentMeasure(s: State, s': State, o: OrderId)
    requires Effect(s, s', o) && Consistent(o, ViewOf(s, o))
    requires o !in s.orders.orders && o !in s'.orders.orders
    ensures Measure(s') == Measure(s)
  {
    WorksAbsent(s, s', o);
    AbsentRows(o, ViewOf(s, o));
    AbsentRows(o, ViewOf(s', o));
  }

  /** Nothing but a new order adds to the measure: not faults, not crashes, not repeated deliveries. */
  lemma MeasureNeverGrows(seed: map<ItemId, int>, s: State, step: Step)
    requires Inv(seed, s) && Enabled(s, step) && !step.CreateOrder?
    ensures 0 <= Measure(Apply(s, step)) <= Measure(s)
  {
    var s' := Apply(s, step);
    SumNonNegative(Works(s').Keys, Works(s'));
    EnabledGrounded(s, step);
    ShapeOfStep(s, step);
    OrdersFixed(s, step);
    if Quiet(s, s') {
      QuietMeasure(s, s');
    } else {
      var o := Subject(step).value;
      if o in s.orders.orders {
        EffectMeasure(s, s', o);
      } else {
        assert Consistent(o, ViewOf(s, o));
        AbsentMeasure(s, s', o);
      }
    }
  }

  // ---------- ordinary steps and rest ----------

  /** Steps that need no luck: no fault, no crash, no new order. */
  predicate Ordinary(step: Step) {
    !step.CreateOrder? && !step.Crash? && !step.Fault? && !(step.Publish? && step.a.Fail?)
  }

  /** At rest: every event published, every order in a final state. */
  ghost predicate Done(s: State) {
    PendingRows(s) == 0 && forall o :: o in s.orders.orders ==> Settled(PhaseOf(ViewOf(s, o)))
  }

  predicate Settled(p: Phase) {
    p in {Confirmed, Unavailable, Released}
  }

  // ---------- distance to rest ----------

  /** How far an open relay transaction has come. */
  function Stage(h: Hold): int {
    if h.sent then 2 else 1
  }

  function Stages(ch: Channel): map<RelayId, int> {
    map r | r in ch.holders :: Stage(ch.holders[r])
  }

  ghost function Grip(ch: Channel): int {
    Sum(Stages(ch))
  }

  ghost function Grips(s: State): int {
    Grip(s.orderChannel) + Grip(s.restaurantChannel) + Grip(s.paymentChannel)
  }

  /** Payments in progress that no reconciler has noticed yet. */
  function Unnoticed(s: State): map<OrderId, int> {
    map o | o in s.payments.payments ::
      if P.Stuck(s.payments, o) && P.Remembered(s.payments, o) !in s.stuck then 1 else 0
  }

  /** The measure, refined so that single steps show: what relays have in hand, what reconcilers have noticed. */
  ghost function Distance(s: State): int {
    3 * Measure(s) - Grips(s) + Sum(Unnoticed(s))
  }

  /** Relays have at most two thirds of the pending rows' cost in hand. */
  lemma {:induction false} GripBound(rows: seq<Row>, ch: Channel)
    requires LocksSound(rows, ch)
    ensures Grip(ch) <= 2 * Unpublished(rows)
    decreases |ch.holders|
  {
    if ch.holders == map[] {
      assert Stages(ch) == map[];
    } else {
      var r :| r in ch.holders;
      LetGo(rows, ch, r);
      GripBound(MarkPublished(rows, ch.holders[r].row), ch.(holders := ch.holders - {r}));
    }
  }

  lemma LetGo(rows: seq<Row>, ch: Channel, r: RelayId)
    requires LocksSound(rows, ch) && r in ch.holders
    ensures var rows', ch' := MarkPublished(rows, ch.holders[r].row), ch.(holders := ch.holders - {r});
      && LocksSound(rows', ch') && Unpublished(rows') == Unpublished(rows) - 1
      && Grip(ch) <= Grip(ch') + 2
  {
    MarkFacts(rows, ch.holders[r].row);
    assert Stages(ch.(holders := ch.holders - {r})) == Stages(ch) - {r};
    SumRemove(Stages(ch), r);
  }

  lemma DistanceNatural(s: State)
    requires RelayInv(s)
    ensures Distance(s) >= 0
  {
    assert Booked(s, Orders) && Booked(s, Restaurant) && Booked(s, Payments);
    GripBound(s.orders.outbox, s.orderChannel);
    GripBound(s.restaurant.outbox, s.restaurantChannel);
    GripBound(s.payments.outbox, s.paymentChannel);
    SumNonNegative(Works(s).Keys, Works(s));
    SumNonNegative(Unnoticed(s).Keys, Unnoticed(s));
  }

  /** Locking and sending take a relay forward; finishing gives up two and publishes the row. */
  lemma GripStep(rows: seq<Row>, ch: Channel, a: Action)
    requires CanAct(rows, ch, a) && !a.Fail?
    ensures Grip(ActChannel(rows, ch, a)) == Grip(ch) + if a.Finish? then -2 else 1
  {
    var ch' := ActChannel(rows, ch, a);
    match a
    case Lock(r, _) =>
      assert Stages(ch') == Stages(ch)[r := 1];
      SumUpdate(Stages(ch), r, 1);
    case Send(r) =>
      assert Stages(ch') == Stages(ch)[r := 2];
      SumUpdate(Stages(ch), r, 2);
    case Finish(r) =>
      assert Stages(ch') == Stages(ch) - {r};
      SumRemove(Stages(ch), r);
  }

  lemma GripsStep(s: State, service: Service, a: Action)
    requires Enabled(s, Publish(service, a)) && !a.Fail?
    ensures Grips(Apply(s, Publish(service, a))) == Grips(s) + if a.Finish? then -2 else 1
  {
    GripStep(OutboxOf(s, service), ChannelOf(s, service), a);
  }

  /** What the orders need and what the reconcilers have noticed depends on the tables and views only. */
  lemma SameNeeds(s: State, s': State)
    requires s'.orders.orders == s.orders.orders && s'.payments.payments == s.payments.payments && s'.stuck == s.stuck
    requires forall x :: ViewOf(s', x) == ViewOf(s, x)
    ensures Works(s') == Works(s) && Unnoticed(s') == Unnoticed(s)
  {
  }

  lemma PublishNeeds(s: State, service: Service, a: Action)
    requires Enabled(s, Publish(service, a))
    ensures var s' := Apply(s, Publish(service, a));
      Works(s') == Works(s) && Unnoticed(s') == Unnoticed(s)
  {
    PublishView(s, service, a);
    SameNeeds(s, Apply(s, Publish(service, a)));
  }

  lemma PublishMeasure(s: State, service: Service, a: Action)
    requires Booked(s, service) && Enabled(s, Publish(service, a))
    ensures Measure(Apply(s, Publish(service, a))) == Measure(s) - if a.Finish? then 1 else 0
  {
    PublishNeeds(s, service, a);
    PublishPending(s, service, a);
  }

  /** Every relay action that does not fail brings the system closer to rest. */
  lemma PublishNears(s: State, service: Service, a: Action)
    requires Booked(s, service) && Enabled(s, Publish(service, a)) && !a.Fail?
    ensures Distance(Apply(s, Publish(service, a))) < Distance(s)
  {
    GripsStep(s, service, a);
    PublishMeasure(s, service, a);
    PublishNeeds(s, service, a);
  }

  lemma UnnoticedBelow(s: State, s': State)
    requires s'.payments.payments.Keys == s.payments.payments.Keys
    requires forall o :: P.Stuck(s'.payments, o) && P.Remembered(s'.payments, o) !in s'.stuck ==>
                           P.Stuck(s.payments, o) && P.Remembered(s.payments, o) !in s.stuck
    ensures Sum(Unnoticed(s')) <= Sum(Unnoticed(s))
  {
    SumBelow(Unnoticed(s).Keys, Unnoticed(s'), Unnoticed(s));
  }

  /** Only a new payment is news to the reconcilers. */
  lemma UnnoticedStep(s: State, step: Step)
    requires Enabled(s, step) && Ordinary(step) && !step.RecordIntent?
    ensures Sum(Unnoticed(Apply(s, step))) <= Sum(Unnoticed(s))
  {
    UnnoticedBelow(s, Apply(s, step));
  }

  lemma UnnoticedIntent(s: State, e: Envelope)
    requires Enabled(s, RecordIntent(e)) && P.RecordIntent(s.payments, e).outcome == Committed
    ensures Sum(Unnoticed(Apply(s, RecordIntent(e)))) <= Sum(Unnoticed(s)) + 1
  {
    var after := Unnoticed(Apply(s, RecordIntent(e)));
    assert after == Unnoticed(s)[e.order := after[e.order]];
    SumUpdate(Unnoticed(s), e.order, after[e.order]);
  }

  lemma GripsKept(s: State, step: Step)
    requires Enabled(s, step) && !step.Publish?
    ensures Grips(Apply(s, step)) == Grips(s)
  {
  }

  lemma RowHasOrder(s: State, e: Envelope)
    requires RowOf(s, e) && Consistent(e.order, ViewOf(s, e.order))
    ensures e.order in s.orders.orders
  {
    ViewRow(s, e);
  }

  lemma IntentIdle(s: State, e: Envelope)
    requires Enabled(s, RecordIntent(e)) && P.RecordIntent(s.payments, e).outcome != Committed
    ensures Apply(s, RecordIntent(e)) == s
  {
  }

  lemma IntentNears(s: State, e: Envelope)
    requires Books(s) && RowOf(s, e) && Consistent(e.order, ViewOf(s, e.order)) && Enabled(s, RecordIntent(e))
    ensures Distance(Apply(s, RecordIntent(e))) <= Distance(s)
  {
    if P.RecordIntent(s.payments, e).outcome == Committed {
      RowHasOrder(s, e);
      IntentCounts(s, e);
      UnnoticedIntent(s, e);
      GripsKept(s, RecordIntent(e));
    } else {
      IntentIdle(s, e);
    }
  }

  /** No step that succeeds takes the system further from rest, except that a customer orders. */
  lemma DistanceNeverGrows(seed: map<ItemId, int>, s: State, step: Step)
    requires Inv(seed, s) && Enabled(s, step) && Ordinary(step)
    ensures Distance(Apply(s, step)) <= Distance(s)
  {
    if step.Publish? {
      assert Booked(s, step.service);
      PublishNears(s, step.service, step.a);
    } else if step.RecordIntent? {
      SentIsRow(s, step.e);
      assert Consistent(step.e.order, ViewOf(s, step.e.order));
      IntentNears(s, step.e);
    } else {
      MeasureNeverGrows(seed, s, step);
      UnnoticedStep(s, step);
      GripsKept(s, step);
    }
  }

  // ---------- publishing ----------

  lemma PendingRow(rows: seq<Row>) returns (i: nat)
    requires Unpublished(rows) > 0
    ensures i < |rows| && !rows[i].published
  {
    UnpublishedZero(rows);
    i :| 0 <= i < |rows| && !rows[i].published;
  }

  /** The oldest row of a non-empty choice. */
  lemma {:induction false} OldestAvailable(rows: seq<Row>, ch: Channel, n: nat) returns (i: nat)
    requires n <= |rows|
    requires exists j: nat :: j < n && Available(rows, ch, j)
    ensures Available(rows, ch, i)
    ensures forall j: nat :: j < n && Available(rows, ch, j) ==> rows[i].createdAt <= rows[j].createdAt
  {
    if exists j: nat :: j < n - 1 && Available(rows, ch, j) {
      i := OldestAvailable(rows, ch, n - 1);
      if Available(rows, ch, n - 1) && rows[n - 1].createdAt < rows[i].createdAt {
        i := n - 1;
      }
    } else {
      i :| i < n && Available(rows, ch, i);
    }
  }

  lemma FreshRelay(holders: map<RelayId, Hold>) returns (r: RelayId)
    ensures r !in holders
  {
    r := 0;
    var seen: set<RelayId> := {};
    while r in holders
      invariant seen <= holders.Keys && forall x :: x in seen <==> 0 <= x < r
      decreases holders.Keys - seen
    {
      seen := seen + {r};
      r := r + 1;
    }
  }

  /** While a row is pending, some relay can act on one: whoever holds it can go on, and if nobody does it can be locked. */
  lemma RelayCanAct(rows: seq<Row>, ch: Channel) returns (a: Action)
    requires LocksSound(rows, ch) && Unpublished(rows) > 0
    ensures CanAct(rows, ch, a) && !a.Fail?
  {
    var i := PendingRow(rows);
    if Locked(ch, i) {
      var r :| r in ch.holders && ch.holders[r].row == i;
      a := if ch.holders[r].sent then Finish(r) else Send(r);
    } else {
      assert Available(rows, ch, i);
      var j := OldestAvailable(rows, ch, |rows|);
      var r := FreshRelay(ch.holders);
      a := Lock(r, j);
    }
  }

  // ---------- the events an order waits for ----------

  /** Published means sent. */
  lemma PublishedSent(s: State, service: Service, e: Envelope)
    requires Booked(s, service) && Unpublished(OutboxOf(s, service)) == 0
    requires e in About(OutboxOf(s, service), e.order)
    ensures e in ChannelOf(s, service).log && Sent(s, e)
  {
    var rows := OutboxOf(s, service);
    AboutMembers(rows, service, e.order);
    UnpublishedZero(rows);
    var i := e.id.serial;
    assert rows[i].published;
    assert Explained(rows, ChannelOf(s, service), i);
  }

  /** The events that would move an order on; for a payment in progress there are none, it waits for no event. */
  function Awaited(v: View): seq<Envelope>
    requires v.order.Some?
  {
    match PhaseOf(v)
    case Placed => v.orderRows
    case Rejected => v.restaurantRows
    case Reserved => v.restaurantRows
    case Charged => v.paymentRows
    case Declined => v.paymentRows
    case Failed => if v.orderRows == [] then [] else v.orderRows[1..]
    case _ => []
  }

  /** Phases an order leaves by an event; a payment in progress is left by its handler or the reconciler. */
  predicate Waits(p: Phase) {
    !Settled(p) && p != Processing
  }

  lemma AwaitedSome(o: OrderId, v: View)
    requires Consistent(o, v) && v.order.Some?
    ensures Awaited(v) != [] <==> Waits(PhaseOf(v))
    ensures forall e :: e in Awaited(v) ==> e in v.orderRows || e in v.restaurantRows || e in v.paymentRows
  {
  }

  lemma OwnRow(s: State, service: Service, o: OrderId, e: Envelope)
    requires e in About(OutboxOf(s, service), o) && Numbering(s)
    ensures e.order == o && e.id.source == service && RowOf(s, e)
  {
    AboutMembers(OutboxOf(s, service), service, o);
  }

  lemma AwaitedRow(s: State, o: OrderId, e: Envelope)
    requires Books(s) && Consistent(o, ViewOf(s, o)) && o in s.orders.orders && e in Awaited(ViewOf(s, o))
    ensures e.order == o && RowOf(s, e)
  {
    var v := ViewOf(s, o);
    AwaitedSome(o, v);
    OwnRow(s, if e in v.orderRows then Orders else if e in v.restaurantRows then Restaurant else Payments, o, e);
  }

  /** Handing the event to its consumer commits. */
  ghost predicate Commits(s: State, e: Envelope) {
    match e.topic
    case OrderPlaced => R.Handle(s.restaurant, e, 0).outcome == Committed
    case StockRelease => R.Handle(s.restaurant, e, 0).outcome == Committed
    case StockReserved => P.RecordIntent(s.payments, e).outcome == Committed
    case _ => O.Handle(s.orders, e, 0).outcome == Committed
  }

  lemma ReservationsNonNegative(s: State)
    requires AllConsistent(s) && NonNegativeOrders(s)
    ensures forall o :: o in s.restaurant.reservations ==> NonNegative(s.restaurant.reservations[o])
  {
    forall o | o in s.restaurant.reservations ensures NonNegative(s.restaurant.reservations[o]) {
      assert Consistent(o, ViewOf(s, o));
    }
  }

  lemma PlacedCommits(s: State, o: OrderId, e: Envelope)
    requires WellStocked(s.restaurant.stock) && Consistent(o, ViewOf(s, o))
    requires o in s.orders.orders && PhaseOf(ViewOf(s, o)) == Placed && NonNegative(s.orders.orders[o].items)
    requires e in Awaited(ViewOf(s, o)) && e.order == o
    ensures Commits(s, e)
  {
    R.PlaceCommits(s.restaurant, e, 0);
  }

  lemma FailedCommits(seed: map<ItemId, int>, s: State, o: OrderId, e: Envelope)
    requires WellStocked(seed) && R.Conserved(seed, s.restaurant)
    requires forall x :: x in s.restaurant.reservations ==> NonNegative(s.restaurant.reservations[x])
    requires Consistent(o, ViewOf(s, o)) && o in s.orders.orders && PhaseOf(ViewOf(s, o)) == Failed
    requires e in Awaited(ViewOf(s, o)) && e.order == o
    ensures Commits(s, e)
  {
    R.ReleaseCommits(seed, s.restaurant, e);
  }

  lemma ReservedCommits(s: State, o: OrderId, e: Envelope)
    requires Consistent(o, ViewOf(s, o)) && o in s.orders.orders && PhaseOf(ViewOf(s, o)) == Reserved
    requires e in Awaited(ViewOf(s, o)) && e.order == o
    ensures Commits(s, e)
  {
  }

  lemma DecidedCommits(s: State, o: OrderId, e: Envelope)
    requires Consistent(o, ViewOf(s, o)) && o in s.orders.orders && PhaseOf(ViewOf(s, o)) in {Rejected, Charged, Declined}
    requires e in Awaited(ViewOf(s, o)) && e.order == o
    ensures Commits(s, e)
  {
  }

  /** Handing over an awaited event commits, */
  lemma AwaitedCommits(seed: map<ItemId, int>, s: State, o: OrderId, e: Envelope)
    requires Inv(seed, s) && WellStocked(seed) && NonNegativeOrders(s)
    requires o in s.orders.orders && Consistent(o, ViewOf(s, o)) && e in Awaited(ViewOf(s, o))
    ensures e.order == o && RowOf(s, e) && Commits(s, e)
  {
    AwaitedRow(s, o, e);
    ReservationsNonNegative(s);
    if PhaseOf(ViewOf(s, o)) == Placed {
      PlacedCommits(s, o, e);
    } else if PhaseOf(ViewOf(s, o)) == Failed {
      FailedCommits(seed, s, o, e);
    } else if PhaseOf(ViewOf(s, o)) == Reserved {
      ReservedCommits(s, o, e);
    } else {
      DecidedCommits(s, o, e);
    }
  }

  lemma PlaceAwaited(s: State, e: Envelope)
    requires Books(s) && RowOf(s, e) && Consistent(e.order, ViewOf(s, e.order)) && e.topic == OrderPlaced && Commits(s, e)
    ensures e.order in s.orders.orders && e in Awaited(ViewOf(s, e.order))
  {
    ViewRow(s, e);
    RowByTopic(e.order, ViewOf(s, e.order), e);
    PlaceEffect(s, e, 0);
  }

  lemma ReleaseAwaits(o: OrderId, v: View, e: Envelope)
    requires Consistent(o, v) && v.order.Some? && PhaseOf(v) == Failed && e.topic == StockRelease
    requires e in v.orderRows || e in v.restaurantRows || e in v.paymentRows
    ensures e in Awaited(v)
  {
    RowByTopic(o, v, e);
    assert v.orderRows[1..] == [e];
  }

  lemma ReleaseAwaited(s: State, e: Envelope)
    requires Books(s) && RowOf(s, e) && Consistent(e.order, ViewOf(s, e.order)) && e.topic == StockRelease && Commits(s, e)
    ensures e.order in s.orders.orders && e in Awaited(ViewOf(s, e.order))
  {
    ViewRow(s, e);
    RowByTopic(e.order, ViewOf(s, e.order), e);
    ReleaseEffect(s, e);
    ReleaseAwaits(e.order, ViewOf(s, e.order), e);
  }

  lemma IntentAwaited(s: State, e: Envelope)
    requires Books(s) && RowOf(s, e) && Consistent(e.order, ViewOf(s, e.order)) && e.topic == StockReserved && Commits(s, e)
    ensures e.order in s.orders.orders && e in Awaited(ViewOf(s, e.order))
  {
    ViewRow(s, e);
    RowByTopic(e.order, ViewOf(s, e.order), e);
  }

  lemma PendingAwaits(o: OrderId, v: View, e: Envelope)
    requires Consistent(o, v) && v.order.Some? && v.order.value.status == O.Pending
    requires e in v.orderRows || e in v.restaurantRows || e in v.paymentRows
    requires e.topic in {PaymentSucceeded, PaymentFailed, StockRejected}
    ensures e in Awaited(v)
  {
    RowByTopic(o, v, e);
    if e.topic == StockRejected {
      assert PhaseOf(v) == Rejected;
    } else {
      assert PhaseOf(v) in {Charged, Declined};
    }
  }

  lemma CommitsPending(s: State, e: Envelope)
    requires Commits(s, e) && e.topic in {PaymentSucceeded, PaymentFailed, StockRejected}
    ensures e.order in s.orders.orders && s.orders.orders[e.order].status == O.Pending
  {
    O.TransitionsFromPendingOnly(s.orders, e, 0);
  }

  lemma OutcomeAwaited(s: State, e: Envelope)
    requires Books(s) && RowOf(s, e) && Consistent(e.order, ViewOf(s, e.order)) && Commits(s, e)
    requires e.topic in {PaymentSucceeded, PaymentFailed, StockRejected}
    ensures e.order in s.orders.orders && e in Awaited(ViewOf(s, e.order))
  {
    ViewRow(s, e);
    CommitsPending(s, e);
    PendingAwaits(e.order, ViewOf(s, e.order), e);
  }

  /** and nothing else does. */
  lemma CommitsAwaited(s: State, e: Envelope)
    requires Books(s) && RowOf(s, e) && Consistent(e.order, ViewOf(s, e.order)) && Commits(s, e)
    ensures e.order in s.orders.orders && e in Awaited(ViewOf(s, e.order))
  {
    match e.topic
    case OrderPlaced => PlaceAwaited(s, e);
    case StockRelease => ReleaseAwaited(s, e);
    case StockReserved => IntentAwaited(s, e);
    case _ => OutcomeAwaited(s, e);
  }

  // ---------- steps that count ----------

  /** A committed effect that shows in the order's view counts. */
  lemma EffectCounts(s: State, s': State, o: OrderId)
    requires Effect(s, s', o) && o in s.orders.orders && ViewOf(s', o) != ViewOf(s, o)
    ensures Measure(s') < Measure(s)
  {
    EffectMeasure(s, s', o);
  }

  lemma IntentShows(s: State, e: Envelope)
    requires Enabled(s, RecordIntent(e)) && P.RecordIntent(s.payments, e).outcome == Committed
    ensures var s' := Apply(s, RecordIntent(e));
      && s' == WithPayments(s, P.RecordIntent(s.payments, e).db, s.flights[e.order := P.ChargeOf(e)])
      && ViewOf(s', e.order).payment != ViewOf(s, e.order).payment
  {
  }

  lemma IntentCounts(s: State, e: Envelope)
    requires Books(s) && RowOf(s, e) && Consistent(e.order, ViewOf(s, e.order)) && e.order in s.orders.orders
    requires Enabled(s, RecordIntent(e)) && P.RecordIntent(s.payments, e).outcome == Committed
    ensures Measure(Apply(s, RecordIntent(e))) < Measure(s)
  {
    IntentEffect(s, e);
    IntentShows(s, e);
    EffectCounts(s, Apply(s, RecordIntent(e)), e.order);
  }

  /** Steps, other than deliveries, that change a table or what is known of it. */
  ghost predicate Effective(s: State, step: Step) {
    match step
    case Publish(_, _) => true
    case RecordOutcome(_, _) => true
    case Reconcile(ch, _) => P.Stuck(s.payments, ch.order)
    case FinishRelease(r) => Commits(s, r.e)
    case Snapshot(found) => exists o :: o in found && P.Stuck(s.payments, o) && P.Remembered(s.payments, o) !in s.stuck
    case _ => false
  }

  lemma OutcomeNears(s: State, o: OrderId, now: int)
    requires Books(s) && AllConsistent(s) && Enabled(s, RecordOutcome(o, now))
    ensures Distance(Apply(s, RecordOutcome(o, now))) < Distance(s)
  {
    var step := RecordOutcome(o, now);
    assert Consistent(o, ViewOf(s, o));
    OutcomeShape(s, o, now);
    assert ViewOf(Apply(s, step), o).flight != ViewOf(s, o).flight;
    EffectCounts(s, Apply(s, step), o);
    UnnoticedStep(s, step);
    GripsKept(s, step);
  }

  lemma SettleCounts(s: State, ch: P.Charge, now: int)
    requires Books(s) && Consistent(ch.order, ViewOf(s, ch.order)) && StuckSound(s)
    requires Enabled(s, Reconcile(ch, now)) && P.Stuck(s.payments, ch.order)
    ensures Measure(Apply(s, Reconcile(ch, now))) < Measure(s)
  {
    var s' := Apply(s, Reconcile(ch, now));
    OutcomeEffect(s, ch, now, s.flights);
    Forget(s, WithPayments(s, P.RecordOutcome(s.payments, ch, now), s.flights), s', ch.order);
    assert ViewOf(s', ch.order).payment != ViewOf(s, ch.order).payment;
    EffectCounts(s, s', ch.order);
  }

  /** A stuck payment is finished without its handler. */
  lemma SettleNears(s: State, ch: P.Charge, now: int)
    requires Books(s) && AllConsistent(s) && StuckSound(s)
    requires Enabled(s, Reconcile(ch, now)) && P.Stuck(s.payments, ch.order)
    ensures Distance(Apply(s, Reconcile(ch, now))) < Distance(s)
  {
    assert Consistent(ch.order, ViewOf(s, ch.order));
    SettleCounts(s, ch, now);
    UnnoticedStep(s, Reconcile(ch, now));
    GripsKept(s, Reconcile(ch, now));
  }

  lemma ReleaseCounts(s: State, r: Release)
    requires Books(s) && AllConsistent(s) && ReleasesSound(s) && Enabled(s, FinishRelease(r)) && Commits(s, r.e)
    ensures Measure(Apply(s, FinishRelease(r))) < Measure(s)
  {
    FinishAsHandle(s, r);
    var s1 := WithRestaurant(s, R.Handle(s.restaurant, r.e, 0).db);
    assert Consistent(r.e.order, ViewOf(s, r.e.order));
    ReleaseEffect(s, r.e);
    Forget(s, s1, Apply(s, FinishRelease(r)), r.e.order);
    ForgetViews(s1, Apply(s, FinishRelease(r)));
    EffectCounts(s, Apply(s, FinishRelease(r)), r.e.order);
  }

  lemma ReleaseNears(s: State, r: Release)
    requires Books(s) && AllConsistent(s) && ReleasesSound(s) && Enabled(s, FinishRelease(r)) && Commits(s, r.e)
    ensures Distance(Apply(s, FinishRelease(r))) < Distance(s)
  {
    ReleaseCounts(s, r);
    UnnoticedStep(s, FinishRelease(r));
    GripsKept(s, FinishRelease(r));
  }

  /** A stuck payment nobody remembers is noticed by a snapshot. */
  lemma NoticeNears(s: State, found: set<OrderId>)
    requires Enabled(s, Snapshot(found)) && Effective(s, Snapshot(found))
    ensures Distance(Apply(s, Snapshot(found))) < Distance(s)
  {
    var s' := Apply(s, Snapshot(found));
    var o :| o in found && P.Stuck(s.payments, o) && P.Remembered(s.payments, o) !in s.stuck;
    var before, after := Unnoticed(s), Unnoticed(s');
    assert before[o] == 1;
    SumUpdate(before, o, 0);
    SumBelow(before.Keys, after, before[o := 0]);
    assert before[o := 0].Keys == before.Keys;
    assert Works(s') == Works(s);
  }

  /** Every such step brings the system closer to rest. */
  lemma EffectiveNears(s: State, step: Step)
    requires SagaParts(s) && RelayInv(s) && Enabled(s, step) && Ordinary(step) && Effective(s, step)
    ensures Distance(Apply(s, step)) < Distance(s)
  {
    match step
    case Publish(service, a) =>
      assert Booked(s, service);
      PublishNears(s, service, a);
    case RecordOutcome(o, now) => OutcomeNears(s, o, now);
    case Reconcile(ch, now) => SettleNears(s, ch, now);
    case FinishRelease(r) => ReleaseNears(s, r);
    case Snapshot(found) => NoticeNears(s, found);
  }

  ghost predicate SagaParts(s: State) {
    Books(s) && AllConsistent(s) && StuckSound(s) && ReleasesSound(s)
  }

  /** The others change no table and no channel. */
  lemma IdleStep(s: State, step: Step)
    requires SagaParts(s) && Enabled(s, step) && Ordinary(step) && !Effective(s, step)
    requires step.Reconcile? || step.FinishRelease? || step.Snapshot?
    ensures Apply(s, step) == s.(stuck := Apply(s, step).stuck, releasing := Apply(s, step).releasing)
  {
    if step.FinishRelease? {
      FinishAsHandle(s, step.release);
    }
  }

  /** The step that hands an event to its consumer. */
  function HandlerOf(e: Envelope): Step {
    match e.topic
    case OrderPlaced => RestaurantHandles(e, 0)
    case StockRelease => RestaurantHandles(e, 0)
    case StockReserved => RecordIntent(e)
    case _ => OrderHandles(e, 0)
  }

  /** What an order asks for never changes, and ordinary steps create no order. */
  lemma ItemsStay(seed: map<ItemId, int>, s: State, step: Step)
    requires Inv(seed, s) && Enabled(s, step) && Ordinary(step) && NonNegativeOrders(s)
    ensures NonNegativeOrders(Apply(s, step))
  {
    var s' := Apply(s, step);
    StepKeeps(seed, s, step);
    OrdersFixed(s, step);
    forall o | o in s'.orders.orders ensures NonNegative(s'.orders.orders[o].items) {
      assert Onward(o, ViewOf(s, o), ViewOf(s', o));
    }
  }
}
