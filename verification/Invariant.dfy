/** Every step keeps the saga invariant. First on the view of the order concerned, then for the whole state. */
module Invariant {
  import opened Events
  import opened Gateway
  import opened Stock
  import opened Outbox
  import opened System
  import opened Views
  import R = RestaurantService
  import P = PaymentService
  import O = OrderService

  // ---------- one order ----------

  /** The topic of an event tells which row of its order's history it is, and how far that order has come. */
  lemma RowByTopic(o: OrderId, v: View, e: Envelope)
    requires Consistent(o, v)
    requires e in v.orderRows || e in v.restaurantRows || e in v.paymentRows
    ensures v.order.Some?
    ensures e.topic == OrderPlaced ==> At(v.orderRows, 0, e) && e.body == BodyOf(v.order.value)
    ensures e.topic == StockRelease ==> At(v.orderRows, 1, e) && v.order.value.status == O.PaymentFailure
    ensures e.topic == StockReserved ==> v.restaurantRows == [e] && e.body == BodyOf(v.order.value)
    ensures e.topic == StockRejected ==> v.restaurantRows == [e] && PhaseOf(v) in {Rejected, Unavailable}
    ensures e.topic in {PaymentSucceeded, PaymentFailed} ==>
              && (At(v.paymentRows, 0, e) || At(v.paymentRows, 1, e))
              && e.topic == P.OutcomeTopic(ChargeFor(o, v.order.value))
              && (Paid(PhaseOf(v)) || Unpaid(PhaseOf(v)))
  {
  }

  lemma CreatedConsistent(o: OrderId, v: View, row: O.Order, e: Envelope)
    requires Consistent(o, v) && v.order.None?
    requires row.status == O.Pending && Fits(row.simulate, O.SIMULATE_WIDTH)
    requires e.topic == OrderPlaced && e.body == BodyOf(row)
    requires !v.placedSeen && !v.releaseSeen && !v.reservedSeen && !v.rejectedSeen && !v.outcomeSeen
    ensures var v' := AddRow(v, Orders, e).(order := Some(row));
      Consistent(o, v') && Onward(o, v, v')
  {
    var v' := AddRow(v, Orders, e).(order := Some(row));
    assert PhaseOf(v') == Placed;
  }

  lemma ReservedConsistent(o: OrderId, v: View, e: Envelope, sent: Envelope)
    requires Consistent(o, v) && At(v.orderRows, 0, e) && e.topic == OrderPlaced && !v.placedSeen
    requires sent.topic == StockReserved && sent.body == e.body
    ensures v.order.Some? && PhaseOf(v) == Placed && e.body == BodyOf(v.order.value)
    ensures var v' := Flagged(AddRow(v, Restaurant, sent).(reservation := Some(e.body.items)), Restaurant, e);
      Consistent(o, v') && Onward(o, v, v') && PhaseOf(v') == Reserved
  {
    assert v.orderRows[0].topic == OrderPlaced;
  }

  lemma RejectedConsistent(o: OrderId, v: View, e: Envelope, sent: Envelope)
    requires Consistent(o, v) && At(v.orderRows, 0, e) && e.topic == OrderPlaced && !v.placedSeen
    requires sent.topic == StockRejected
    ensures v.order.Some? && PhaseOf(v) == Placed
    ensures var v' := Flagged(AddRow(v, Restaurant, sent), Restaurant, e);
      Consistent(o, v') && Onward(o, v, v') && PhaseOf(v') == Rejected
  {
  }

  lemma ReleasedConsistent(o: OrderId, v: View, e: Envelope)
    requires Consistent(o, v) && v.order.Some? && At(v.orderRows, 1, e) && e.topic == StockRelease && !v.releaseSeen
    ensures PhaseOf(v) == Failed && v.reservation == Some(v.order.value.items)
    ensures var v' := Flagged(v.(reservation := None), Restaurant, e);
      Consistent(o, v') && Onward(o, v, v') && PhaseOf(v') == Released
  {
    assert v.orderRows[0] != e;
  }

  lemma SettledConsistent(o: OrderId, v: View, e: Envelope, target: O.Status)
    requires Consistent(o, v) && v.order.Some? && v.order.value.status == O.Pending
    requires target == O.Confirmed || target == O.StockUnavailable
    requires if target == O.Confirmed then (At(v.paymentRows, 0, e) || At(v.paymentRows, 1, e)) && e.topic == PaymentSucceeded
             else At(v.restaurantRows, 0, e) && e.topic == StockRejected
    ensures var v' := Flagged(v.(order := Some(v.order.value.(status := target))), Orders, e);
      Consistent(o, v') && Onward(o, v, v') && PhaseOf(v') != PhaseOf(v)
  {
    assert PhaseOf(v) == if target == O.Confirmed then Charged else Rejected;
  }

  lemma CompensatedConsistent(o: OrderId, v: View, e: Envelope, sent: Envelope)
    requires Consistent(o, v) && v.order.Some? && v.order.value.status == O.Pending
    requires At(v.paymentRows, 0, e) || At(v.paymentRows, 1, e)
    requires e.topic == PaymentFailed && sent.topic == StockRelease
    ensures var v' := Flagged(AddRow(v, Orders, sent).(order := Some(v.order.value.(status := O.PaymentFailure))), Orders, e);
      Consistent(o, v') && Onward(o, v, v') && PhaseOf(v') == Failed
  {
    assert PhaseOf(v) == Declined;
  }

  lemma IntentConsistent(o: OrderId, v: View, e: Envelope)
    requires Consistent(o, v) && v.order.Some? && v.restaurantRows == [e] && e.topic == StockReserved && !v.reservedSeen
    requires e.order == o && e.body == BodyOf(v.order.value)
    ensures P.ChargeOf(e) == ChargeFor(o, v.order.value)
    ensures var v' := Flagged(v.(payment := Some(P.Payment(e.body.amount, P.Processing, e.body.simulate)),
                                 flight := Some(P.ChargeOf(e))), Payments, e);
      Consistent(o, v') && Onward(o, v, v') && PhaseOf(v') == Processing
  {
    assert PhaseOf(v) == Reserved;
  }

  /** Transaction 2 and the reconciler's transaction write the same thing, so their order does not matter. */
  lemma OutcomeConsistent(o: OrderId, v: View, c: P.Charge, sent: Envelope, flight: Option<P.Charge>)
    requires Consistent(o, v) && v.order.Some? && v.payment.Some? && c == ChargeFor(o, v.order.value)
    requires sent.topic == P.OutcomeTopic(c)
    requires (v.flight.Some? && flight.None?) || (PhaseOf(v) == Processing && flight == v.flight)
    ensures var v' := AddRow(v, Payments, sent).(payment := Some(v.payment.value.(status := P.OutcomeStatus(c))), flight := flight);
      Consistent(o, v') && Onward(o, v, v')
  {
    var v' := AddRow(v, Payments, sent).(payment := Some(v.payment.value.(status := P.OutcomeStatus(c))), flight := flight);
    forall e | e in v'.paymentRows ensures e.topic == P.OutcomeTopic(c) {
      assert e in v.paymentRows || e == sent;
    }
    assert PhaseOf(v') == if PhaseOf(v) != Processing then PhaseOf(v) else if Pays(o, v.order.value) then Charged else Declined;
  }

  lemma FlightLost(o: OrderId, v: View)
    requires Consistent(o, v)
    ensures Consistent(o, v.(flight := None)) && Onward(o, v, v.(flight := None))
  {
  }

  // ---------- the whole state ----------

  /** Stock changes with the reservation and with the release, by exactly the order's items, and otherwise not at all. */
  ghost predicate StockMoved(v: View, v': View, stock: map<ItemId, int>, stock': map<ItemId, int>) {
    if v.order.None? || v'.order.None? || PhaseOf(v') == PhaseOf(v) then stock' == stock
    else
      var items := v.order.value.items;
      match PhaseOf(v')
      case Reserved => Deduct(stock, items) == Update(stock', None)
      case Rejected => stock' == stock && Deduct(stock, items).error.Some?
      case Released => Restore(stock, items) == Update(stock', None)
      case _ => stock' == stock
  }

  /** One order moved on, all others stayed, and its new rows are the only new rows. */
  ghost predicate Effect(s: State, s': State, o: OrderId) {
    var v, v' := ViewOf(s, o), ViewOf(s', o);
    && Books(s')
    && OthersKept(s, s', o)
    && Consistent(o, v') && Onward(o, v, v')
    && PendingRows(s') + RowCount(v) == PendingRows(s) + RowCount(v')
    && StockMoved(v, v', s.restaurant.stock, s'.restaurant.stock)
  }

  lemma ReleasesKept(s: State, s': State)
    requires ReleasesSound(s)
    requires forall o :: ViewOf(s, o).order.Some? ==> Onward(o, ViewOf(s, o), ViewOf(s', o))
    requires s'.releasing <= s.releasing
    ensures ReleasesSound(s')
  {
    forall r | r in s'.releasing ensures ReleaseSound(s', r) {
      assert ReleaseSound(s, r);
      var v, v' := ViewOf(s, r.e.order), ViewOf(s', r.e.order);
      assert Onward(r.e.order, v, v');
      var k :| 0 <= k < |v.orderRows| && v.orderRows[k] == r.e;
      assert v'.orderRows[k] == r.e;
    }
  }

  /** A row of the outbox, seen in the view of its order. */
  lemma ViewRow(s: State, e: Envelope)
    requires RowOf(s, e)
    ensures var v := ViewOf(s, e.order);
      e in v.orderRows || e in v.restaurantRows || e in v.paymentRows
  {
  }

  function WithRestaurant(s: State, db: R.RestaurantDb): State {
    s.(restaurant := db)
  }

  /** The event and payload that answer an order.placed. */
  function Verdict(s: State, e: Envelope): (Topic, Body)
    requires e.body.OrderBody?
  {
    var error := Deduct(s.restaurant.stock, e.body.items).error;
    if error.None? then (StockReserved, e.body) else (StockRejected, RejectBody(error.value))
  }

  lemma PlaceView(s: State, e: Envelope, now: int)
    requires Books(s) && RowOf(s, e) && R.PlaceOrder(s.restaurant, e, now).outcome == Committed
    ensures var s' := WithRestaurant(s, R.PlaceOrder(s.restaurant, e, now).db);
      var (topic, body) := Verdict(s, e);
      var v := AddRow(ViewOf(s, e.order), Restaurant, NextEvent(s, Restaurant, topic, e.order, body));
      && Books(s') && OthersKept(s, s', e.order) && PendingRows(s') == PendingRows(s) + 1
      && ViewOf(s', e.order) ==
         Flagged(if topic == StockReserved then v.(reservation := Some(e.body.items)) else v, Restaurant, e)
  {
    var (topic, body) := Verdict(s, e);
    var s1 := Emitted(s, Restaurant, topic, e.order, body, now);
    var done := R.PlaceOrder(s.restaurant, e, now).db;
    var s2 := WithRestaurant(s1, s1.restaurant.(stock := done.stock, reservations := done.reservations));
    TransactionView(s, s2, Restaurant, e, topic, body, now);
    assert WithRestaurant(s, done) == Noted(s2, Restaurant, e);
  }

  lemma PlaceReserves(s: State, e: Envelope, now: int)
    requires Books(s) && Consistent(e.order, ViewOf(s, e.order)) && RowOf(s, e) && e.topic == OrderPlaced
    requires R.PlaceOrder(s.restaurant, e, now).outcome == Committed && Deduct(s.restaurant.stock, e.body.items).error.None?
    requires At(ViewOf(s, e.order).orderRows, 0, e)
    ensures var s' := WithRestaurant(s, R.PlaceOrder(s.restaurant, e, now).db);
      Effect(s, s', e.order) && PhaseOf(ViewOf(s, e.order)) == Placed && PhaseOf(ViewOf(s', e.order)) == Reserved
  {
    PlaceView(s, e, now);
    ReservedConsistent(e.order, ViewOf(s, e.order), e, NextEvent(s, Restaurant, StockReserved, e.order, e.body));
  }

  lemma PlaceRejects(s: State, e: Envelope, now: int)
    requires Books(s) && Consistent(e.order, ViewOf(s, e.order)) && RowOf(s, e) && e.topic == OrderPlaced
    requires R.PlaceOrder(s.restaurant, e, now).outcome == Committed && Deduct(s.restaurant.stock, e.body.items).error.Some?
    requires At(ViewOf(s, e.order).orderRows, 0, e)
    requires ViewOf(s, e.order).order.Some? && s.orders.orders[e.order].items == e.body.items
    ensures var s' := WithRestaurant(s, R.PlaceOrder(s.restaurant, e, now).db);
      Effect(s, s', e.order) && PhaseOf(ViewOf(s, e.order)) == Placed && PhaseOf(ViewOf(s', e.order)) == Rejected
  {
    var (topic, body) := Verdict(s, e);
    PlaceView(s, e, now);
    RejectedConsistent(e.order, ViewOf(s, e.order), e, NextEvent(s, Restaurant, topic, e.order, body));
  }

  lemma PlaceEffect(s: State, e: Envelope, now: int)
    requires Books(s) && Consistent(e.order, ViewOf(s, e.order)) && RowOf(s, e) && e.topic == OrderPlaced
    requires R.PlaceOrder(s.restaurant, e, now).outcome == Committed
    ensures var s' := WithRestaurant(s, R.PlaceOrder(s.restaurant, e, now).db);
      && Effect(s, s', e.order)
      && s.orders.orders[e.order].items == e.body.items
      && PhaseOf(ViewOf(s, e.order)) == Placed
      && PhaseOf(ViewOf(s', e.order)) ==
           if Deduct(s.restaurant.stock, e.body.items).error.None? then Reserved else Rejected
  {
    ViewRow(s, e);
    RowByTopic(e.order, ViewOf(s, e.order), e);
    if Deduct(s.restaurant.stock, e.body.items).error.None? {
      PlaceReserves(s, e, now);
    } else {
      PlaceRejects(s, e, now);
    }
  }

  lemma ReleaseView(s: State, e: Envelope)
    requires Books(s) && RowOf(s, e) && e.order in s.restaurant.reservations
    requires R.ReleaseOrder(s.restaurant, e, R.ReservationOf(s.restaurant, e.order)).outcome == Committed
    ensures var s' := WithRestaurant(s, R.ReleaseOrder(s.restaurant, e, R.ReservationOf(s.restaurant, e.order)).db);
      && Books(s') && OthersKept(s, s', e.order) && PendingRows(s') == PendingRows(s)
      && ViewOf(s', e.order) == Flagged(ViewOf(s, e.order).(reservation := None), Restaurant, e)
  {
    var done := R.ReleaseOrder(s.restaurant, e, R.ReservationOf(s.restaurant, e.order)).db;
    var s2 := WithRestaurant(s, s.restaurant.(stock := done.stock, reservations := done.reservations));
    QuietTransactionView(s, s2, Restaurant, e);
    assert WithRestaurant(s, done) == Noted(s2, Restaurant, e);
  }

  lemma ReleaseEffect(s: State, e: Envelope)
    requires Books(s) && Consistent(e.order, ViewOf(s, e.order)) && RowOf(s, e) && e.topic == StockRelease
    requires R.ReleaseOrder(s.restaurant, e, R.ReservationOf(s.restaurant, e.order)).outcome == Committed
    ensures var row := R.ReservationOf(s.restaurant, e.order);
      var s' := WithRestaurant(s, R.ReleaseOrder(s.restaurant, e, row).db);
      && Effect(s, s', e.order)
      && PhaseOf(ViewOf(s, e.order)) == Failed && PhaseOf(ViewOf(s', e.order)) == Released
      && row == Some(s.orders.orders[e.order].items)
  {
    var v := ViewOf(s, e.order);
    ViewRow(s, e);
    RowByTopic(e.order, v, e);
    ReleasedConsistent(e.order, v, e);
    ReleaseView(s, e);
  }

  function WithOrders(s: State, db: O.OrderDb): State {
    s.(orders := db)
  }

  lemma CompensationView(s: State, e: Envelope, now: int)
    requires Books(s) && RowOf(s, e) && e.topic == PaymentFailed
    requires O.Transact(s.orders, e, now).outcome == Committed
    ensures var s' := WithOrders(s, O.Transact(s.orders, e, now).db);
      && Books(s') && OthersKept(s, s', e.order) && PendingRows(s') == PendingRows(s) + 1
      && ViewOf(s', e.order) ==
         Flagged(AddRow(ViewOf(s, e.order), Orders, NextEvent(s, Orders, StockRelease, e.order, EmptyBody))
                   .(order := Some(s.orders.orders[e.order].(status := O.PaymentFailure))), Orders, e)
  {
    var done := O.Transact(s.orders, e, now).db;
    var s1 := Emitted(s, Orders, StockRelease, e.order, EmptyBody, now);
    var s2 := WithOrders(s1, s1.orders.(orders := done.orders));
    TransactionView(s, s2, Orders, e, StockRelease, EmptyBody, now);
    assert WithOrders(s, done) == Noted(s2, Orders, e);
  }

  lemma CompensationEffect(s: State, e: Envelope, now: int)
    requires Books(s) && Consistent(e.order, ViewOf(s, e.order)) && RowOf(s, e) && e.topic == PaymentFailed
    requires O.Transact(s.orders, e, now).outcome == Committed
    ensures Effect(s, WithOrders(s, O.Transact(s.orders, e, now).db), e.order)
    ensures PhaseOf(ViewOf(WithOrders(s, O.Transact(s.orders, e, now).db), e.order)) == Failed
  {
    var v := ViewOf(s, e.order);
    ViewRow(s, e);
    RowByTopic(e.order, v, e);
    CompensatedConsistent(e.order, v, e, NextEvent(s, Orders, StockRelease, e.order, EmptyBody));
    CompensationView(s, e, now);
  }

  lemma SettlementView(s: State, e: Envelope, now: int)
    requires Books(s) && RowOf(s, e) && e.topic != PaymentFailed
    requires O.Transact(s.orders, e, now).outcome == Committed
    ensures var s' := WithOrders(s, O.Transact(s.orders, e, now).db);
      && Books(s') && OthersKept(s, s', e.order) && PendingRows(s') == PendingRows(s)
      && ViewOf(s', e.order) ==
         Flagged(ViewOf(s, e.order).(order := Some(s.orders.orders[e.order].(status := O.TargetOf(e.topic).value))), Orders, e)
  {
    var done := O.Transact(s.orders, e, now).db;
    var s2 := WithOrders(s, s.orders.(orders := done.orders));
    QuietTransactionView(s, s2, Orders, e);
    assert WithOrders(s, done) == Noted(s2, Orders, e);
  }

  lemma SettlementEffect(s: State, e: Envelope, now: int)
    requires Books(s) && Consistent(e.order, ViewOf(s, e.order)) && RowOf(s, e) && e.topic != PaymentFailed
    requires O.Transact(s.orders, e, now).outcome == Committed
    ensures Effect(s, WithOrders(s, O.Transact(s.orders, e, now).db), e.order)
  {
    var v := ViewOf(s, e.order);
    ViewRow(s, e);
    RowByTopic(e.order, v, e);
    SettledConsistent(e.order, v, e, O.TargetOf(e.topic).value);
    SettlementView(s, e, now);
  }

  lemma OrderEffect(s: State, e: Envelope, now: int)
    requires Books(s) && Consistent(e.order, ViewOf(s, e.order)) && RowOf(s, e)
    requires O.Transact(s.orders, e, now).outcome == Committed
    ensures Effect(s, WithOrders(s, O.Transact(s.orders, e, now).db), e.order)
  {
    if e.topic == PaymentFailed {
      CompensationEffect(s, e, now);
    } else {
      SettlementEffect(s, e, now);
    }
  }

  lemma CreateEffect(s: State, id: OrderId, req: O.Request, now: int)
    requires Books(s) && Consistent(id, ViewOf(s, id))
    requires O.Insert(s.orders, id, req, now).outcome == Committed
    ensures Effect(s, WithOrders(s, O.Insert(s.orders, id, req, now).db), id)
  {
    var v := ViewOf(s, id);
    var done := O.Insert(s.orders, id, req, now).db;
    var body := OrderBody(req.user, req.items, req.amount, Carried(req.simulate));
    var s1 := Emitted(s, Orders, OrderPlaced, id, body, now);
    var s2 := WithOrders(s, done);
    EmitView(s, Orders, OrderPlaced, id, body, now);
    EmitBooks(s, Orders, OrderPlaced, id, body, now);
    EmitFacts(s.orders.outbox, Orders, OrderPlaced, id, body, now);
    TablesView(s1, s2, id);
    RecordsKept(s1, s2);
    CreatedConsistent(id, v, done.orders[id], NextEvent(s, Orders, OrderPlaced, id, body));
  }

  function WithPayments(s: State, db: P.PaymentDb, flights: map<OrderId, P.Charge>): State {
    s.(payments := db, flights := flights)
  }

  lemma IntentView(s: State, e: Envelope)
    requires Books(s) && RowOf(s, e) && P.RecordIntent(s.payments, e).outcome == Committed
    ensures var s' := WithPayments(s, P.RecordIntent(s.payments, e).db, s.flights[e.order := P.ChargeOf(e)]);
      && Books(s') && OthersKept(s, s', e.order) && PendingRows(s') == PendingRows(s)
      && ViewOf(s', e.order) ==
         Flagged(ViewOf(s, e.order).(payment := Some(P.Payment(e.body.amount, P.Processing, e.body.simulate)),
                                     flight := Some(P.ChargeOf(e))), Payments, e)
  {
    var done := P.RecordIntent(s.payments, e).db;
    var flights := s.flights[e.order := P.ChargeOf(e)];
    var s2 := WithPayments(s, s.payments.(payments := done.payments), flights);
    QuietTransactionView(s, s2, Payments, e);
    assert WithPayments(s, done, flights) == Noted(s2, Payments, e);
  }

  lemma IntentEffect(s: State, e: Envelope)
    requires Books(s) && Consistent(e.order, ViewOf(s, e.order)) && RowOf(s, e) && e.topic == StockReserved
    requires P.RecordIntent(s.payments, e).outcome == Committed
    ensures var s' := WithPayments(s, P.RecordIntent(s.payments, e).db, s.flights[e.order := P.ChargeOf(e)]);
      Effect(s, s', e.order)
  {
    ViewRow(s, e);
    RowByTopic(e.order, ViewOf(s, e.order), e);
    IntentConsistent(e.order, ViewOf(s, e.order), e);
    IntentView(s, e);
  }

  /** Beside its event, an outcome changes one payment row and one handler in flight. */
  lemma OutcomeKeeps(s: State, c: P.Charge, now: int, flights: map<OrderId, P.Charge>)
    requires flights == s.flights || flights == s.flights - {c.order}
    ensures var s1 := Emitted(s, Payments, P.OutcomeTopic(c), c.order, EmptyBody, now);
      var s2 := WithPayments(s, P.RecordOutcome(s.payments, c, now), flights);
      SameRecords(s1, s2) && OtherTablesKept(s1, s2, c.order)
  {
  }

  lemma OutcomeRows(s: State, c: P.Charge, now: int, flights: map<OrderId, P.Charge>)
    requires Books(s) && c.order in s.payments.payments
    requires flights == s.flights || flights == s.flights - {c.order}
    ensures var s' := WithPayments(s, P.RecordOutcome(s.payments, c, now), flights);
      && Books(s') && OthersKept(s, s', c.order) && PendingRows(s') == PendingRows(s) + 1
      && ViewOf(s', c.order) ==
         Retabled(AddRow(ViewOf(s, c.order), Payments, NextEvent(s, Payments, P.OutcomeTopic(c), c.order, EmptyBody)), s', c.order)
  {
    var s1 := Emitted(s, Payments, P.OutcomeTopic(c), c.order, EmptyBody, now);
    var s2 := WithPayments(s, P.RecordOutcome(s.payments, c, now), flights);
    OutcomeKeeps(s, c, now, flights);
    EmitView(s, Payments, P.OutcomeTopic(c), c.order, EmptyBody, now);
    EmitBooks(s, Payments, P.OutcomeTopic(c), c.order, EmptyBody, now);
    EmitFacts(s.payments.outbox, Payments, P.OutcomeTopic(c), c.order, EmptyBody, now);
    TablesView(s1, s2, c.order);
    RecordsKept(s1, s2);
  }

  /** The table part of the view after an outcome. */
  lemma OutcomeTables(s: State, c: P.Charge, now: int, flights: map<OrderId, P.Charge>, v: View)
    requires c.order in s.payments.payments
    requires v.order == Lookup(s.orders.orders, c.order) && v.reservation == Lookup(s.restaurant.reservations, c.order)
    ensures Retabled(v, WithPayments(s, P.RecordOutcome(s.payments, c, now), flights), c.order) ==
            v.(payment := Some(s.payments.payments[c.order].(status := P.OutcomeStatus(c))), flight := Lookup(flights, c.order))
  {
  }

  lemma OutcomeView(s: State, c: P.Charge, now: int, flights: map<OrderId, P.Charge>)
    requires Books(s) && c.order in s.payments.payments
    requires flights == s.flights || flights == s.flights - {c.order}
    ensures var s' := WithPayments(s, P.RecordOutcome(s.payments, c, now), flights);
      && Books(s') && OthersKept(s, s', c.order) && PendingRows(s') == PendingRows(s) + 1
      && ViewOf(s', c.order) ==
         AddRow(ViewOf(s, c.order), Payments, NextEvent(s, Payments, P.OutcomeTopic(c), c.order, EmptyBody))
           .(payment := Some(s.payments.payments[c.order].(status := P.OutcomeStatus(c))), flight := Lookup(flights, c.order))
  {
    OutcomeRows(s, c, now, flights);
    OutcomeTables(s, c, now, flights,
                  AddRow(ViewOf(s, c.order), Payments, NextEvent(s, Payments, P.OutcomeTopic(c), c.order, EmptyBody)));
  }

  lemma OutcomeEffect(s: State, c: P.Charge, now: int, flights: map<OrderId, P.Charge>)
    requires Books(s) && Consistent(c.order, ViewOf(s, c.order)) && c.order in s.payments.payments
    requires c == P.Remembered(s.payments, c.order)
    requires (flights == s.flights && P.Stuck(s.payments, c.order)) || (c.order in s.flights && flights == s.flights - {c.order})
    ensures Effect(s, WithPayments(s, P.RecordOutcome(s.payments, c, now), flights), c.order)
  {
    var v := ViewOf(s, c.order);
    OutcomeView(s, c, now, flights);
    OutcomeConsistent(c.order, v, c, NextEvent(s, Payments, P.OutcomeTopic(c), c.order, EmptyBody), Lookup(flights, c.order));
  }
}
