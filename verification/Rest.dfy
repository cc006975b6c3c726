/**
 At rest: nothing is left to publish, to reconcile or to handle. Then every order is settled, and the
 stock is what the confirmed orders leave.
 */
module Rest {
  import opened Events
  import opened Gateway
  import opened Stock
  import opened System
  import opened Views
  import opened Invariant
  import opened Steps
  import opened Safety
  import opened Progress
  import R = RestaurantService
  import P = PaymentService
  import O = OrderService

  /** No effect is left to happen. */
  ghost predicate NothingLeft(s: State) {
    && PendingRows(s) == 0
    && (forall o :: !P.Stuck(s.payments, o))
    && forall e :: Sent(s, e) ==> !Commits(s, e)
  }

  /** Nothing is left to do exactly when every order has reached a final state and every event is published. */
  lemma RestIsDone(seed: map<ItemId, int>, s: State)
    requires Inv(seed, s) && WellStocked(seed) && NonNegativeOrders(s)
    ensures NothingLeft(s) <==> Done(s)
  {
    if Done(s) {
      forall o ensures !P.Stuck(s.payments, o) {
        assert Consistent(o, ViewOf(s, o));
      }
      forall e | Sent(s, e) ensures !Commits(s, e) {
        SentIsRow(s, e);
        assert Consistent(e.order, ViewOf(s, e.order));
        if Commits(s, e) {
          CommitsAwaited(s, e);
          AwaitedSome(e.order, ViewOf(s, e.order));
          assert false;
        }
      }
    }
    if NothingLeft(s) {
      forall o | o in s.orders.orders ensures Settled(PhaseOf(ViewOf(s, o))) {
        LeftToDo(seed, s, o);
      }
    }
  }

  lemma LeftToDo(seed: map<ItemId, int>, s: State, o: OrderId)
    requires Inv(seed, s) && WellStocked(seed) && NonNegativeOrders(s) && NothingLeft(s)
    requires o in s.orders.orders
    ensures Settled(PhaseOf(ViewOf(s, o)))
  {
    var v := ViewOf(s, o);
    assert Consistent(o, v);
    assert !P.Stuck(s.payments, o);
    AwaitedSome(o, v);
    if Waits(PhaseOf(v)) {
      var e := Awaited(v)[0];
      AwaitedCommits(seed, s, o, e);
      assert Booked(s, e.id.source);
      PublishedSent(s, e.id.source, e);
      assert false;
    }
  }

  /** An order at rest holds its items exactly when it is confirmed. */
  lemma RestView(o: OrderId, v: View)
    requires Consistent(o, v) && (v.order.Some? ==> Settled(PhaseOf(v)))
    ensures v.order.Some? ==> v.order.value.status != O.Pending
    ensures v.reservation == if v.order.Some? && v.order.value.status == O.Confirmed then Some(v.order.value.items) else None
  {
  }

  /** At rest every order is final, failed orders hold nothing, and the stock lacks exactly what was confirmed. */
  lemma SettledStock(seed: map<ItemId, int>, steps: seq<Step>)
    requires WellStocked(seed) && Valid(Init(seed), steps)
    requires NonNegativeOrders(Run(Init(seed), steps)) && NothingLeft(Run(Init(seed), steps))
    ensures var s := Run(Init(seed), steps);
      && (forall o :: o in s.orders.orders ==> s.orders.orders[o].status != O.Pending)
      && s.restaurant.reservations == ConfirmedItems(s)
      && (forall id :: id in seed ==>
            id in s.restaurant.stock && s.restaurant.stock[id] == seed[id] - Held(ConfirmedItems(s), id))
  {
    var s := Run(Init(seed), steps);
    Reachable(seed, steps);
    RestIsDone(seed, s);
    RestHolds(s);
  }

  lemma RestHolds(s: State)
    requires AllConsistent(s) && Done(s)
    ensures forall o :: o in s.orders.orders ==> s.orders.orders[o].status != O.Pending
    ensures s.restaurant.reservations == ConfirmedItems(s)
  {
    forall o ensures o in s.orders.orders ==> s.orders.orders[o].status != O.Pending
      ensures Lookup(s.restaurant.reservations, o) == Lookup(ConfirmedItems(s), o)
    {
      assert Consistent(o, ViewOf(s, o));
      RestHoldsFor(s, o);
    }
    SameRows(s.restaurant.reservations, ConfirmedItems(s));
  }

  lemma RestHoldsFor(s: State, o: OrderId)
    requires Consistent(o, ViewOf(s, o)) && (o in s.orders.orders ==> Settled(PhaseOf(ViewOf(s, o))))
    ensures o in s.orders.orders ==> s.orders.orders[o].status != O.Pending
    ensures Lookup(s.restaurant.reservations, o) == Lookup(ConfirmedItems(s), o)
  {
    RestView(o, ViewOf(s, o));
  }

  lemma SameRows<V>(m: map<OrderId, V>, m': map<OrderId, V>)
    requires forall o :: Lookup(m, o) == Lookup(m', o)
    ensures m == m'
  {
    forall o ensures o in m <==> o in m'
      ensures o in m ==> m[o] == m'[o]
    {
      assert Lookup(m, o) == Lookup(m', o);
    }
  }

  // ---------- rest lasts ----------

  ghost predicate AllSettled(s: State) {
    forall o :: o in s.orders.orders ==> Settled(PhaseOf(ViewOf(s, o)))
  }

  lemma SettledSame(o: OrderId, v: View, v': View)
    requires Consistent(o, v) && Consistent(o, v') && Onward(o, v, v')
    requires if v.order.Some? then Settled(PhaseOf(v)) else v'.order.None?
    ensures v'.order == v.order && v'.reservation == v.reservation
    ensures v.order.Some? ==> PhaseOf(v') == PhaseOf(v)
  {
  }

  lemma SettledStep(seed: map<ItemId, int>, s: State, step: Step, o: OrderId)
    requires Inv(seed, s) && Enabled(s, step) && AllSettled(s) && !step.CreateOrder?
    ensures Lookup(Apply(s, step).orders.orders, o) == Lookup(s.orders.orders, o)
    ensures Lookup(Apply(s, step).restaurant.reservations, o) == Lookup(s.restaurant.reservations, o)
    ensures o in s.orders.orders ==> PhaseOf(ViewOf(Apply(s, step), o)) == PhaseOf(ViewOf(s, o))
  {
    StepKeeps(seed, s, step);
    OrdersFixed(s, step);
    SettledSame(o, ViewOf(s, o), ViewOf(Apply(s, step), o));
  }

  lemma SettledStockStep(s: State, step: Step)
    requires SagaParts(s) && Enabled(s, step) && Grounded(s, step)
    requires forall o :: o in s.orders.orders && o in Apply(s, step).orders.orders ==>
                           PhaseOf(ViewOf(Apply(s, step), o)) == PhaseOf(ViewOf(s, o))
    ensures Apply(s, step).restaurant.stock == s.restaurant.stock
  {
    ShapeOfStep(s, step);
  }

  /** Once every order is settled, nothing but a new order ever changes an order, a reservation or the stock. */
  lemma {:induction false} RestLasts(seed: map<ItemId, int>, s: State, steps: seq<Step>)
    requires Inv(seed, s) && AllSettled(s) && Valid(s, steps)
    requires forall k :: 0 <= k < |steps| ==> !steps[k].CreateOrder?
    ensures var s' := Run(s, steps);
      && AllSettled(s')
      && s'.orders.orders == s.orders.orders
      && s'.restaurant.reservations == s.restaurant.reservations
      && s'.restaurant.stock == s.restaurant.stock
    decreases |steps|
  {
    if steps != [] {
      RestStep(seed, s, steps[0]);
      RestLasts(seed, Apply(s, steps[0]), steps[1..]);
    }
  }

  lemma RestStep(seed: map<ItemId, int>, s: State, step: Step)
    requires Inv(seed, s) && AllSettled(s) && Enabled(s, step) && !step.CreateOrder?
    ensures var s' := Apply(s, step);
      && Inv(seed, s') && AllSettled(s')
      && s'.orders.orders == s.orders.orders
      && s'.restaurant.reservations == s.restaurant.reservations
      && s'.restaurant.stock == s.restaurant.stock
  {
    var s' := Apply(s, step);
    StepKeeps(seed, s, step);
    EnabledGrounded(s, step);
    OrdersFixed(s, step);
    forall o
      ensures Lookup(s'.orders.orders, o) == Lookup(s.orders.orders, o)
      ensures Lookup(s'.restaurant.reservations, o) == Lookup(s.restaurant.reservations, o)
      ensures o in s.orders.orders ==> PhaseOf(ViewOf(s', o)) == PhaseOf(ViewOf(s, o))
    {
      SettledStep(seed, s, step, o);
    }
    SameRows(s'.orders.orders, s.orders.orders);
    SameRows(s'.restaurant.reservations, s.restaurant.reservations);
    SettledStockStep(s, step);
  }

  // ---------- what decides an order ----------

  lemma FinalView(o: OrderId, v: View)
    requires Consistent(o, v) && v.order.Some? && Settled(PhaseOf(v))
    ensures |v.restaurantRows| == 1 && v.restaurantRows[0].topic in {StockReserved, StockRejected}
    ensures var ord := v.order.value;
      && (ord.status == O.Confirmed <==> v.restaurantRows[0].topic == StockReserved && Pays(o, ord))
      && (ord.status == O.PaymentFailure <==> v.restaurantRows[0].topic == StockReserved && !Pays(o, ord))
      && (ord.status == O.StockUnavailable <==> v.restaurantRows[0].topic == StockRejected)
  {
  }

  /** The final status of an order is determined by the restaurant's verdict and the gateway's answer to its directive. */
  lemma FinalStatus(seed: map<ItemId, int>, steps: seq<Step>, o: OrderId)
    requires WellStocked(seed) && Valid(Init(seed), steps)
    requires o in Run(Init(seed), steps).orders.orders && Settled(PhaseOf(ViewOf(Run(Init(seed), steps), o)))
    ensures var s := Run(Init(seed), steps);
      var ord := s.orders.orders[o];
      var reserved := Count(s.restaurant.outbox, o, StockReserved) == 1;
      && Count(s.restaurant.outbox, o, StockReserved) + Count(s.restaurant.outbox, o, StockRejected) == 1
      && (ord.status == O.Confirmed <==> reserved && ProcessPayment(0, ord.simulate))
      && (ord.status == O.PaymentFailure <==> reserved && !ProcessPayment(0, ord.simulate))
      && (ord.status == O.StockUnavailable <==> !reserved)
  {
    var s := Run(Init(seed), steps);
    ConsistentAt(seed, steps, o);
    FinalView(o, ViewOf(s, o));
    CountOne(ViewOf(s, o).restaurantRows, StockReserved);
    CountOne(ViewOf(s, o).restaurantRows, StockRejected);
    OutcomeCarried(s.orders.orders[o].amount, 0, s.orders.orders[o].simulate);
  }
}
