/** Hope is lost only by what goes wrong: each kind of move keeps the hopeless orders hopeless and the hopeful ones hopeful. */
module Hope {
  import opened Events
  import opened Stock
  import opened Outbox
  import opened System
  import opened Views
  import opened Invariant
  import opened Steps
  import opened Safety
  import opened Progress
  import opened Cluster
  import R = RestaurantService
  import P = PaymentService
  import O = OrderService

  // ---------- an order stays where it is unless something it waits for happens ----------

  /** When a handler runs has no bearing on what becomes of the event. */
  lemma NowIrrelevant(s: State, e: Envelope, now: int)
    ensures R.Handle(s.restaurant, e, now).outcome == Committed <==> R.Handle(s.restaurant, e, 0).outcome == Committed
    ensures O.Handle(s.orders, e, now).outcome == Committed <==> O.Handle(s.orders, e, 0).outcome == Committed
  {
  }

  /** The step is one the order waits for. */
  ghost predicate Answers(s: State, step: Step, o: OrderId)
    requires o in s.orders.orders
  {
    || (IsDelivery(step) && step.e.order == o && Commits(s, step.e))
    || (step.FinishRelease? && step.release.e.order == o && Commits(s, step.release.e))
    || (step.RecordOutcome? && step.order == o && OutcomeComing(ViewOf(s, o)))
  }

  /** What decides whether an order can move on is as it was. */
  predicate SameWait(v: View, v': View) {
    && v.order.Some? && v'.order.Some?
    && PhaseOf(v') == PhaseOf(v) && Awaited(v') == Awaited(v)
    && (OutcomeComing(v') ==> OutcomeComing(v))
  }

  lemma DeliveryIdle(s: State, step: Step)
    requires Enabled(s, step) && IsDelivery(step) && !Commits(s, step.e)
    ensures Apply(s, step) == s.(releasing := Apply(s, step).releasing)
  {
    match step
    case RestaurantHandles(e, now) => NowIrrelevant(s, e, now);
    case OrderHandles(e, now) => NowIrrelevant(s, e, now);
    case ReadReservation(_) =>
    case RecordIntent(_) =>
  }

  lemma LateView(o: OrderId, v: View, v': View)
    requires Consistent(o, v) && v.order.Some? && Waits(PhaseOf(v)) && v.flight.Some? && !OutcomeComing(v)
    requires v'.order == v.order && v'.orderRows == v.orderRows && v'.reservation == v.reservation && v'.flight.None?
    ensures SameWait(v, v')
  {
    assert PhaseOf(v) == Failed;
  }

  /** A late outcome of an order whose compensation is under way. */
  lemma LateOutcome(s: State, o: OrderId, now: int)
    requires Books(s) && Consistent(o, ViewOf(s, o)) && o in s.orders.orders && Waits(PhaseOf(ViewOf(s, o)))
    requires Enabled(s, RecordOutcome(o, now)) && !OutcomeComing(ViewOf(s, o))
    ensures SameWait(ViewOf(s, o), ViewOf(Apply(s, RecordOutcome(o, now)), o))
  {
    LateView(o, ViewOf(s, o), ViewOf(Apply(s, RecordOutcome(o, now)), o));
  }

  lemma FinishIdle(s: State, r: Release)
    requires Books(s) && AllConsistent(s) && ReleasesSound(s) && r in s.releasing && !Commits(s, r.e)
    ensures Apply(s, FinishRelease(r)) == s.(releasing := s.releasing - {r})
  {
    FinishAsHandle(s, r);
  }

  lemma SettleIdle(s: State, ch: P.Charge, now: int)
    requires Consistent(ch.order, ViewOf(s, ch.order)) && Enabled(s, Reconcile(ch, now))
    requires ch.order in s.orders.orders && Waits(PhaseOf(ViewOf(s, ch.order)))
    ensures Apply(s, Reconcile(ch, now)) == s.(stuck := s.stuck - {ch})
  {
    assert !P.Stuck(s.payments, ch.order);
  }

  lemma CreateIdle(s: State, o: OrderId, req: O.Request, now: int)
    requires o in s.orders.orders
    ensures Apply(s, CreateOrder(o, req, now)) == s
  {
  }

  /** Other than a late outcome, a step that does not answer the order leaves it alone. */
  lemma SubjectIdle(s: State, step: Step, o: OrderId)
    requires Books(s) && AllConsistent(s) && ReleasesSound(s) && Enabled(s, step) && !step.RecordOutcome?
    requires o in s.orders.orders && Waits(PhaseOf(ViewOf(s, o))) && !Answers(s, step, o)
    requires Subject(step) == Some(o)
    ensures var s' := Apply(s, step);
      s' == s.(stuck := s'.stuck, releasing := s'.releasing)
  {
    assert Consistent(o, ViewOf(s, o));
    match step
    case CreateOrder(_, req, now) => CreateIdle(s, o, req, now);
    case RestaurantHandles(_, _) => DeliveryIdle(s, step);
    case OrderHandles(_, _) => DeliveryIdle(s, step);
    case RecordIntent(_) => DeliveryIdle(s, step);
    case FinishRelease(r) => FinishIdle(s, r);
    case Reconcile(ch, now) => SettleIdle(s, ch, now);
  }

  lemma SubjectStays(s: State, step: Step, o: OrderId)
    requires Books(s) && AllConsistent(s) && ReleasesSound(s) && Enabled(s, step)
    requires o in s.orders.orders && Waits(PhaseOf(ViewOf(s, o))) && !Answers(s, step, o)
    requires Subject(step) == Some(o)
    ensures SameWait(ViewOf(s, o), ViewOf(Apply(s, step), o))
  {
    assert Consistent(o, ViewOf(s, o));
    if step.RecordOutcome? {
      LateOutcome(s, o, step.now);
    } else {
      SubjectIdle(s, step, o);
      ForgetViews(s, Apply(s, step));
    }
  }

  /** Steps about other orders leave the view alone, except that a handler in flight may die. */
  lemma BystanderView(s: State, step: Step, o: OrderId)
    requires SagaParts(s) && Enabled(s, step) && Grounded(s, step) && Subject(step) != Some(o)
    ensures SameOrGrounded(ViewOf(s, o), ViewOf(Apply(s, step), o))
  {
    ShapeOfStep(s, step);
  }

  lemma GroundedWait(v: View, v': View)
    requires v.order.Some? && SameOrGrounded(v, v')
    ensures SameWait(v, v')
  {
  }

  lemma OrderStays(seed: map<ItemId, int>, s: State, step: Step, o: OrderId)
    requires Inv(seed, s) && Enabled(s, step)
    requires o in s.orders.orders && Waits(PhaseOf(ViewOf(s, o))) && !Answers(s, step, o)
    ensures SameWait(ViewOf(s, o), ViewOf(Apply(s, step), o))
  {
    if Subject(step) == Some(o) {
      SubjectStays(s, step, o);
    } else {
      EnabledGrounded(s, step);
      BystanderView(s, step, o);
      GroundedWait(ViewOf(s, o), ViewOf(Apply(s, step), o));
    }
  }

  // ---------- no move brings a lost event back ----------

  /** The logs change only when a relay sends. */
  lemma LogStep(s: State, step: Step, topic: Topic)
    requires Enabled(s, step)
    ensures LogOf(Apply(s, step), topic) ==
            if step.Publish? && step.service == Producer(topic) && step.a.Send?
            then var ch := ChannelOf(s, step.service);
                 ch.log + [OutboxOf(s, step.service)[ch.holders[step.a.relay].row].env]
            else LogOf(s, topic)
  {
  }

  /** What a relay sends has a row that is pending and that nobody else has sent. */
  lemma SendsPending(s: State, service: Service, r: RelayId, e: Envelope)
    requires Booked(s, service) && Enabled(s, Publish(service, Send(r)))
    requires e == OutboxOf(s, service)[ChannelOf(s, service).holders[r].row].env
    ensures ToBeSent(s, e, false) && e.id.source == service
  {
  }

  lemma CopyBack(c: Brokers, m: Move, e: Envelope, anew: bool)
    requires RelayInv(c.s) && OffsetsSound(c) && CanMove(c, m) && (anew || Smooth(m))
    requires CopyAhead(After(c, m), if anew then After(c, m).committed else After(c, m).position, e)
    ensures Reaches(c, e, anew)
  {
    var c' := After(c, m);
    var lane := LaneOf(c, e);
    var i: nat :| Offset(if anew then c'.committed else c'.position, lane) <= i < |LogOf(c'.s, e.topic)| && LogOf(c'.s, e.topic)[i] == e;
    OffsetsMove(c, m, lane, anew);
    if i < |LogOf(c.s, e.topic)| {
      if StepOf(m).Some? {
        LogsGrow(c.s, StepOf(m).value, e.topic);
      }
      assert LogOf(c.s, e.topic)[i] == e;
    } else {
      var step := StepOf(m).value;
      LogStep(c.s, step, e.topic);
      assert Booked(c.s, step.service);
      SendsPending(c.s, step.service, step.a.relay, e);
    }
  }

  /** The offsets that count only move forward. */
  lemma OffsetsMove(c: Brokers, m: Move, lane: Lane, anew: bool)
    requires OffsetsSound(c) && CanMove(c, m) && (anew || Smooth(m))
    ensures var c' := After(c, m);
      Offset(if anew then c.committed else c.position, lane) <= Offset(if anew then c'.committed else c'.position, lane)
  {
    assert Offset(c.committed, lane) <= Offset(c.position, lane);
  }

  /** A relay that has sent a row keeps it until it is marked, if nothing fails. */
  lemma SentStays(s: State, step: Step, service: Service, i: nat)
    requires Enabled(s, step) && Ordinary(step) && SentPending(ChannelOf(s, service), i)
    requires i < |OutboxOf(Apply(s, step), service)| && !OutboxOf(Apply(s, step), service)[i].published
    ensures SentPending(ChannelOf(Apply(s, step), service), i)
  {
    var ch, ch' := ChannelOf(s, service), ChannelOf(Apply(s, step), service);
    var r :| r in ch.holders && ch.holders[r] == Hold(i, true);
    assert r in ch'.holders && ch'.holders[r] == Hold(i, true);
  }

  lemma RowsStep(s: State, step: Step, service: Service, i: nat)
    requires Enabled(s, step) && i < |OutboxOf(s, service)|
    ensures i < |OutboxOf(Apply(s, step), service)|
    ensures OutboxOf(Apply(s, step), service)[i].env == OutboxOf(s, service)[i].env
    ensures OutboxOf(s, service)[i].published ==> OutboxOf(Apply(s, step), service)[i].published
  {
  }

  lemma PendingBack(s: State, step: Step, e: Envelope, anew: bool)
    requires Enabled(s, step) && (anew || Ordinary(step)) && e.id.serial < |OutboxOf(s, e.id.source)|
    requires ToBeSent(Apply(s, step), e, anew)
    ensures ToBeSent(s, e, anew)
  {
    RowsStep(s, step, e.id.source, e.id.serial);
    if !anew && SentPending(ChannelOf(s, e.id.source), e.id.serial) {
      SentStays(s, step, e.id.source, e.id.serial);
    }
  }

  lemma InHandBack(c: Brokers, m: Move, e: Envelope, anew: bool)
    requires OffsetsSound(c) && CanMove(c, m) && InHand(After(c, m).s, e)
    ensures Reaches(c, e, anew)
  {
    if !InHand(c.s, e) {
      var r :| r in After(c, m).s.releasing && r.e == e;
      assert r !in c.s.releasing;
      assert Offset(c.committed, m.lane) <= Offset(c.position, m.lane) <= m.i && LogOf(c.s, e.topic)[m.i] == e;
    }
  }

  /** An event out of reach stays out of reach. */
  lemma ReachBack(c: Brokers, m: Move, e: Envelope, anew: bool)
    requires RelayInv(c.s) && OffsetsSound(c) && CanMove(c, m) && (anew || Smooth(m))
    requires e.id.serial < |OutboxOf(c.s, e.id.source)| && Reaches(After(c, m), e, anew)
    ensures Reaches(c, e, anew)
  {
    var c' := After(c, m);
    if CopyAhead(c', if anew then c'.committed else c'.position, e) {
      CopyBack(c, m, e, anew);
    } else if InHand(c'.s, e) {
      InHandBack(c, m, e, anew);
    } else if StepOf(m).Some? {
      PendingBack(c.s, StepOf(m).value, e, anew);
    }
  }

  // ---------- hopeless orders ----------

  /** What answers an order was within its reach. */
  lemma AnswerReached(seed: map<ItemId, int>, c: Brokers, m: Move, o: OrderId, anew: bool)
    requires BrokersInv(seed, c) && CanMove(c, m) && o in c.s.orders.orders
    requires StepOf(m).Some? && Answers(c.s, StepOf(m).value, o)
    ensures Waits(PhaseOf(ViewOf(c.s, o))) ==> Hopeful(c, o, anew)
  {
    var step := StepOf(m).value;
    assert Consistent(o, ViewOf(c.s, o));
    if IsDelivery(step) {
      EnabledGrounded(c.s, step);
      CommitsAwaited(c.s, step.e);
      assert Offset(c.committed, m.lane) <= Offset(c.position, m.lane) <= m.i && LogOf(c.s, step.e.topic)[m.i] == step.e;
      assert Reaches(c, step.e, anew);
    } else if step.FinishRelease? {
      FinishAsHandle(c.s, step.release);
      CommitsAwaited(c.s, step.release.e);
      assert InHand(c.s, step.release.e);
      assert Reaches(c, step.release.e, anew);
    }
  }

  /**
   An order without hope never moves on: not by anything that goes well, and, if it has no hope of being
   helped by failures either, not by anything at all.
   */
  lemma HopelessStays(seed: map<ItemId, int>, c: Brokers, m: Move, o: OrderId, anew: bool)
    requires BrokersInv(seed, c) && CanMove(c, m) && (anew || Smooth(m))
    requires o in c.s.orders.orders && !Hopeful(c, o, anew)
    ensures o in After(c, m).s.orders.orders && !Hopeful(After(c, m), o, anew)
  {
    var c' := After(c, m);
    assert Consistent(o, ViewOf(c.s, o));
    if StepOf(m).Some? {
      if Answers(c.s, StepOf(m).value, o) {
        AnswerReached(seed, c, m, o, anew);
      }
      OrderStays(seed, c.s, StepOf(m).value, o);
    }
    forall e | e in Awaited(ViewOf(c'.s, o)) ensures !Reaches(c', e, anew) {
      AwaitedRow(c.s, o, e);
      RowExists(c.s, e);
      assert !Reaches(c, e, anew);
      if Reaches(c', e, anew) {
        ReachBack(c, m, e, anew);
      }
    }
  }

  // ---------- hopeful orders ----------

  /** An event written by a step is still to be sent. */
  lemma WrittenToBeSent(s: State, step: Step, e: Envelope)
    requires Enabled(s, step) && !step.Publish?
    requires Booked(s, e.id.source) && Numbered(OutboxOf(Apply(s, step), e.id.source), e.id.source)
    requires e in About(OutboxOf(Apply(s, step), e.id.source), e.order) && e !in About(OutboxOf(s, e.id.source), e.order)
    ensures ToBeSent(Apply(s, step), e, false)
  {
    var service := e.id.source;
    AboutMembers(OutboxOf(s, service), service, e.order);
    AboutMembers(OutboxOf(Apply(s, step), service), service, e.order);
    StepWrites(s, step, service);
    assert e.id.serial == |OutboxOf(s, service)|;
  }

  /** Steps other than the relays' add at most one row to an outbox, and leave the relays alone. */
  lemma StepWrites(s: State, step: Step, service: Service)
    requires Enabled(s, step) && !step.Publish?
    ensures ChannelOf(Apply(s, step), service) == ChannelOf(s, service)
    ensures var rows, rows' := OutboxOf(s, service), OutboxOf(Apply(s, step), service);
      rows' == rows || (|rows'| == |rows| + 1 && rows' == rows + [rows'[|rows|]] && !rows'[|rows|].published)
  {
  }

  function RowsBy(v: View, service: Service): seq<Envelope> {
    match service
    case Orders => v.orderRows
    case Restaurant => v.restaurantRows
    case Payments => v.paymentRows
  }

  /** Which service writes the events a phase waits for. */
  function Writer(p: Phase): Service {
    if p in {Placed, Failed} then Orders else if p in {Rejected, Reserved} then Restaurant else Payments
  }

  /** An order that has come to wait for something waits for an event just written. */
  lemma NewlyAwaited(o: OrderId, v: View, v': View)
    requires Consistent(o, v) && Consistent(o, v') && Onward(o, v, v') && v.order.Some?
    requires PhaseOf(v') != PhaseOf(v) && Waits(PhaseOf(v'))
    ensures Awaited(v') != []
    ensures var service := Writer(PhaseOf(v'));
      Awaited(v')[0] in RowsBy(v', service) && Awaited(v')[0] !in RowsBy(v, service)
  {
    if PhaseOf(v') == Failed {
      assert v.orderRows == [v.orderRows[0]] && v'.orderRows[0] == v.orderRows[0];
    }
  }

  lemma WrittenInView(s: State, step: Step, service: Service, o: OrderId, e: Envelope)
    requires Enabled(s, step) && !step.Publish? && RelayInv(s) && Numbering(Apply(s, step))
    requires e in RowsBy(ViewOf(Apply(s, step), o), service) && e !in RowsBy(ViewOf(s, o), service)
    ensures ToBeSent(Apply(s, step), e, false)
  {
    OwnRow(Apply(s, step), service, o, e);
    assert Booked(s, service);
    WrittenToBeSent(s, step, e);
  }

  lemma WrittenHopeful(c: Brokers, m: Move, o: OrderId)
    requires CanMove(c, m) && StepOf(m).Some? && RelayInv(c.s) && Numbering(After(c, m).s)
    requires o in c.s.orders.orders && o in After(c, m).s.orders.orders
    requires var v, v' := ViewOf(c.s, o), ViewOf(After(c, m).s, o);
      && Consistent(o, v) && Consistent(o, v') && Onward(o, v, v')
      && PhaseOf(v') != PhaseOf(v) && Waits(PhaseOf(v'))
    ensures Hopeful(After(c, m), o, false)
  {
    var v, v' := ViewOf(c.s, o), ViewOf(After(c, m).s, o);
    NewlyAwaited(o, v, v');
    NotByRelay(c.s, StepOf(m).value, o);
    WrittenInView(c.s, StepOf(m).value, Writer(PhaseOf(v')), o, Awaited(v')[0]);
    HopeBy(After(c, m), o, Awaited(v')[0], false);
  }

  /** Moving on to another phase never ends in one without hope. */
  lemma MovedOnHopeful(seed: map<ItemId, int>, c: Brokers, m: Move, o: OrderId)
    requires BrokersInv(seed, c) && CanMove(c, m) && StepOf(m).Some? && o in c.s.orders.orders
    requires o in After(c, m).s.orders.orders && PhaseOf(ViewOf(After(c, m).s, o)) != PhaseOf(ViewOf(c.s, o))
    ensures Hopeful(After(c, m), o, false)
  {
    MoveKeeps(seed, c, m);
    StepKeeps(seed, c.s, StepOf(m).value);
    if Waits(PhaseOf(ViewOf(After(c, m).s, o))) {
      WrittenHopeful(c, m, o);
    }
  }

  lemma NotByRelay(s: State, step: Step, o: OrderId)
    requires Enabled(s, step) && ViewOf(Apply(s, step), o) != ViewOf(s, o)
    ensures !step.Publish?
  {
    if step.Publish? {
      PublishView(s, step.service, step.a);
    }
  }

  lemma AwaitedTopic(o: OrderId, v: View, e: Envelope)
    requires Consistent(o, v) && v.order.Some? && e in Awaited(v)
    ensures Producer(e.topic) == Writer(PhaseOf(v)) && e in RowsBy(v, Writer(PhaseOf(v)))
    ensures PhaseOf(v) == Failed ==> e.topic == StockRelease
  {
  }

  lemma RowStays(s: State, step: Step, service: Service, o: OrderId, e: Envelope)
    requires Enabled(s, step) && Numbered(OutboxOf(s, service), service) && Numbered(OutboxOf(Apply(s, step), service), service)
    requires e in About(OutboxOf(s, service), o)
    ensures e in About(OutboxOf(Apply(s, step), service), o)
  {
    AboutMembers(OutboxOf(s, service), service, o);
    AboutMembers(OutboxOf(Apply(s, step), service), service, o);
    RowsStep(s, step, service, e.id.serial);
  }

  lemma ViewRowStays(s: State, step: Step, service: Service, o: OrderId, e: Envelope)
    requires Enabled(s, step) && Numbering(s) && Numbering(Apply(s, step)) && e in RowsBy(ViewOf(s, o), service)
    ensures e in RowsBy(ViewOf(Apply(s, step), o), service)
  {
    RowStays(s, step, service, o, e);
  }

  lemma KeptWaiting(o: OrderId, v': View, e: Envelope)
    requires Consistent(o, v') && v'.order.Some? && Waits(PhaseOf(v'))
    requires e in RowsBy(v', Writer(PhaseOf(v'))) && (PhaseOf(v') == Failed ==> e.topic == StockRelease)
    ensures e in Awaited(v')
  {
    if PhaseOf(v') == Failed {
      assert v'.orderRows == [v'.orderRows[0], v'.orderRows[1]] && v'.orderRows[0].topic == OrderPlaced;
      assert v'.orderRows[1..] == [v'.orderRows[1]];
    }
  }

  /** Nothing written about an order is ever removed, so what it waits for it keeps waiting for. */
  lemma AwaitedStays(s: State, step: Step, o: OrderId, e: Envelope)
    requires Enabled(s, step) && Numbering(s) && Numbering(Apply(s, step))
    requires o in s.orders.orders && o in Apply(s, step).orders.orders
    requires Consistent(o, ViewOf(s, o)) && Consistent(o, ViewOf(Apply(s, step), o))
    requires PhaseOf(ViewOf(Apply(s, step), o)) == PhaseOf(ViewOf(s, o)) && e in Awaited(ViewOf(s, o))
    ensures e in Awaited(ViewOf(Apply(s, step), o))
  {
    AwaitedSome(o, ViewOf(s, o));
    AwaitedTopic(o, ViewOf(s, o), e);
    ViewRowStays(s, step, Writer(PhaseOf(ViewOf(s, o))), o, e);
    KeptWaiting(o, ViewOf(Apply(s, step), o), e);
  }

  /** The event is handed to its handler by this move. */
  predicate HandsOver(m: Move, e: Envelope) {
    match m
    case Attempt(_, _, step) => IsDelivery(step) && !step.ReadReservation? && step.e == e
    case Act(step) => step.FinishRelease? && step.release.e == e
    case _ => false
  }

  /** A copy that is ahead stays ahead until it is attempted. */
  lemma CopyForward(c: Brokers, m: Move, e: Envelope)
    requires OffsetsSound(c) && CanMove(c, m) && Fine(m) && CopyAhead(c, c.position, e) && !HandsOver(m, e)
    ensures Reaches(After(c, m), e, false)
  {
    var c' := After(c, m);
    var lane := LaneOf(c, e);
    var i: nat :| Offset(c.position, lane) <= i < |LogOf(c.s, e.topic)| && LogOf(c.s, e.topic)[i] == e;
    if StepOf(m).Some? {
      LogsGrow(c.s, StepOf(m).value, e.topic);
    }
    assert LogOf(c'.s, e.topic)[i] == e;
    if m.Attempt? && m.lane == lane && m.i == i {
      assert Release(e, R.ReservationOf(c.s.restaurant, e.order)) in c'.s.releasing;
    } else {
      assert Offset(c'.position, lane) <= i;
    }
  }

  /** A row that is to be sent is sent, or stays to be sent. */
  lemma ToBeSentForward(c: Brokers, m: Move, e: Envelope)
    requires RelayInv(c.s) && OffsetsSound(c) && CanMove(c, m) && Fine(m) && ToBeSent(c.s, e, false)
    requires OutboxOf(c.s, e.id.source)[e.id.serial].env == e && Producer(e.topic) == e.id.source
    ensures Reaches(After(c, m), e, false)
  {
    var c' := After(c, m);
    if StepOf(m).Some? {
      var step := StepOf(m).value;
      var i := e.id.serial;
      RowsStep(c.s, step, e.id.source, i);
      if step.Publish? && step.service == e.id.source && ChannelRow(c.s, step) == i {
        assert Booked(c.s, step.service);
        if step.a.Send? {
          LogStep(c.s, step, e.topic);
          var k := |LogOf(c.s, e.topic)|;
          assert Offset(c.position, LaneOf(c, e)) <= k;
          assert LogOf(c'.s, e.topic)[k] == e;
        } else {
          LockOnly(c.s, step, i);
        }
      } else {
        ElsewhereOnly(c.s, step, e.id.source, i);
      }
    }
  }

  /** The row a relay action is about. */
  ghost function ChannelRow(s: State, step: Step): nat
    requires Enabled(s, step) && step.Publish?
  {
    if step.a.Lock? then step.a.row else ChannelOf(s, step.service).holders[step.a.relay].row
  }

  lemma LockOnly(s: State, step: Step, i: nat)
    requires Enabled(s, step) && step.Publish? && Ordinary(step) && !step.a.Send? && ChannelRow(s, step) == i
    requires Booked(s, step.service) && i < |OutboxOf(s, step.service)|
    requires !OutboxOf(s, step.service)[i].published && !SentPending(ChannelOf(s, step.service), i)
    ensures !OutboxOf(Apply(s, step), step.service)[i].published && !SentPending(ChannelOf(Apply(s, step), step.service), i)
  {
  }

  lemma RelayElsewhere(rows: seq<Row>, ch: Channel, a: Action, i: nat)
    requires CanAct(rows, ch, a) && i < |rows| && !rows[i].published && !SentPending(ch, i)
    requires i != if a.Lock? then a.row else ch.holders[a.relay].row
    ensures i < |ActRows(rows, ch, a)| && !ActRows(rows, ch, a)[i].published && !SentPending(ActChannel(rows, ch, a), i)
  {
  }

  lemma ElsewhereOnly(s: State, step: Step, service: Service, i: nat)
    requires Enabled(s, step) && i < |OutboxOf(s, service)|
    requires step.Publish? && step.service == service ==> ChannelRow(s, step) != i
    requires !OutboxOf(s, service)[i].published && !SentPending(ChannelOf(s, service), i)
    ensures i < |OutboxOf(Apply(s, step), service)|
    ensures !OutboxOf(Apply(s, step), service)[i].published && !SentPending(ChannelOf(Apply(s, step), service), i)
  {
    if !step.Publish? {
      StepWrites(s, step, service);
    } else if step.service == service {
      RelayElsewhere(OutboxOf(s, service), ChannelOf(s, service), step.a, i);
    }
  }

  lemma InHandForward(c: Brokers, m: Move, e: Envelope)
    requires CanMove(c, m) && Fine(m) && InHand(c.s, e) && !HandsOver(m, e)
    ensures InHand(After(c, m).s, e)
  {
    var r :| r in c.s.releasing && r.e == e;
    assert r in After(c, m).s.releasing;
  }

  lemma ReachForward(c: Brokers, m: Move, e: Envelope)
    requires RelayInv(c.s) && OffsetsSound(c) && CanMove(c, m) && Fine(m) && Reaches(c, e, false) && !HandsOver(m, e)
    requires RowOf(c.s, e) && Numbering(c.s) && Producer(e.topic) == e.id.source
    ensures Reaches(After(c, m), e, false)
  {
    if CopyAhead(c, c.position, e) {
      CopyForward(c, m, e);
    } else if ToBeSent(c.s, e, false) {
      AboutMembers(OutboxOf(c.s, e.id.source), e.id.source, e.order);
      ToBeSentForward(c, m, e);
    } else {
      InHandForward(c, m, e);
    }
  }

  lemma AwaitedProducer(s: State, o: OrderId, e: Envelope)
    requires Books(s) && Consistent(o, ViewOf(s, o)) && o in s.orders.orders && e in Awaited(ViewOf(s, o))
    ensures Producer(e.topic) == e.id.source
  {
    AwaitedTopic(o, ViewOf(s, o), e);
    OwnRow(s, Writer(PhaseOf(ViewOf(s, o))), o, e);
  }

  /** A handler that has committed will not do so again. */
  lemma DeliveredOnce(s: State, step: Step)
    requires Enabled(s, step) && IsDelivery(step) && !step.ReadReservation? && Commits(s, step.e)
    ensures !Commits(Apply(s, step), step.e)
  {
    match step
    case RestaurantHandles(e, now) => NowIrrelevant(s, e, now);
    case OrderHandles(e, now) => NowIrrelevant(s, e, now);
    case RecordIntent(_) =>
  }

  lemma ReleasedOnce(s: State, r: Release)
    requires Books(s) && AllConsistent(s) && ReleasesSound(s) && r in s.releasing && Commits(s, r.e)
    ensures !Commits(Apply(s, FinishRelease(r)), r.e)
  {
    FinishAsHandle(s, r);
  }

  lemma HandedOverOnce(seed: map<ItemId, int>, c: Brokers, m: Move, e: Envelope)
    requires BrokersInv(seed, c) && CanMove(c, m) && HandsOver(m, e) && Commits(c.s, e)
    ensures !Commits(After(c, m).s, e)
  {
    if m.Attempt? {
      DeliveredOnce(c.s, m.step);
    } else {
      ReleasedOnce(c.s, m.step.release);
    }
  }

  lemma FlightStays(s: State, step: Step, o: OrderId)
    requires Enabled(s, step) && Ordinary(step) && o in s.flights && !(step.RecordOutcome? && step.order == o)
    ensures o in Apply(s, step).flights
  {
  }

  /** The event a payment handler is about to write. */
  function ComingEvent(s: State, o: OrderId): Envelope
    requires o in s.flights
  {
    NextEvent(s, Payments, P.OutcomeTopic(s.flights[o]), o, EmptyBody)
  }

  lemma OutcomeRow(s: State, step: Step, o: OrderId)
    requires Consistent(o, ViewOf(s, o)) && Enabled(s, step) && step.RecordOutcome? && step.order == o
    ensures ComingEvent(s, o) in ViewOf(Apply(s, step), o).paymentRows
  {
    var topic := P.OutcomeTopic(s.flights[o]);
    assert s.flights[o].order == o;
    EmitFacts(s.payments.outbox, Payments, topic, o, EmptyBody, step.now);
    assert Apply(s, step).payments.outbox == Emit(s.payments.outbox, Payments, topic, o, EmptyBody, step.now);
    assert About(Apply(s, step).payments.outbox, o) == About(s.payments.outbox, o) + [ComingEvent(s, o)];
  }

  lemma OutcomePending(s: State, step: Step, o: OrderId)
    requires Booked(s, Payments) && Enabled(s, step) && step.RecordOutcome? && step.order == o
    ensures ToBeSent(Apply(s, step), ComingEvent(s, o), false)
  {
  }

  lemma HopeByOutcome(c: Brokers, o: OrderId, e: Envelope)
    requires o in c.s.orders.orders && PhaseOf(ViewOf(c.s, o)) in {Charged, Declined}
    requires e in ViewOf(c.s, o).paymentRows && ToBeSent(c.s, e, false)
    ensures Hopeful(c, o, false)
  {
    HopeBy(c, o, e, false);
  }

  lemma HopeBy(c: Brokers, o: OrderId, e: Envelope, anew: bool)
    requires o in c.s.orders.orders && e in Awaited(ViewOf(c.s, o)) && Reaches(c, e, anew)
    ensures Hopeful(c, o, anew)
  {
  }

  lemma ComingStays(s: State, step: Step, o: OrderId)
    requires Enabled(s, step) && Ordinary(step) && o in s.orders.orders && OutcomeComing(ViewOf(s, o))
    requires !(step.RecordOutcome? && step.order == o)
    requires o in Apply(s, step).orders.orders && PhaseOf(ViewOf(Apply(s, step), o)) == PhaseOf(ViewOf(s, o))
    ensures OutcomeComing(ViewOf(Apply(s, step), o))
  {
    FlightStays(s, step, o);
  }

  lemma ComingHopeful(c: Brokers, o: OrderId)
    requires o in c.s.orders.orders && OutcomeComing(ViewOf(c.s, o))
    ensures Hopeful(c, o, false)
  {
  }

  /** An outcome that was coming is still coming, or has been written. */
  lemma OutcomeForward(s: State, step: Step, c': Brokers, o: OrderId)
    requires Booked(s, Payments) && Consistent(o, ViewOf(s, o)) && o in s.orders.orders && OutcomeComing(ViewOf(s, o))
    requires Enabled(s, step) && Ordinary(step) && c'.s == Apply(s, step)
    requires o in c'.s.orders.orders && PhaseOf(ViewOf(c'.s, o)) == PhaseOf(ViewOf(s, o))
    ensures Hopeful(c', o, false)
  {
    if step.RecordOutcome? && step.order == o {
      OutcomeRow(s, step, o);
      OutcomePending(s, step, o);
      HopeByOutcome(c', o, ComingEvent(s, o));
    } else {
      ComingStays(s, step, o);
      ComingHopeful(c', o);
    }
  }

  /** Once handed over, an event is waited for no longer. */
  lemma NoLongerAwaited(seed: map<ItemId, int>, c: Brokers, m: Move, o: OrderId, e: Envelope)
    requires BrokersInv(seed, c) && WellStocked(seed) && NonNegativeOrders(c.s)
    requires CanMove(c, m) && Smooth(m) && o in c.s.orders.orders && e in Awaited(ViewOf(c.s, o)) && HandsOver(m, e)
    requires o in After(c, m).s.orders.orders
    ensures e !in Awaited(ViewOf(After(c, m).s, o))
  {
    var c' := After(c, m);
    assert Consistent(o, ViewOf(c.s, o));
    AwaitedCommits(seed, c.s, o, e);
    HandedOverOnce(seed, c, m, e);
    MoveKeeps(seed, c, m);
    ItemsStay(seed, c.s, StepOf(m).value);
    if e in Awaited(ViewOf(c'.s, o)) {
      assert Consistent(o, ViewOf(c'.s, o));
      AwaitedCommits(seed, c'.s, o, e);
    }
  }

  lemma StillAwaited(seed: map<ItemId, int>, c: Brokers, m: Move, o: OrderId, e: Envelope)
    requires BrokersInv(seed, c) && CanMove(c, m) && StepOf(m).Some? && o in c.s.orders.orders
    requires e in Awaited(ViewOf(c.s, o))
    requires o in After(c, m).s.orders.orders && PhaseOf(ViewOf(After(c, m).s, o)) == PhaseOf(ViewOf(c.s, o))
    ensures e in Awaited(ViewOf(After(c, m).s, o))
  {
    MoveKeeps(seed, c, m);
    assert Consistent(o, ViewOf(c.s, o)) && Consistent(o, ViewOf(After(c, m).s, o));
    AwaitedStays(c.s, StepOf(m).value, o, e);
  }

  lemma ReachedForward(seed: map<ItemId, int>, c: Brokers, m: Move, o: OrderId, e: Envelope)
    requires BrokersInv(seed, c) && WellStocked(seed) && NonNegativeOrders(c.s)
    requires CanMove(c, m) && Smooth(m) && StepOf(m).Some? && o in c.s.orders.orders
    requires e in Awaited(ViewOf(c.s, o)) && Reaches(c, e, false)
    requires o in After(c, m).s.orders.orders && PhaseOf(ViewOf(After(c, m).s, o)) == PhaseOf(ViewOf(c.s, o))
    ensures Hopeful(After(c, m), o, false)
  {
    StillAwaited(seed, c, m, o, e);
    if HandsOver(m, e) {
      NoLongerAwaited(seed, c, m, o, e);
    } else {
      assert Consistent(o, ViewOf(c.s, o));
      AwaitedRow(c.s, o, e);
      AwaitedProducer(c.s, o, e);
      ReachForward(c, m, e);
      HopeBy(After(c, m), o, e, false);
    }
  }

  /** As long as nothing goes wrong, an order that has hope keeps it. */
  lemma HopefulStays(seed: map<ItemId, int>, c: Brokers, m: Move, o: OrderId)
    requires BrokersInv(seed, c) && WellStocked(seed) && NonNegativeOrders(c.s)
    requires CanMove(c, m) && Smooth(m) && o in c.s.orders.orders && Hopeful(c, o, false)
    ensures o in After(c, m).s.orders.orders && Hopeful(After(c, m), o, false)
  {
    var c' := After(c, m);
    if StepOf(m).None? {
      SameHope(c, c', o);
    } else {
      StepKeeps(seed, c.s, StepOf(m).value);
      var v, v' := ViewOf(c.s, o), ViewOf(c'.s, o);
      assert Onward(o, v, v');
      if PhaseOf(v') != PhaseOf(v) {
        MovedOnHopeful(seed, c, m, o);
      } else if Waits(PhaseOf(v)) {
        if OutcomeComing(v) {
          assert Consistent(o, v) && Booked(c.s, Payments);
          OutcomeForward(c.s, StepOf(m).value, c', o);
        } else {
          var e :| e in Awaited(v) && Reaches(c, e, false);
          ReachedForward(seed, c, m, o, e);
        }
      }
    }
  }

  /** Committed offsets have no bearing on what the running consumers will reach. */
  lemma SameHope(c: Brokers, c': Brokers, o: OrderId)
    requires c' == c.(committed := c'.committed)
    ensures Hopeful(c', o, false) <==> Hopeful(c, o, false)
  {
    forall e ensures Reaches(c', e, false) <==> Reaches(c, e, false) {
      assert CopyAhead(c', c'.position, e) <==> CopyAhead(c, c.position, e);
    }
  }
}
