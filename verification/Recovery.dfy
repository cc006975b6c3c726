/**
 What mishaps can and cannot undo: an order is lost for good exactly when the event it waits for has been
 published, and every copy of it lies below its consumer's committed offset.
 */
module Recovery {
  import opened Events
  import opened Stock
  import opened Outbox
  import opened System
  import opened Views
  import opened Invariant
  import opened Steps
  import opened Safety
  import opened Progress
  import opened Cluster
  import opened Hope
  import opened Settling
  import O = OrderService

  // ---------- nothing goes wrong, nothing is lost ----------

  lemma CreateKeepsHope(seed: map<ItemId, int>, c: Brokers, m: Move, o: OrderId)
    requires BrokersInv(seed, c) && CanMove(c, m) && m.Act? && m.step.CreateOrder?
    requires o in c.s.orders.orders && Hopeful(c, o, false)
    ensures o in After(c, m).s.orders.orders && Hopeful(After(c, m), o, false)
  {
    var v, v' := ViewOf(c.s, o), ViewOf(After(c, m).s, o);
    if Waits(PhaseOf(v)) {
      OrderStays(seed, c.s, m.step, o);
      if !OutcomeComing(v) {
        var e :| e in Awaited(v) && Reaches(c, e, false);
        assert Consistent(o, v);
        AwaitedRow(c.s, o, e);
        AwaitedProducer(c.s, o, e);
        ReachForward(c, m, e);
        HopeBy(After(c, m), o, e, false);
      }
    } else {
      SettledStays(c.s, m.step, o);
    }
  }

  lemma SettledStays(s: State, step: Step, o: OrderId)
    requires Enabled(s, step) && step.CreateOrder? && o in s.orders.orders
    ensures o in Apply(s, step).orders.orders && PhaseOf(ViewOf(Apply(s, step), o)) == PhaseOf(ViewOf(s, o))
  {
  }

  /** A new order waits for its first event to be sent. */
  lemma CreatedHopeful(seed: map<ItemId, int>, c: Brokers, m: Move, o: OrderId)
    requires BrokersInv(seed, c) && CanMove(c, m) && m.Act? && m.step.CreateOrder?
    requires o !in c.s.orders.orders && o in After(c, m).s.orders.orders
    ensures Hopeful(After(c, m), o, false)
  {
    var c' := After(c, m);
    MoveKeeps(seed, c, m);
    assert Consistent(o, ViewOf(c.s, o)) && Consistent(o, ViewOf(c'.s, o));
    StepKeeps(seed, c.s, m.step);
    assert Onward(o, ViewOf(c.s, o), ViewOf(c'.s, o));
    var e := ViewOf(c'.s, o).orderRows[0];
    WrittenInView(c.s, m.step, Orders, o, e);
    HopeBy(c', o, e, false);
  }

  lemma FineKeepsHope(seed: map<ItemId, int>, c: Brokers, m: Move)
    requires Fit(seed, c) && CanMove(c, m) && Fine(m) && AllHopeful(c, false)
    ensures AllHopeful(After(c, m), false)
  {
    if Smooth(m) {
      SmoothKeepsHope(seed, c, m);
    } else {
      forall o | o in After(c, m).s.orders.orders ensures Hopeful(After(c, m), o, false) {
        if o in c.s.orders.orders {
          assert Hopeful(c, o, false);
          CreateKeepsHope(seed, c, m, o);
        } else {
          CreatedHopeful(seed, c, m, o);
        }
      }
    }
  }

  predicate AllFine(moves: seq<Move>) {
    forall k :: 0 <= k < |moves| ==> Fine(moves[k])
  }

  lemma MoveKeepsItems(seed: map<ItemId, int>, c: Brokers, m: Move)
    requires BrokersInv(seed, c) && CanMove(c, m) && NonNegativeOrders(After(c, m).s)
    ensures NonNegativeOrders(c.s)
  {
    var s' := After(c, m).s;
    if StepOf(m).Some? {
      StepKeeps(seed, c.s, StepOf(m).value);
      forall o | o in c.s.orders.orders ensures NonNegative(c.s.orders.orders[o].items) {
        assert Onward(o, ViewOf(c.s, o), ViewOf(s', o));
      }
    }
  }

  /** Without mishaps no order ever loses hope, however many customers order. */
  lemma {:induction false} FineRun(seed: map<ItemId, int>, c: Brokers, moves: seq<Move>)
    requires BrokersInv(seed, c) && WellStocked(seed) && AllHopeful(c, false)
    requires ValidMoves(c, moves) && AllFine(moves) && NonNegativeOrders(AfterAll(c, moves).s)
    ensures NonNegativeOrders(c.s)
    ensures Fit(seed, AfterAll(c, moves)) && AllHopeful(AfterAll(c, moves), false)
    decreases |moves|
  {
    if moves != [] {
      var c' := After(c, moves[0]);
      MoveKeeps(seed, c, moves[0]);
      ItemsBefore(seed, c', moves[1..]);
      MoveKeepsItems(seed, c, moves[0]);
      FineKeepsHope(seed, c, moves[0]);
      FineRun(seed, c', moves[1..]);
    }
  }

  lemma {:induction false} ItemsBefore(seed: map<ItemId, int>, c: Brokers, moves: seq<Move>)
    requires BrokersInv(seed, c) && ValidMoves(c, moves) && NonNegativeOrders(AfterAll(c, moves).s)
    ensures NonNegativeOrders(c.s)
    decreases |moves|
  {
    if moves != [] {
      MoveKeeps(seed, c, moves[0]);
      ItemsBefore(seed, After(c, moves[0]), moves[1..]);
      MoveKeepsItems(seed, c, moves[0]);
    }
  }

  lemma StartSound(seed: map<ItemId, int>, number: OrderId -> nat)
    requires WellStocked(seed)
    ensures BrokersInv(seed, Start(seed, number)) && AllHopeful(Start(seed, number), false)
  {
    InitInv(seed);
  }

  /**
   From the seeded state: after any run without mishaps, however many customers have ordered, and any
   longer one without new orders, every order is settled once nothing more can happen; and that state is
   reached in a bounded number of moves, whatever has been done so far.
   */
  lemma NoMishapSettles(seed: map<ItemId, int>, number: OrderId -> nat, moves: seq<Move>, more: seq<Move>) returns (rest: seq<Move>)
    requires WellStocked(seed) && ValidMoves(Start(seed, number), moves) && AllFine(moves)
    requires NonNegativeOrders(AfterAll(Start(seed, number), moves).s)
    requires ValidMoves(AfterAll(Start(seed, number), moves), more) && AllSmooth(more)
    ensures var c := AfterAll(Start(seed, number), moves);
      && (Quiescent(AfterAll(c, more)) ==> Done(AfterAll(c, more).s))
      && AllSmooth(rest) && RestsAfter(AfterAll(c, more), rest)
      && Happenings(c, more) + |rest| <= Far(c)
  {
    StartSound(seed, number);
    FineRun(seed, Start(seed, number), moves);
    rest := EveryRunSettles(seed, AfterAll(Start(seed, number), moves), more);
  }

  // ---------- what failures can bring back ----------

  /** Going back to the committed offsets, or a relay giving up a row, takes no hope away that failures leave. */
  lemma RestartKeepsHope(c: Brokers, group: Service, o: OrderId)
    requires o in c.s.orders.orders && Hopeful(c, o, true)
    ensures Hopeful(After(c, Restart(group)), o, true)
  {
    var c' := After(c, Restart(group));
    forall e ensures Reaches(c', e, true) <==> Reaches(c, e, true) {
      assert CopyAhead(c', c'.committed, e) <==> CopyAhead(c, c.committed, e);
    }
  }

  lemma FailReach(c: Brokers, service: Service, r: RelayId, e: Envelope)
    requires Enabled(c.s, Publish(service, Fail(r))) && Reaches(c, e, true)
    ensures Reaches(After(c, Act(Publish(service, Fail(r)))), e, true)
  {
    var c' := After(c, Act(Publish(service, Fail(r))));
    assert forall topic :: LogOf(c'.s, topic) == LogOf(c.s, topic);
    if CopyAhead(c, c.committed, e) {
      assert CopyAhead(c', c'.committed, e);
    } else if InHand(c.s, e) {
      assert InHand(c'.s, e);
    }
  }

  lemma FailKeepsHope(c: Brokers, service: Service, r: RelayId, o: OrderId)
    requires Enabled(c.s, Publish(service, Fail(r))) && o in c.s.orders.orders && Hopeful(c, o, true)
    ensures Hopeful(After(c, Act(Publish(service, Fail(r)))), o, true)
  {
    var c' := After(c, Act(Publish(service, Fail(r))));
    PublishView(c.s, service, Fail(r));
    if Waits(PhaseOf(ViewOf(c.s, o))) && !OutcomeComing(ViewOf(c.s, o)) {
      var e :| e in Awaited(ViewOf(c.s, o)) && Reaches(c, e, true);
      FailReach(c, service, r, e);
      HopeBy(c', o, e, true);
    }
  }

  /** Consumers are where their committed offsets say. */
  ghost predicate AtCommitted(c: Brokers, groups: set<Service>) {
    forall lane: Lane :: Reader(lane.topic) in groups ==> Offset(c.position, lane) == Offset(c.committed, lane)
  }

  lemma RestartGoesBack(c: Brokers, group: Service, groups: set<Service>)
    requires AtCommitted(c, groups)
    ensures AtCommitted(After(c, Restart(group)), groups + {group})
  {
  }

  /** The same orders, and none has lost hope. */
  ghost predicate HopeKept(c: Brokers, c': Brokers) {
    && c'.s.orders.orders == c.s.orders.orders
    && forall o :: o in c.s.orders.orders && Hopeful(c, o, true) ==> Hopeful(c', o, true)
  }

  lemma RestartOne(seed: map<ItemId, int>, c: Brokers, group: Service, groups: set<Service>)
    requires Fit(seed, c) && AtCommitted(c, groups)
    ensures var c' := After(c, Restart(group));
      Fit(seed, c') && HopeKept(c, c') && AtCommitted(c', groups + {group})
  {
    var c' := After(c, Restart(group));
    MoveKeeps(seed, c, Restart(group));
    RestartGoesBack(c, group, groups);
    forall o | o in c.s.orders.orders && Hopeful(c, o, true) ensures Hopeful(c', o, true) {
      RestartKeepsHope(c, group, o);
    }
  }

  lemma RestartAll(seed: map<ItemId, int>, c: Brokers) returns (moves: seq<Move>)
    requires Fit(seed, c)
    ensures ValidMoves(c, moves)
    ensures var c' := AfterAll(c, moves);
      Fit(seed, c') && HopeKept(c, c') && AtCommitted(c', {Orders, Restaurant, Payments})
  {
    var c1, c2 := After(c, Restart(Orders)), After(After(c, Restart(Orders)), Restart(Restaurant));
    RestartOne(seed, c, Orders, {});
    assert {} + {Orders} == {Orders};
    RestartOne(seed, c1, Restaurant, {Orders});
    assert {Orders} + {Restaurant} == {Orders, Restaurant};
    RestartOne(seed, c2, Payments, {Orders, Restaurant});
    assert {Orders, Restaurant} + {Payments} == {Orders, Restaurant, Payments};
    RunFirst(c2, Restart(Payments), []);
    RunFirst(c1, Restart(Restaurant), [Restart(Payments)] + []);
    RunFirst(c, Restart(Orders), [Restart(Restaurant)] + ([Restart(Payments)] + []));
    moves := [Restart(Orders)] + ([Restart(Restaurant)] + ([Restart(Payments)] + []));
  }

  ghost function Holders(s: State): nat {
    |s.orderChannel.holders| + |s.restaurantChannel.holders| + |s.paymentChannel.holders|
  }

  lemma HoldersLess(s: State, service: Service, r: RelayId)
    requires r in ChannelOf(s, service).holders && Enabled(s, Publish(service, Fail(r)))
    ensures Holders(Apply(s, Publish(service, Fail(r)))) < Holders(s)
  {
    var s' := Apply(s, Publish(service, Fail(r)));
    assert ChannelOf(s', service).holders.Keys == ChannelOf(s, service).holders.Keys - {r};
    assert |ChannelOf(s', service).holders| == |ChannelOf(s', service).holders.Keys|;
    assert |ChannelOf(s, service).holders| == |ChannelOf(s, service).holders.Keys|;
  }

  lemma FailOne(seed: map<ItemId, int>, c: Brokers, service: Service, r: RelayId)
    requires Fit(seed, c) && AtCommitted(c, {Orders, Restaurant, Payments})
    requires r in ChannelOf(c.s, service).holders
    ensures var m := Act(Publish(service, Fail(r)));
      CanMove(c, m) && var c' := After(c, m);
      && Fit(seed, c') && HopeKept(c, c') && AtCommitted(c', {Orders, Restaurant, Payments})
      && Holders(c'.s) < Holders(c.s)
  {
    var m := Act(Publish(service, Fail(r)));
    assert Booked(c.s, service);
    assert CanMove(c, m);
    MoveKeeps(seed, c, m);
    HoldersLess(c.s, service, r);
    forall o | o in c.s.orders.orders && Hopeful(c, o, true) ensures Hopeful(After(c, m), o, true) {
      FailKeepsHope(c, service, r, o);
    }
  }

  lemma {:induction false} FailAll(seed: map<ItemId, int>, c: Brokers) returns (moves: seq<Move>)
    requires Fit(seed, c) && AtCommitted(c, {Orders, Restaurant, Payments})
    ensures ValidMoves(c, moves)
    ensures var c' := AfterAll(c, moves);
      Fit(seed, c') && HopeKept(c, c') && AtCommitted(c', {Orders, Restaurant, Payments}) && Holders(c'.s) == 0
    decreases Holders(c.s)
  {
    if service, r :| r in ChannelOf(c.s, service).holders {
      FailOne(seed, c, service, r);
      var rest := FailAll(seed, After(c, Act(Publish(service, Fail(r)))));
      RunFirst(c, Act(Publish(service, Fail(r))), rest);
      moves := [Act(Publish(service, Fail(r)))] + rest;
    } else {
      NoHolders(c.s);
      moves := [];
    }
  }

  lemma NoHolders(s: State)
    requires forall service, r :: r !in ChannelOf(s, service).holders
    ensures Holders(s) == 0
  {
    assert forall r :: r !in ChannelOf(s, Orders).holders && r !in ChannelOf(s, Restaurant).holders && r !in ChannelOf(s, Payments).holders;
    assert s.orderChannel.holders == map[] && s.restaurantChannel.holders == map[] && s.paymentChannel.holders == map[];
  }

  /** Once everybody has gone back to what is committed, all hope there is needs no more failures. */
  lemma HopeAfterFailures(c: Brokers, o: OrderId)
    requires AtCommitted(c, {Orders, Restaurant, Payments}) && Holders(c.s) == 0
    requires o in c.s.orders.orders && Hopeful(c, o, true)
    ensures Hopeful(c, o, false)
  {
    if Waits(PhaseOf(ViewOf(c.s, o))) && !OutcomeComing(ViewOf(c.s, o)) {
      var e :| e in Awaited(ViewOf(c.s, o)) && Reaches(c, e, true);
      assert Offset(c.position, LaneOf(c, e)) == Offset(c.committed, LaneOf(c, e));
      assert CopyAhead(c, c.committed, e) ==> CopyAhead(c, c.position, e);
      assert !SentPending(ChannelOf(c.s, e.id.source), e.id.serial);
      HopeBy(c, o, e, false);
    }
  }

  lemma {:induction false} MovesConcat(c: Brokers, first: seq<Move>, second: seq<Move>)
    requires ValidMoves(c, first) && ValidMoves(AfterAll(c, first), second)
    ensures ValidMoves(c, first + second) && AfterAll(c, first + second) == AfterAll(AfterAll(c, first), second)
    decreases |first|
  {
    if first == [] {
      assert first + second == second;
    } else {
      assert (first + second)[1..] == first[1..] + second;
      MovesConcat(After(c, first[0]), first[1..], second);
    }
  }

  /** All hope that failures leave can be had without further ones, once everybody has gone back. */
  lemma GoBack(seed: map<ItemId, int>, c: Brokers) returns (moves: seq<Move>)
    requires Fit(seed, c)
    ensures ValidMoves(c, moves)
    ensures var c' := AfterAll(c, moves);
      && Fit(seed, c') && c'.s.orders.orders.Keys == c.s.orders.orders.Keys
      && forall o :: o in c.s.orders.orders && Hopeful(c, o, true) ==> Hopeful(c', o, false)
  {
    var back := RestartAll(seed, c);
    var c1 := AfterAll(c, back);
    var failed := FailAll(seed, c1);
    var c2 := AfterAll(c1, failed);
    MovesConcat(c, back, failed);
    moves := back + failed;
    forall o | o in c.s.orders.orders && Hopeful(c, o, true) ensures Hopeful(c2, o, false) {
      assert Hopeful(c1, o, true) && Hopeful(c2, o, true);
      HopeAfterFailures(c2, o);
    }
  }

  lemma CanRecover(seed: map<ItemId, int>, c: Brokers) returns (moves: seq<Move>)
    requires Fit(seed, c) && AllHopeful(c, true)
    ensures RestsAfter(c, moves)
  {
    var back := GoBack(seed, c);
    var last := CanSettle(seed, AfterAll(c, back));
    MovesConcat(c, back, last);
    moves := back + last;
  }

  lemma CanRecoverOrder(seed: map<ItemId, int>, c: Brokers, o: OrderId) returns (moves: seq<Move>)
    requires Fit(seed, c) && o in c.s.orders.orders && Hopeful(c, o, true)
    ensures SettlesOrder(c, moves, o)
  {
    var back := GoBack(seed, c);
    var last := CanSettleOrder(seed, AfterAll(c, back), o);
    MovesConcat(c, back, last);
    moves := back + last;
  }

  /**
   An order can be settled at all, by any moves whatever, exactly when it is not lost for good: when it
   does not wait, or some event it waits for has its row still pending, a copy at or above its consumer's
   committed offset, or its handler under way.
   */
  lemma LostForGood(seed: map<ItemId, int>, c: Brokers, o: OrderId)
    requires Fit(seed, c) && o in c.s.orders.orders
    ensures (exists moves :: SettlesOrder(c, moves, o)) <==> Hopeful(c, o, true)
  {
    if Hopeful(c, o, true) {
      var moves := CanRecoverOrder(seed, c, o);
    } else if moves :| SettlesOrder(c, moves, o) {
      HopelessNever(seed, c, moves, o, true);
    }
  }

  /** Likewise rest, for all orders together. */
  lemma RestAtAll(seed: map<ItemId, int>, c: Brokers)
    requires Fit(seed, c)
    ensures (exists moves :: RestsAfter(c, moves)) <==> AllHopeful(c, true)
  {
    if AllHopeful(c, true) {
      var moves := CanRecover(seed, c);
      assert RestsAfter(c, moves);
    }
    if moves :| RestsAfter(c, moves) {
      RestNeedsHope(seed, c, moves, true);
    }
  }

  /** What can still become of the orders after any run at all, from the seeded state, mishaps included. */
  lemma Outlook(seed: map<ItemId, int>, number: OrderId -> nat, moves: seq<Move>, o: OrderId)
    requires WellStocked(seed) && ValidMoves(Start(seed, number), moves)
    requires NonNegativeOrders(AfterAll(Start(seed, number), moves).s)
    requires o in AfterAll(Start(seed, number), moves).s.orders.orders
    ensures var c := AfterAll(Start(seed, number), moves);
      && ((exists more :: SettlesOrder(c, more, o) && AllSmooth(more)) <==> Hopeful(c, o, false))
      && ((exists more :: SettlesOrder(c, more, o)) <==> Hopeful(c, o, true))
      && ((exists more :: RestsAfter(c, more) && AllSmooth(more)) <==> AllHopeful(c, false))
      && ((exists more :: RestsAfter(c, more)) <==> AllHopeful(c, true))
  {
    var c := AfterAll(Start(seed, number), moves);
    StartSound(seed, number);
    RunSound(seed, Start(seed, number), moves);
    OrderWithinReach(seed, c, o);
    LostForGood(seed, c, o);
    RestWithinReach(seed, c);
    RestAtAll(seed, c);
  }

  // ---------- a run that loses an order ----------

  /** One order; its event is published; its one delivery raises; the batch is committed. */
  function PassedOver(o: OrderId, user: UserId, number: nat): seq<Move> {
    [Act(CreateOrder(o, O.Request(user, [], 0, None, None), 0)),
     Act(Publish(Orders, Lock(0, 0))), Act(Publish(Orders, Send(0))), Act(Publish(Orders, Finish(0))),
     Move.Attempt(Lane(OrderPlaced, number), 0, Step.Fault), Commit(Restaurant)]
  }

  function FirstEvent(o: OrderId, user: UserId): Envelope {
    Envelope(EventId(Orders, 0), OrderPlaced, o, OrderBody(user, [], 0, None))
  }

  /** The state without stock but with one order, its first event published or not, and the relays' state. */
  function OneOrder(o: OrderId, user: UserId, published: bool, ch: Channel): State {
    var row := Row(FirstEvent(o, user), 0, published);
    Init(map[]).(orders := O.OrderDb(map[o := O.Order(user, [], 0, O.Pending, None, None)], [row], {}), orderChannel := ch)
  }

  function Handed(o: OrderId, user: UserId): State {
    OneOrder(o, user, true, Channel([FirstEvent(o, user)], map[], multiset{}))
  }

  lemma Created(o: OrderId, user: UserId)
    ensures Apply(Init(map[]), CreateOrder(o, O.Request(user, [], 0, None, None), 0)) == OneOrder(o, user, false, QUIET)
  {
  }

  lemma Relayed(o: OrderId, user: UserId)
    ensures var s1 := OneOrder(o, user, false, QUIET);
      var s2 := OneOrder(o, user, false, Channel([], map[0 := Hold(0, false)], multiset{}));
      var s3 := OneOrder(o, user, false, Channel([FirstEvent(o, user)], map[0 := Hold(0, true)], multiset{}));
      && Enabled(s1, Publish(Orders, Lock(0, 0))) && Apply(s1, Publish(Orders, Lock(0, 0))) == s2
      && Enabled(s2, Publish(Orders, Send(0))) && Apply(s2, Publish(Orders, Send(0))) == s3
      && Enabled(s3, Publish(Orders, Finish(0))) && Apply(s3, Publish(Orders, Finish(0))) == Handed(o, user)
  {
    var rows := OneOrder(o, user, false, QUIET).orders.outbox;
    assert Available(rows, QUIET, 0);
    assert map[0 := Hold(0, false)][0 := Hold(0, true)] == map[0 := Hold(0, true)];
    assert map[0 := Hold(0, true)] - {0} == map[];
  }

  lemma HandedOver(o: OrderId, user: UserId, number: OrderId -> nat)
    ensures var c := Start(map[], number);
      var moves := PassedOver(o, user, number(o))[..4];
      ValidMoves(c, moves) && AfterAll(c, moves) == c.(s := Handed(o, user))
  {
    var c := Start(map[], number);
    var all := PassedOver(o, user, number(o));
    Created(o, user);
    Relayed(o, user);
    var c1 := After(c, all[0]);
    var c2 := After(c1, all[1]);
    var c3 := After(c2, all[2]);
    assert all[..4] == [all[0]] + ([all[1]] + ([all[2]] + ([all[3]] + [])));
    RunFirst(c3, all[3], []);
    RunFirst(c2, all[2], [all[3]] + []);
    RunFirst(c1, all[1], [all[2]] + ([all[3]] + []));
    RunFirst(c, all[0], [all[1]] + ([all[2]] + ([all[3]] + [])));
  }

  /** The state after the attempt that raised and the commit. */
  ghost function Lost(o: OrderId, user: UserId, number: OrderId -> nat): Brokers {
    var lane := Lane(OrderPlaced, number(o));
    Brokers(Handed(o, user), number, map[lane := 1], map[lane := 1])
  }

  lemma LostAfter(o: OrderId, user: UserId, number: OrderId -> nat)
    ensures var c := Start(map[], number);
      var moves := PassedOver(o, user, number(o));
      ValidMoves(c, moves) && AfterAll(c, moves) == Lost(o, user, number)
  {
    var c := Start(map[], number);
    var all := PassedOver(o, user, number(o));
    HandedOver(o, user, number);
    var c4 := AfterAll(c, all[..4]);
    assert LogOf(c4.s, OrderPlaced) == [FirstEvent(o, user)];
    assert NextIn(c4, Lane(OrderPlaced, number(o)), 0);
    var c5 := After(c4, all[4]);
    var c6 := After(c5, all[5]);
    assert c6.committed == map[Lane(OrderPlaced, number(o)) := 1];
    RunFirst(c5, all[5], []);
    RunFirst(c4, all[4], [all[5]] + []);
    assert all == all[..4] + ([all[4]] + ([all[5]] + []));
    MovesConcat(c, all[..4], [all[4]] + ([all[5]] + []));
  }

  lemma LostHopeless(o: OrderId, user: UserId, number: OrderId -> nat)
    ensures !Hopeful(Lost(o, user, number), o, true)
  {
    var c := Lost(o, user, number);
    var e := FirstEvent(o, user);
    assert c.s.orders.outbox[..0] == [];
    assert About(c.s.orders.outbox, o) == [e];
    assert ViewOf(c.s, o).order.Some? && PhaseOf(ViewOf(c.s, o)) == Placed;
    assert Awaited(ViewOf(c.s, o)) == [e];
    assert Offset(c.committed, LaneOf(c, e)) == 1 && |LogOf(c.s, e.topic)| == 1;
    assert !Reaches(c, e, true);
  }

  /**
   A run after which an order stays PENDING whatever happens: the one attempt at its order.placed event
   raises, and the offset of the batch is committed all the same.
   */
  lemma PassedOverForGood(o: OrderId, user: UserId, number: OrderId -> nat, more: seq<Move>)
    requires ValidMoves(Start(map[], number), PassedOver(o, user, number(o)) + more)
    ensures var s := AfterAll(Start(map[], number), PassedOver(o, user, number(o)) + more).s;
      o in s.orders.orders && !Settled(PhaseOf(ViewOf(s, o)))
  {
    var c := Start(map[], number);
    LostAfter(o, user, number);
    StartSound(map[], number);
    RunSound(map[], c, PassedOver(o, user, number(o)));
    LostHopeless(o, user, number);
    MovesSplit(c, PassedOver(o, user, number(o)), more);
    HopelessNever(map[], Lost(o, user, number), more, o, true);
  }

  lemma {:induction false} RunSound(seed: map<ItemId, int>, c: Brokers, moves: seq<Move>)
    requires BrokersInv(seed, c) && ValidMoves(c, moves)
    ensures BrokersInv(seed, AfterAll(c, moves))
    decreases |moves|
  {
    if moves != [] {
      MoveKeeps(seed, c, moves[0]);
      RunSound(seed, After(c, moves[0]), moves[1..]);
    }
  }

  lemma {:induction false} MovesSplit(c: Brokers, first: seq<Move>, second: seq<Move>)
    requires ValidMoves(c, first) && ValidMoves(c, first + second)
    ensures ValidMoves(AfterAll(c, first), second)
    ensures AfterAll(c, first + second) == AfterAll(AfterAll(c, first), second)
    decreases |first|
  {
    if first == [] {
      assert first + second == second;
    } else {
      assert (first + second)[1..] == first[1..] + second;
      MovesSplit(After(c, first[0]), first[1..], second);
    }
  }
}
