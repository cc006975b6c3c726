/**
 When the system comes to rest. Every move in which something happens brings it closer, so a run without
 mishaps comes to rest by itself, unless an order has lost hope; and such an order never moves again.
 */
module Settling {
  import opened Events
  import opened Stock
  import opened Outbox
  import opened System
  import opened Views
  import opened Steps
  import opened Safety
  import opened Progress
  import opened Cluster
  import opened Hope
  import P = PaymentService

  // ---------- how far from rest ----------

  /** Messages of a log that its consumers have not attempted. */
  function Unread(log: seq<Envelope>, c: Brokers): nat {
    if log == [] then 0
    else
      var n := |log| - 1;
      Unread(log[..n], c) + (if Offset(c.position, LaneOf(c, log[n])) <= n then 1 else 0)
  }

  ghost function Backlog(c: Brokers): nat {
    Unread(c.s.orderChannel.log, c) + Unread(c.s.restaurantChannel.log, c) + Unread(c.s.paymentChannel.log, c)
  }

  ghost function Far(c: Brokers): int {
    2 * Distance(c.s) + Backlog(c)
  }

  ghost predicate ReadFurther(c: Brokers, c': Brokers) {
    c'.number == c.number && forall lane: Lane :: Offset(c.position, lane) <= Offset(c'.position, lane)
  }

  lemma {:induction false} ReadingOn(log: seq<Envelope>, c: Brokers, c': Brokers)
    requires ReadFurther(c, c')
    ensures Unread(log, c') <= Unread(log, c)
  {
    if log != [] {
      var n := |log| - 1;
      ReadingOn(log[..n], c, c');
      assert Offset(c.position, LaneOf(c, log[n])) <= Offset(c'.position, LaneOf(c, log[n]));
    }
  }

  lemma {:induction false} ReadOne(log: seq<Envelope>, c: Brokers, c': Brokers, i: nat)
    requires ReadFurther(c, c') && i < |log|
    requires Offset(c.position, LaneOf(c, log[i])) <= i < Offset(c'.position, LaneOf(c, log[i]))
    ensures Unread(log, c') < Unread(log, c)
  {
    var n := |log| - 1;
    if i < n {
      ReadOne(log[..n], c, c', i);
      assert Offset(c.position, LaneOf(c, log[n])) <= Offset(c'.position, LaneOf(c, log[n]));
    } else {
      ReadingOn(log[..n], c, c');
    }
  }

  lemma UnreadNext(log: seq<Envelope>, e: Envelope, c: Brokers)
    ensures Unread(log, c) <= Unread(log + [e], c) <= Unread(log, c) + 1
  {
    assert (log + [e])[..|log|] == log;
  }

  lemma {:induction false} SameOffsets(log: seq<Envelope>, c: Brokers, c': Brokers)
    requires c'.number == c.number && c'.position == c.position
    ensures Unread(log, c') == Unread(log, c)
  {
    if log != [] {
      SameOffsets(log[..|log| - 1], c, c');
    }
  }

  // ---------- moves in which something happens ----------

  ghost predicate Happening(c: Brokers, m: Move) {
    match m
    case Attempt(_, _, _) => true
    case Act(step) => Effective(c.s, step)
    case _ => false
  }

  lemma LogsSame(s: State, step: Step)
    requires Enabled(s, step) && !step.Publish?
    ensures var s' := Apply(s, step);
      && s'.orderChannel == s.orderChannel && s'.restaurantChannel == s.restaurantChannel && s'.paymentChannel == s.paymentChannel
  {
  }

  lemma AttemptBacklog(c: Brokers, m: Move)
    requires CanMove(c, m) && m.Attempt?
    ensures Backlog(After(c, m)) < Backlog(c)
  {
    var c' := After(c, m);
    LogsSame(c.s, m.step);
    assert ReadFurther(c, c');
    ReadingOn(c.s.orderChannel.log, c, c');
    ReadingOn(c.s.restaurantChannel.log, c, c');
    ReadingOn(c.s.paymentChannel.log, c, c');
    ReadOne(LogOf(c.s, m.lane.topic), c, c', m.i);
  }

  lemma AttemptNears(seed: map<ItemId, int>, c: Brokers, m: Move)
    requires BrokersInv(seed, c) && CanMove(c, m) && Smooth(m) && m.Attempt?
    ensures Far(After(c, m)) < Far(c)
  {
    AttemptBacklog(c, m);
    DistanceNeverGrows(seed, c.s, m.step);
  }

  lemma ActBacklog(c: Brokers, m: Move)
    requires CanMove(c, m) && m.Act?
    ensures Backlog(After(c, m)) <= Backlog(c) + 1
    ensures !m.step.Publish? ==> Backlog(After(c, m)) == Backlog(c)
  {
    var c' := After(c, m);
    SameOffsets(c'.s.orderChannel.log, c, c');
    SameOffsets(c'.s.restaurantChannel.log, c, c');
    SameOffsets(c'.s.paymentChannel.log, c, c');
    if m.step.Publish? {
      PublishLogs(c.s, m.step);
      var log := ChannelOf(c.s, m.step.service).log;
      if m.step.a.Send? {
        UnreadNext(log, OutboxOf(c.s, m.step.service)[ChannelOf(c.s, m.step.service).holders[m.step.a.relay].row].env, c);
      }
    } else {
      LogsSame(c.s, m.step);
    }
  }

  lemma PublishLogs(s: State, step: Step)
    requires Enabled(s, step) && step.Publish?
    ensures forall service :: service != step.service || !step.a.Send? ==>
              ChannelOf(Apply(s, step), service).log == ChannelOf(s, service).log
    ensures step.a.Send? ==>
              ChannelOf(Apply(s, step), step.service).log ==
              ChannelOf(s, step.service).log + [OutboxOf(s, step.service)[ChannelOf(s, step.service).holders[step.a.relay].row].env]
  {
  }

  /** Every move in which something happens, and nothing goes wrong, brings the system closer to rest. */
  lemma HappeningNears(seed: map<ItemId, int>, c: Brokers, m: Move)
    requires BrokersInv(seed, c) && CanMove(c, m) && Smooth(m) && Happening(c, m)
    ensures Far(After(c, m)) < Far(c)
  {
    if m.Attempt? {
      AttemptNears(seed, c, m);
    } else {
      ActBacklog(c, m);
      EffectiveNears(c.s, m.step);
    }
  }

  /** In the others no table, channel or reading position changes. */
  lemma NothingHappens(seed: map<ItemId, int>, c: Brokers, m: Move)
    requires BrokersInv(seed, c) && CanMove(c, m) && Smooth(m) && !Happening(c, m)
    ensures var c' := After(c, m);
      && c'.s == c.s.(stuck := c'.s.stuck, releasing := c'.s.releasing)
      && c'.position == c.position
  {
    if m.Act? {
      IdleStep(c.s, m.step);
    }
  }

  /** The others take it no further away. */
  lemma SmoothNeverFarther(seed: map<ItemId, int>, c: Brokers, m: Move)
    requires BrokersInv(seed, c) && CanMove(c, m) && Smooth(m)
    ensures Far(After(c, m)) <= Far(c)
  {
    if Happening(c, m) {
      HappeningNears(seed, c, m);
    } else if m.Act? {
      ActBacklog(c, m);
      DistanceNeverGrows(seed, c.s, m.step);
    } else {
      SameOffsets(c.s.orderChannel.log, c, After(c, m));
      SameOffsets(c.s.restaurantChannel.log, c, After(c, m));
      SameOffsets(c.s.paymentChannel.log, c, After(c, m));
    }
  }

  lemma FarNatural(seed: map<ItemId, int>, c: Brokers)
    requires BrokersInv(seed, c)
    ensures Far(c) >= 0
  {
    DistanceNatural(c.s);
  }

  // ---------- something can happen ----------

  /** If a message lies ahead in a partition, there is a next one to attempt. */
  lemma FirstIn(c: Brokers, lane: Lane, i: nat) returns (j: nat)
    requires Offset(c.position, lane) <= i < |LogOf(c.s, lane.topic)| && LaneOf(c, LogOf(c.s, lane.topic)[i]) == lane
    ensures NextIn(c, lane, j)
  {
    j := Offset(c.position, lane);
    while LaneOf(c, LogOf(c.s, lane.topic)[j]) != lane
      invariant Offset(c.position, lane) <= j <= i
      invariant forall k :: Offset(c.position, lane) <= k < j ==> LaneOf(c, LogOf(c.s, lane.topic)[k]) != lane
      decreases i - j
    {
      j := j + 1;
    }
  }

  lemma AttemptNext(c: Brokers, lane: Lane, i: nat) returns (m: Move)
    requires NextIn(c, lane, i)
    ensures CanMove(c, m) && Smooth(m) && Happening(c, m)
  {
    var e := LogOf(c.s, lane.topic)[i];
    m := Move.Attempt(lane, i, HandlerOf(e));
    assert Sent(c.s, e);
  }

  lemma ReachedHappens(c: Brokers, e: Envelope) returns (m: Move)
    requires Reaches(c, e, false) && PendingRows(c.s) == 0 && Commits(c.s, e)
    ensures CanMove(c, m) && Smooth(m) && Happening(c, m)
  {
    if CopyAhead(c, c.position, e) {
      var i: nat :| Offset(c.position, LaneOf(c, e)) <= i < |LogOf(c.s, e.topic)| && LogOf(c.s, e.topic)[i] == e;
      var j := FirstIn(c, LaneOf(c, e), i);
      m := AttemptNext(c, LaneOf(c, e), j);
    } else if InHand(c.s, e) {
      var r :| r in c.s.releasing && r.e == e;
      m := Act(FinishRelease(r));
    } else {
      UnpublishedZero(OutboxOf(c.s, e.id.source));
      assert false;
    }
  }

  lemma StuckHappens(seed: map<ItemId, int>, c: Brokers, o: OrderId) returns (m: Move)
    requires BrokersInv(seed, c) && P.Stuck(c.s.payments, o)
    ensures CanMove(c, m) && Smooth(m) && Happening(c, m)
  {
    var ch := P.Remembered(c.s.payments, o);
    m := if ch in c.s.stuck then Act(Reconcile(ch, 0)) else Act(Snapshot({o}));
    assert ch !in c.s.stuck ==> Effective(c.s, Snapshot({o}));
  }

  lemma WaitingHappens(seed: map<ItemId, int>, c: Brokers, o: OrderId) returns (m: Move)
    requires BrokersInv(seed, c) && WellStocked(seed) && NonNegativeOrders(c.s) && PendingRows(c.s) == 0
    requires o in c.s.orders.orders && Waits(PhaseOf(ViewOf(c.s, o))) && Hopeful(c, o, false)
    ensures CanMove(c, m) && Smooth(m) && Happening(c, m)
  {
    assert Consistent(o, ViewOf(c.s, o));
    if OutcomeComing(ViewOf(c.s, o)) {
      m := Act(RecordOutcome(o, 0));
    } else {
      var e :| e in Awaited(ViewOf(c.s, o)) && Reaches(c, e, false);
      AwaitedCommits(seed, c.s, o, e);
      m := ReachedHappens(c, e);
    }
  }

  lemma PendingHappens(c: Brokers) returns (m: Move)
    requires RelayInv(c.s) && PendingRows(c.s) > 0
    ensures CanMove(c, m) && Smooth(m) && Happening(c, m)
  {
    var service := if Unpublished(c.s.orders.outbox) > 0 then Orders
                   else if Unpublished(c.s.restaurant.outbox) > 0 then Restaurant else Payments;
    assert Booked(c.s, service);
    var a := RelayCanAct(OutboxOf(c.s, service), ChannelOf(c.s, service));
    m := Act(Publish(service, a));
  }

  lemma ProcessingStuck(o: OrderId, s: State)
    requires Consistent(o, ViewOf(s, o)) && o in s.orders.orders && PhaseOf(ViewOf(s, o)) == Processing
    ensures P.Stuck(s.payments, o)
  {
  }

  /** As long as an order has hope and is not settled, something can happen that brings the system closer to rest. */
  lemma OrderProgress(seed: map<ItemId, int>, c: Brokers, o: OrderId) returns (m: Move)
    requires BrokersInv(seed, c) && WellStocked(seed) && NonNegativeOrders(c.s)
    requires o in c.s.orders.orders && !Settled(PhaseOf(ViewOf(c.s, o))) && Hopeful(c, o, false)
    ensures CanMove(c, m) && Smooth(m) && Happening(c, m)
    ensures Far(After(c, m)) < Far(c)
  {
    if PendingRows(c.s) > 0 {
      m := PendingHappens(c);
    } else if PhaseOf(ViewOf(c.s, o)) == Processing {
      assert Consistent(o, ViewOf(c.s, o));
      ProcessingStuck(o, c.s);
      m := StuckHappens(seed, c, o);
    } else {
      m := WaitingHappens(seed, c, o);
    }
    HappeningNears(seed, c, m);
  }

  /** As long as every order has hope and the system is not at rest, something can happen that brings it closer. */
  lemma CanProgress(seed: map<ItemId, int>, c: Brokers) returns (m: Move)
    requires BrokersInv(seed, c) && WellStocked(seed) && NonNegativeOrders(c.s)
    requires AllHopeful(c, false) && !Done(c.s)
    ensures CanMove(c, m) && Smooth(m) && Happening(c, m)
    ensures Far(After(c, m)) < Far(c)
  {
    if PendingRows(c.s) > 0 {
      m := PendingHappens(c);
      HappeningNears(seed, c, m);
    } else {
      var o :| o in c.s.orders.orders && !Settled(PhaseOf(ViewOf(c.s, o)));
      assert Hopeful(c, o, false);
      m := OrderProgress(seed, c, o);
    }
  }

  // ---------- runs ----------

  predicate AllSmooth(moves: seq<Move>) {
    forall k :: 0 <= k < |moves| ==> Smooth(moves[k])
  }

  /** Moves of a run in which something happens. */
  ghost function Happenings(c: Brokers, moves: seq<Move>): nat
    requires ValidMoves(c, moves)
    decreases |moves|
  {
    if moves == [] then 0
    else (if Happening(c, moves[0]) then 1 else 0) + Happenings(After(c, moves[0]), moves[1..])
  }

  /** What the results below start from. */
  ghost predicate Fit(seed: map<ItemId, int>, c: Brokers) {
    BrokersInv(seed, c) && WellStocked(seed) && NonNegativeOrders(c.s)
  }

  lemma SmoothKeepsFit(seed: map<ItemId, int>, c: Brokers, m: Move)
    requires Fit(seed, c) && CanMove(c, m) && Smooth(m)
    ensures Fit(seed, After(c, m))
  {
    MoveKeeps(seed, c, m);
    if StepOf(m).Some? {
      ItemsStay(seed, c.s, StepOf(m).value);
    }
  }

  lemma SmoothKeepsHope(seed: map<ItemId, int>, c: Brokers, m: Move)
    requires Fit(seed, c) && CanMove(c, m) && Smooth(m) && AllHopeful(c, false)
    ensures AllHopeful(After(c, m), false)
  {
    if StepOf(m).Some? {
      OrdersFixed(c.s, StepOf(m).value);
    }
    forall o | o in After(c, m).s.orders.orders ensures Hopeful(After(c, m), o, false) {
      assert Hopeful(c, o, false);
      HopefulStays(seed, c, m, o);
    }
  }

  /** A run without mishaps keeps hope, and each happening in it brings the system closer to rest. */
  lemma {:induction false} SmoothRun(seed: map<ItemId, int>, c: Brokers, moves: seq<Move>)
    requires Fit(seed, c) && AllHopeful(c, false) && ValidMoves(c, moves) && AllSmooth(moves)
    ensures Fit(seed, AfterAll(c, moves)) && AllHopeful(AfterAll(c, moves), false)
    ensures Far(AfterAll(c, moves)) + Happenings(c, moves) <= Far(c)
    decreases |moves|
  {
    if moves != [] {
      var m := moves[0];
      SmoothKeepsFit(seed, c, m);
      SmoothKeepsHope(seed, c, m);
      SmoothNeverFarther(seed, c, m);
      if Happening(c, m) {
        HappeningNears(seed, c, m);
      }
      SmoothRun(seed, After(c, m), moves[1..]);
    }
  }

  lemma RunFirst(c: Brokers, m: Move, rest: seq<Move>)
    requires CanMove(c, m) && ValidMoves(After(c, m), rest)
    ensures ValidMoves(c, [m] + rest) && AfterAll(c, [m] + rest) == AfterAll(After(c, m), rest)
  {
    assert ([m] + rest)[1..] == rest;
  }

  lemma MoveThen(c: Brokers, m: Move, rest: seq<Move>) returns (moves: seq<Move>)
    requires CanMove(c, m) && Smooth(m) && ValidMoves(After(c, m), rest) && AllSmooth(rest)
    ensures AllSmooth(moves) && ValidMoves(c, moves) && AfterAll(c, moves) == AfterAll(After(c, m), rest)
    ensures |moves| == 1 + |rest|
  {
    RunFirst(c, m, rest);
    moves := [m] + rest;
  }

  lemma Closer(seed: map<ItemId, int>, c: Brokers) returns (m: Move)
    requires Fit(seed, c) && AllHopeful(c, false) && !Done(c.s)
    ensures CanMove(c, m) && Smooth(m)
    ensures Fit(seed, After(c, m)) && AllHopeful(After(c, m), false)
    ensures 0 <= Far(After(c, m)) < Far(c)
  {
    m := CanProgress(seed, c);
    SmoothKeepsFit(seed, c, m);
    SmoothKeepsHope(seed, c, m);
    FarNatural(seed, After(c, m));
  }

  lemma {:induction false} CanSettle(seed: map<ItemId, int>, c: Brokers) returns (moves: seq<Move>)
    requires Fit(seed, c) && AllHopeful(c, false)
    ensures AllSmooth(moves) && ValidMoves(c, moves) && Done(AfterAll(c, moves).s)
    ensures |moves| <= Far(c)
    decreases Far(c)
  {
    if Done(c.s) {
      FarNatural(seed, c);
      moves := [];
    } else {
      var m := Closer(seed, c);
      var rest := CanSettle(seed, After(c, m));
      moves := MoveThen(c, m, rest);
    }
  }

  /** The moves lead to rest. */
  ghost predicate RestsAfter(c: Brokers, moves: seq<Move>) {
    ValidMoves(c, moves) && Done(AfterAll(c, moves).s)
  }

  /** Nothing more can happen unless something goes wrong or a customer orders. */
  ghost predicate Quiescent(c: Brokers) {
    forall m :: CanMove(c, m) && Smooth(m) ==> !Happening(c, m)
  }

  lemma QuiescentDone(seed: map<ItemId, int>, c: Brokers)
    requires Fit(seed, c) && AllHopeful(c, false) && Quiescent(c)
    ensures Done(c.s)
  {
    if !Done(c.s) {
      var m := CanProgress(seed, c);
    }
  }

  /**
   Every run without mishaps comes to rest by itself: whenever nothing more can happen the system is at
   rest, and however a run has gone so far, it goes on to rest in no more moves than were left of the
   distance it started from.
   */
  lemma EveryRunSettles(seed: map<ItemId, int>, c: Brokers, moves: seq<Move>) returns (rest: seq<Move>)
    requires Fit(seed, c) && AllHopeful(c, false) && ValidMoves(c, moves) && AllSmooth(moves)
    ensures Quiescent(AfterAll(c, moves)) ==> Done(AfterAll(c, moves).s)
    ensures AllSmooth(rest) && RestsAfter(AfterAll(c, moves), rest)
    ensures Happenings(c, moves) + |rest| <= Far(c)
  {
    SmoothRun(seed, c, moves);
    var c' := AfterAll(c, moves);
    if Quiescent(c') {
      QuiescentDone(seed, c');
    }
    rest := CanSettle(seed, c');
  }

  // ---------- orders without hope ----------

  /** A hopeless order is never settled: not in a run without mishaps, nor, if failures could not help it either, in any run. */
  lemma {:induction false} HopelessNever(seed: map<ItemId, int>, c: Brokers, moves: seq<Move>, o: OrderId, anew: bool)
    requires BrokersInv(seed, c) && ValidMoves(c, moves) && (anew || AllSmooth(moves))
    requires o in c.s.orders.orders && !Hopeful(c, o, anew)
    ensures var s' := AfterAll(c, moves).s;
      o in s'.orders.orders && !Settled(PhaseOf(ViewOf(s', o)))
    decreases |moves|
  {
    if moves != [] {
      MoveKeeps(seed, c, moves[0]);
      HopelessStays(seed, c, moves[0], o, anew);
      HopelessNever(seed, After(c, moves[0]), moves[1..], o, anew);
    }
  }

  /** The moves settle the order. */
  ghost predicate SettlesOrder(c: Brokers, moves: seq<Move>, o: OrderId) {
    && ValidMoves(c, moves)
    && var s' := AfterAll(c, moves).s;
       o in s'.orders.orders && Settled(PhaseOf(ViewOf(s', o)))
  }

  lemma OrderCloser(seed: map<ItemId, int>, c: Brokers, o: OrderId) returns (m: Move)
    requires Fit(seed, c) && o in c.s.orders.orders && Hopeful(c, o, false) && !Settled(PhaseOf(ViewOf(c.s, o)))
    ensures CanMove(c, m) && Smooth(m)
    ensures Fit(seed, After(c, m)) && o in After(c, m).s.orders.orders && Hopeful(After(c, m), o, false)
    ensures 0 <= Far(After(c, m)) < Far(c)
  {
    m := OrderProgress(seed, c, o);
    SmoothKeepsFit(seed, c, m);
    HopefulStays(seed, c, m, o);
    FarNatural(seed, After(c, m));
  }

  lemma {:induction false} CanSettleOrder(seed: map<ItemId, int>, c: Brokers, o: OrderId) returns (moves: seq<Move>)
    requires Fit(seed, c) && o in c.s.orders.orders && Hopeful(c, o, false)
    ensures AllSmooth(moves) && SettlesOrder(c, moves, o)
    decreases Far(c)
  {
    if Settled(PhaseOf(ViewOf(c.s, o))) {
      moves := [];
    } else {
      var m := OrderCloser(seed, c, o);
      var rest := CanSettleOrder(seed, After(c, m), o);
      moves := MoveThen(c, m, rest);
    }
  }

  /** Whatever became of the others, an order can be settled without further mishaps exactly when it has hope. */
  lemma OrderWithinReach(seed: map<ItemId, int>, c: Brokers, o: OrderId)
    requires Fit(seed, c) && o in c.s.orders.orders
    ensures (exists moves :: SettlesOrder(c, moves, o) && AllSmooth(moves)) <==> Hopeful(c, o, false)
  {
    if Hopeful(c, o, false) {
      var moves := CanSettleOrder(seed, c, o);
    } else if moves :| SettlesOrder(c, moves, o) && AllSmooth(moves) {
      HopelessNever(seed, c, moves, o, false);
    }
  }

  lemma RestNeedsHope(seed: map<ItemId, int>, c: Brokers, moves: seq<Move>, anew: bool)
    requires Fit(seed, c) && RestsAfter(c, moves) && (anew || AllSmooth(moves))
    ensures AllHopeful(c, anew)
  {
    forall o | o in c.s.orders.orders ensures Hopeful(c, o, anew) {
      if !Hopeful(c, o, anew) {
        HopelessNever(seed, c, moves, o, anew);
      }
    }
  }

  /** Rest can be reached without further mishaps exactly when every order that waits has an event within reach. */
  lemma RestWithinReach(seed: map<ItemId, int>, c: Brokers)
    requires Fit(seed, c)
    ensures (exists moves :: RestsAfter(c, moves) && AllSmooth(moves)) <==> AllHopeful(c, false)
  {
    if AllHopeful(c, false) {
      var moves := CanSettle(seed, c);
      assert RestsAfter(c, moves);
    }
    if moves :| RestsAfter(c, moves) && AllSmooth(moves) {
      RestNeedsHope(seed, c, moves, false);
    }
  }
}
