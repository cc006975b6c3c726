/**
 The system with the brokers' partitions and the consumers' offsets. A message is attempted in its turn
 and passed over whether or not its handler raised; offsets are committed for what has been passed; a
 consumer that starts again goes back to what it had committed. So an event can be lost to its consumer,
 and this module says for which orders there is still hope.
 */
module Cluster {
  import opened Events
  import opened Stock
  import opened Outbox
  import opened System
  import opened Views
  import opened Invariant
  import opened Steps
  import opened Safety
  import opened Progress

  /** A partition: events of one topic whose keys share a number. */
  datatype Lane = Lane(topic: Topic, number: nat)

  /** Offsets are counted in the log of the service that produces the topic; a partition is a part of that log. */
  datatype Brokers = Brokers(s: State, number: OrderId -> nat, position: map<Lane, nat>, committed: map<Lane, nat>)

  datatype Move =
    | Attempt(lane: Lane, i: nat, step: Step) // message i of the log is handed over; a Fault is a handler that raised
    | Act(step: Step)                         // anything but a delivery
    | Commit(group: Service)
    | Restart(group: Service)

  function Producer(topic: Topic): Service {
    match topic
    case OrderPlaced => Orders
    case StockRelease => Orders
    case StockReserved => Restaurant
    case StockRejected => Restaurant
    case _ => Payments
  }

  /** The one consumer group that reads a topic. */
  function Reader(topic: Topic): Service {
    match topic
    case OrderPlaced => Restaurant
    case StockRelease => Restaurant
    case StockReserved => Payments
    case _ => Orders
  }

  function LogOf(s: State, topic: Topic): seq<Envelope> {
    ChannelOf(s, Producer(topic)).log
  }

  /** Topic and key decide the partition. */
  function LaneOf(c: Brokers, e: Envelope): Lane {
    Lane(e.topic, c.number(e.order))
  }

  function Offset(offsets: map<Lane, nat>, lane: Lane): nat {
    if lane in offsets then offsets[lane] else 0
  }

  /** The next message of a partition. */
  ghost predicate NextIn(c: Brokers, lane: Lane, i: nat) {
    var log := LogOf(c.s, lane.topic);
    && Offset(c.position, lane) <= i < |log| && LaneOf(c, log[i]) == lane
    && forall j :: Offset(c.position, lane) <= j < i ==> LaneOf(c, log[j]) != lane
  }

  /** Steps a consumer takes because a message was delivered. */
  predicate IsDelivery(step: Step) {
    step.RestaurantHandles? || step.ReadReservation? || step.OrderHandles? || step.RecordIntent?
  }

  /** The step handles this event, or is its handler's failure. */
  predicate Runs(step: Step, e: Envelope) {
    step.Fault? || (IsDelivery(step) && step.e == e)
  }

  ghost predicate CanMove(c: Brokers, m: Move) {
    match m
    case Attempt(lane, i, step) => NextIn(c, lane, i) && Runs(step, LogOf(c.s, lane.topic)[i]) && Enabled(c.s, step)
    case Act(step) => !IsDelivery(step) && Enabled(c.s, step)
    case Commit(_) => true
    case Restart(_) => true
  }

  /** The offsets with those of one group replaced. */
  function Replaced(offsets: map<Lane, nat>, source: map<Lane, nat>, group: Service): map<Lane, nat> {
    map lane | lane in offsets.Keys + source.Keys :: if Reader(lane.topic) == group then Offset(source, lane) else Offset(offsets, lane)
  }

  ghost function After(c: Brokers, m: Move): Brokers
    requires CanMove(c, m)
  {
    match m
    case Attempt(lane, i, step) => c.(s := Apply(c.s, step), position := c.position[lane := i + 1])
    case Act(step) => c.(s := Apply(c.s, step))
    case Commit(group) => c.(committed := Replaced(c.committed, c.position, group))
    case Restart(group) => c.(position := Replaced(c.position, c.committed, group))
  }

  ghost predicate ValidMoves(c: Brokers, moves: seq<Move>)
    decreases |moves|
  {
    moves == [] || (CanMove(c, moves[0]) && ValidMoves(After(c, moves[0]), moves[1..]))
  }

  ghost function AfterAll(c: Brokers, moves: seq<Move>): Brokers
    requires ValidMoves(c, moves)
    decreases |moves|
  {
    if moves == [] then c else AfterAll(After(c, moves[0]), moves[1..])
  }

  function Start(seed: map<ItemId, int>, number: OrderId -> nat): Brokers {
    Brokers(Init(seed), number, map[], map[])
  }

  // ---------- the moves are steps of the system ----------

  /** The step of the system that a move takes, if it takes any. */
  function StepOf(m: Move): Option<Step> {
    match m
    case Attempt(_, _, step) => Some(step)
    case Act(step) => Some(step)
    case _ => None
  }

  ghost predicate OffsetsSound(c: Brokers) {
    forall lane: Lane :: Offset(c.committed, lane) <= Offset(c.position, lane) <= |LogOf(c.s, lane.topic)|
  }

  ghost predicate BrokersInv(seed: map<ItemId, int>, c: Brokers) {
    Inv(seed, c.s) && OffsetsSound(c)
  }

  /** Nothing is ever taken out of a log. */
  lemma LogsGrow(s: State, step: Step, topic: Topic)
    requires Enabled(s, step)
    ensures LogOf(s, topic) <= LogOf(Apply(s, step), topic)
  {
  }

  lemma OffsetsKept(c: Brokers, m: Move)
    requires OffsetsSound(c) && CanMove(c, m)
    ensures OffsetsSound(After(c, m))
  {
    var c' := After(c, m);
    forall lane: Lane ensures Offset(c'.committed, lane) <= Offset(c'.position, lane) <= |LogOf(c'.s, lane.topic)| {
      assert Offset(c.committed, lane) <= Offset(c.position, lane) <= |LogOf(c.s, lane.topic)|;
      if StepOf(m).Some? {
        LogsGrow(c.s, StepOf(m).value, lane.topic);
      }
    }
  }

  /** So everything that holds in every state of the system holds with offsets too. */
  lemma MoveKeeps(seed: map<ItemId, int>, c: Brokers, m: Move)
    requires BrokersInv(seed, c) && CanMove(c, m)
    ensures BrokersInv(seed, After(c, m))
    ensures StepOf(m).Some? ==> Enabled(c.s, StepOf(m).value) && After(c, m).s == Apply(c.s, StepOf(m).value)
    ensures StepOf(m).None? ==> After(c, m).s == c.s
  {
    OffsetsKept(c, m);
    if StepOf(m).Some? {
      StepKeeps(seed, c.s, StepOf(m).value);
    }
  }

  /** A run with offsets is a run of the system: offsets only take deliveries away. */
  lemma {:induction false} RunProjects(c: Brokers, moves: seq<Move>) returns (steps: seq<Step>)
    requires ValidMoves(c, moves)
    ensures Valid(c.s, steps) && Run(c.s, steps) == AfterAll(c, moves).s
    decreases |moves|
  {
    if moves == [] {
      steps := [];
    } else {
      var rest := RunProjects(After(c, moves[0]), moves[1..]);
      if StepOf(moves[0]).Some? {
        steps := [StepOf(moves[0]).value] + rest;
        assert steps[1..] == rest;
      } else {
        steps := rest;
      }
    }
  }

  // ---------- hope ----------

  /** A copy of the event that lies ahead of the offsets. */
  ghost predicate CopyAhead(c: Brokers, offsets: map<Lane, nat>, e: Envelope) {
    exists i: nat :: Offset(offsets, LaneOf(c, e)) <= i < |LogOf(c.s, e.topic)| && LogOf(c.s, e.topic)[i] == e
  }

  /** The event's row is pending; and, unless relays may fail, no relay has sent it and only has to mark it. */
  ghost predicate ToBeSent(s: State, e: Envelope, anew: bool) {
    var rows := OutboxOf(s, e.id.source);
    && e.id.serial < |rows| && !rows[e.id.serial].published
    && (anew || !SentPending(ChannelOf(s, e.id.source), e.id.serial))
  }

  /** A release handler is between reading the reservation and committing. */
  ghost predicate InHand(s: State, e: Envelope) {
    exists r :: r in s.releasing && r.e == e
  }

  /**
   The event can still take effect. With `anew` also by what failures bring back: consumers that go back
   to their committed offsets, relays that send again.
   */
  ghost predicate Reaches(c: Brokers, e: Envelope, anew: bool) {
    || CopyAhead(c, if anew then c.committed else c.position, e)
    || ToBeSent(c.s, e, anew)
    || InHand(c.s, e)
  }

  /** A payment handler that will write one more outcome event. */
  predicate OutcomeComing(v: View)
    requires v.order.Some?
  {
    PhaseOf(v) in {Charged, Declined} && v.flight.Some?
  }

  /** An order is settled, or can move on. */
  ghost predicate Hopeful(c: Brokers, o: OrderId, anew: bool) {
    var v := ViewOf(c.s, o);
    v.order.Some? && Waits(PhaseOf(v)) ==> OutcomeComing(v) || exists e :: e in Awaited(v) && Reaches(c, e, anew)
  }

  ghost predicate AllHopeful(c: Brokers, anew: bool) {
    forall o :: o in c.s.orders.orders ==> Hopeful(c, o, anew)
  }

  /** Moves in which nothing goes wrong and no customer orders. */
  predicate Smooth(m: Move) {
    match m
    case Attempt(_, _, step) => !step.Fault?
    case Act(step) => Ordinary(step)
    case Commit(_) => true
    case Restart(_) => false
  }

  /** Moves in which nothing goes wrong. */
  predicate Fine(m: Move) {
    Smooth(m) || (m.Act? && m.step.CreateOrder?)
  }
}
