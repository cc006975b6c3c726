/**
 The outbox relay: any number of relays, each locking one pending row, sending it and marking it,
 and the drain loop that one relay runs.
 */
module Outbox {
  import opened Events

  type RelayId = nat

  /** A relay inside its transaction: the row it has locked, and whether the broker has it already. */
  datatype Hold = Hold(row: nat, sent: bool)

  /**
   The outside of one outbox table: what the broker received, the open relay transactions, and (for
   the accounting only) the sends whose transaction did not commit.
   */
  datatype Channel = Channel(log: seq<Envelope>, holders: map<RelayId, Hold>, failed: multiset<Envelope>)

  const QUIET := Channel([], map[], multiset{})

  datatype Action =
    | Lock(relay: RelayId, row: nat)
    | Send(relay: RelayId)
    | Finish(relay: RelayId)
    | Fail(relay: RelayId)

  ghost predicate Locked(ch: Channel, row: nat) {
    exists r :: r in ch.holders && ch.holders[r].row == row
  }

  /** Pending and not skipped by SKIP LOCKED. */
  ghost predicate Available(rows: seq<Row>, ch: Channel, i: nat) {
    i < |rows| && !rows[i].published && !Locked(ch, i)
  }

  /** ORDER BY created_at LIMIT 1 among the rows that are available. */
  ghost predicate Selected(rows: seq<Row>, ch: Channel, i: nat) {
    && Available(rows, ch, i)
    && forall j: nat :: Available(rows, ch, j) ==> rows[i].createdAt <= rows[j].createdAt
  }

  ghost predicate CanAct(rows: seq<Row>, ch: Channel, a: Action) {
    match a
    case Lock(r, i) => r !in ch.holders && Selected(rows, ch, i)
    case Send(r) => r in ch.holders && !ch.holders[r].sent && ch.holders[r].row < |rows|
    case Finish(r) => r in ch.holders && ch.holders[r].sent && ch.holders[r].row < |rows|
    case Fail(r) => r in ch.holders && ch.holders[r].row < |rows|
  }

  ghost function ActRows(rows: seq<Row>, ch: Channel, a: Action): seq<Row>
    requires CanAct(rows, ch, a)
  {
    if a.Finish? then MarkPublished(rows, ch.holders[a.relay].row) else rows
  }

  /** Fail is a failed send, a failed commit or the process dying: the lock goes, the broker keeps what it has. */
  ghost function ActChannel(rows: seq<Row>, ch: Channel, a: Action): Channel
    requires CanAct(rows, ch, a)
  {
    match a
    case Lock(r, i) => ch.(holders := ch.holders[r := Hold(i, false)])
    case Send(r) =>
      var i := ch.holders[r].row;
      ch.(log := ch.log + [rows[i].env], holders := ch.holders[r := Hold(i, true)])
    case Finish(r) => ch.(holders := ch.holders - {r})
    case Fail(r) =>
      var hold := ch.holders[r];
      ch.(holders := ch.holders - {r},
          failed := if hold.sent then ch.failed + multiset{rows[hold.row].env} else ch.failed)
  }

  ghost predicate SentPending(ch: Channel, row: nat) {
    exists r :: r in ch.holders && ch.holders[r] == Hold(row, true)
  }

  /** A row is held by at most one relay, and only while it is pending. */
  ghost predicate LocksSound(rows: seq<Row>, ch: Channel) {
    && (forall r :: r in ch.holders ==> ch.holders[r].row < |rows| && !rows[ch.holders[r].row].published)
    && forall r, r' :: r in ch.holders && r' in ch.holders && ch.holders[r].row == ch.holders[r'].row ==> r == r'
  }

  /** Copies of a row in the log, explained. */
  ghost predicate Explained(rows: seq<Row>, ch: Channel, i: nat)
    requires i < |rows|
  {
    multiset(ch.log)[rows[i].env] ==
      ch.failed[rows[i].env] + (if rows[i].published then 1 else 0) + (if SentPending(ch, i) then 1 else 0)
  }

  ghost predicate Accounted(rows: seq<Row>, service: Service, ch: Channel) {
    && Numbered(rows, service)
    && LocksSound(rows, ch)
    && (forall e :: e in ch.log || e in ch.failed ==> Stored(rows, e) && e.id.source == service)
    && forall i :: 0 <= i < |rows| ==> Explained(rows, ch, i)
  }

  lemma SendKeepsAccount(rows: seq<Row>, service: Service, ch: Channel, r: RelayId)
    requires Accounted(rows, service, ch) && CanAct(rows, ch, Send(r))
    ensures Accounted(rows, service, ActChannel(rows, ch, Send(r)))
  {
    var k := ch.holders[r].row;
    var ch' := ActChannel(rows, ch, Send(r));
    assert multiset(ch'.log) == multiset(ch.log) + multiset{rows[k].env};
    forall i | 0 <= i < |rows| ensures Explained(rows, ch', i) {
      assert Explained(rows, ch, i);
      if i == k {
        assert ch'.holders[r] == Hold(i, true);
      } else {
        assert rows[i].env != rows[k].env;
        if SentPending(ch, i) {
          var x :| x in ch.holders && ch.holders[x] == Hold(i, true);
          assert ch'.holders[x] == Hold(i, true);
        }
      }
    }
  }

  lemma LeaveKeepsAccount(rows: seq<Row>, service: Service, ch: Channel, a: Action)
    requires Accounted(rows, service, ch) && CanAct(rows, ch, a) && (a.Finish? || a.Fail?)
    ensures Accounted(ActRows(rows, ch, a), service, ActChannel(rows, ch, a))
  {
    var hold := ch.holders[a.relay];
    var rows', ch' := ActRows(rows, ch, a), ActChannel(rows, ch, a);
    forall i | 0 <= i < |rows'| ensures Explained(rows', ch', i) {
      assert Explained(rows, ch, i);
      if i != hold.row {
        assert rows[i].env != rows[hold.row].env;
        if SentPending(ch, i) {
          var x :| x in ch.holders && ch.holders[x] == Hold(i, true);
          assert ch'.holders[x] == Hold(i, true);
        }
      } else {
        assert !SentPending(ch', i);
        assert hold.sent ==> ch.holders[a.relay] == Hold(i, true);
      }
    }
  }

  lemma LockKeepsAccount(rows: seq<Row>, service: Service, ch: Channel, r: RelayId, i: nat)
    requires Accounted(rows, service, ch) && CanAct(rows, ch, Lock(r, i))
    ensures Accounted(rows, service, ActChannel(rows, ch, Lock(r, i)))
  {
    var ch' := ActChannel(rows, ch, Lock(r, i));
    forall k | 0 <= k < |rows| ensures Explained(rows, ch', k) {
      assert Explained(rows, ch, k);
      if SentPending(ch, k) {
        var x :| x in ch.holders && ch.holders[x] == Hold(k, true);
        assert ch'.holders[x] == Hold(k, true);
      }
    }
  }

  /** Every relay action keeps the accounts, whatever the other relays are doing. */
  lemma ActKeepsAccount(rows: seq<Row>, service: Service, ch: Channel, a: Action)
    requires Accounted(rows, service, ch) && CanAct(rows, ch, a)
    ensures Accounted(ActRows(rows, ch, a), service, ActChannel(rows, ch, a))
  {
    match a
    case Lock(r, i) => LockKeepsAccount(rows, service, ch, r, i);
    case Send(r) => SendKeepsAccount(rows, service, ch, r);
    case Finish(_) => LeaveKeepsAccount(rows, service, ch, a);
    case Fail(_) => LeaveKeepsAccount(rows, service, ch, a);
  }

  /** So does a business transaction that inserts a row. */
  lemma EmitKeepsAccount(rows: seq<Row>, service: Service, ch: Channel, topic: Topic, order: OrderId, body: Body, now: int)
    requires Accounted(rows, service, ch)
    ensures Accounted(Emit(rows, service, topic, order, body, now), service, ch)
  {
    var rows' := Emit(rows, service, topic, order, body, now);
    forall e | e in ch.log || e in ch.failed ensures Stored(rows', e) {
      assert Stored(rows, e);
    }
    forall i | 0 <= i < |rows'| ensures Explained(rows', ch, i) {
      if i < |rows| {
        assert Explained(rows, ch, i);
      } else {
        var env := rows'[i].env;
        assert !Stored(rows, env);
        assert env !in ch.log && env !in ch.failed;
        assert !SentPending(ch, i);
      }
    }
  }

  /** One thing that happens to an outbox table and its relays. */
  datatype OutboxEvent =
    | Relay(a: Action)
    | Insert(topic: Topic, order: OrderId, body: Body, now: int)

  ghost predicate Happens(rows: seq<Row>, service: Service, ch: Channel, history: seq<OutboxEvent>, rows': seq<Row>, ch': Channel)
    decreases |history|
  {
    if history == [] then rows' == rows && ch' == ch
    else
      match history[0]
      case Relay(a) =>
        CanAct(rows, ch, a) && Happens(ActRows(rows, ch, a), service, ActChannel(rows, ch, a), history[1..], rows', ch')
      case Insert(topic, order, body, now) =>
        Happens(Emit(rows, service, topic, order, body, now), service, ch, history[1..], rows', ch')
  }

  /** The accounts balance after every history of inserts, sends, marks and failures by any number of relays. */
  lemma {:induction false} HistoryAccounted(rows: seq<Row>, service: Service, ch: Channel, history: seq<OutboxEvent>,
                                            rows': seq<Row>, ch': Channel)
    requires Accounted(rows, service, ch) && Happens(rows, service, ch, history, rows', ch')
    ensures Accounted(rows', service, ch')
    ensures forall i :: 0 <= i < |rows'| && rows'[i].published ==> rows'[i].env in ch'.log
    decreases |history|
  {
    if history == [] {
      forall i | 0 <= i < |rows'| && rows'[i].published ensures rows'[i].env in ch'.log {
        assert Explained(rows', ch', i);
      }
    } else {
      match history[0]
      case Relay(a) =>
        ActKeepsAccount(rows, service, ch, a);
        HistoryAccounted(ActRows(rows, ch, a), service, ActChannel(rows, ch, a), history[1..], rows', ch');
      case Insert(topic, order, body, now) =>
        EmitKeepsAccount(rows, service, ch, topic, order, body, now);
        HistoryAccounted(Emit(rows, service, topic, order, body, now), service, ch, history[1..], rows', ch');
    }
  }

  lemma {:induction false} HappensConcat(rows: seq<Row>, service: Service, ch: Channel, first: seq<OutboxEvent>,
                                         rows1: seq<Row>, ch1: Channel, second: seq<OutboxEvent>, rows2: seq<Row>, ch2: Channel)
    requires Happens(rows, service, ch, first, rows1, ch1)
    requires Happens(rows1, service, ch1, second, rows2, ch2)
    ensures Happens(rows, service, ch, first + second, rows2, ch2)
    decreases |first|
  {
    if first == [] {
      assert first + second == second;
    } else {
      assert (first + second)[1..] == first[1..] + second;
      match first[0]
      case Relay(a) =>
        HappensConcat(ActRows(rows, ch, a), service, ActChannel(rows, ch, a), first[1..], rows1, ch1, second, rows2, ch2);
      case Insert(topic, order, body, now) =>
        HappensConcat(Emit(rows, service, topic, order, body, now), service, ch, first[1..], rows1, ch1, second, rows2, ch2);
    }
  }

  // ---------- the order of the log ----------

  /** The rows stand in the order of their stamps. */
  predicate InOrder(rows: seq<Row>) {
    forall i, j :: 0 <= i < j < |rows| ==> rows[i].createdAt < rows[j].createdAt
  }

  /** The stamps of the old rows stay; a new row, of which there is at most one, bears the time of its transaction. */
  predicate Stamped(rows: seq<Row>, rows': seq<Row>, time: Option<int>) {
    && |rows| <= |rows'| <= |rows| + 1
    && (forall i :: 0 <= i < |rows| ==> rows'[i].createdAt == rows[i].createdAt)
    && (|rows'| > |rows| ==> time == Some(rows'[|rows|].createdAt))
  }

  lemma StampedKeepsOrder(rows: seq<Row>, rows': seq<Row>, time: Option<int>)
    requires InOrder(rows) && Stamped(rows, rows', time)
    requires time.Some? ==> forall i :: 0 <= i < |rows| ==> rows[i].createdAt < time.value
    ensures InOrder(rows')
  {
  }

  predicate OneRelay(history: seq<OutboxEvent>, r: RelayId) {
    forall k :: 0 <= k < |history| && history[k].Relay? ==> history[k].a.relay == r
  }

  /** Rows are inserted one after the other, each later than those already there. */
  predicate InsertsRise(rows: seq<Row>, history: seq<OutboxEvent>) {
    && (forall i, k :: 0 <= i < |rows| && 0 <= k < |history| && history[k].Insert? ==> rows[i].createdAt < history[k].now)
    && forall j, k :: 0 <= j < k < |history| && history[j].Insert? && history[k].Insert? ==> history[j].now < history[k].now
  }

  /** A log that never goes back: a later copy is of the same row or of one written later. */
  predicate NeverBack(log: seq<Envelope>) {
    forall j, k :: 0 <= j < k < |log| ==> log[j].id.serial <= log[k].id.serial
  }

  /** One relay works through the table from the front: the first p rows are done, and it can only be at row p. */
  ghost predicate Sequential(rows: seq<Row>, service: Service, ch: Channel, r: RelayId, p: nat) {
    && Numbered(rows, service) && InOrder(rows)
    && p <= |rows| && (forall i :: 0 <= i < |rows| ==> (rows[i].published <==> i < p))
    && (forall x :: x in ch.holders ==> x == r && ch.holders[x].row == p)
    && (forall k :: 0 <= k < |ch.log| ==> ch.log[k].id.serial <= p)
    && NeverBack(ch.log)
  }

  lemma ActSequential(rows: seq<Row>, service: Service, ch: Channel, a: Action, p: nat) returns (p': nat)
    requires Sequential(rows, service, ch, a.relay, p) && CanAct(rows, ch, a)
    ensures Sequential(ActRows(rows, ch, a), service, ActChannel(rows, ch, a), a.relay, p')
  {
    p' := if a.Finish? then p + 1 else p;
    if a.Lock? {
      assert ch.holders == map[];
      assert forall j: nat :: Available(rows, ch, j) <==> p <= j < |rows|;
      assert Available(rows, ch, p);
    }
  }

  lemma InsertSequential(rows: seq<Row>, service: Service, ch: Channel, r: RelayId, p: nat,
                         topic: Topic, order: OrderId, body: Body, now: int)
    requires Sequential(rows, service, ch, r, p) && forall i :: 0 <= i < |rows| ==> rows[i].createdAt < now
    ensures Sequential(Emit(rows, service, topic, order, body, now), service, ch, r, p)
  {
  }

  lemma RiseOn(rows: seq<Row>, rows': seq<Row>, history: seq<OutboxEvent>)
    requires history != [] && InsertsRise(rows, history)
    requires Stamped(rows, rows', if history[0].Insert? then Some(history[0].now) else None)
    ensures InsertsRise(rows', history[1..])
  {
  }

  /** With a single relay, events reach the broker in the order in which they were written, repeats right after the first copy. */
  lemma {:induction false} OneRelayKeepsOrder(rows: seq<Row>, service: Service, ch: Channel, r: RelayId, p: nat,
                                              history: seq<OutboxEvent>, rows': seq<Row>, ch': Channel) returns (p': nat)
    requires Sequential(rows, service, ch, r, p) && Happens(rows, service, ch, history, rows', ch')
    requires OneRelay(history, r) && InsertsRise(rows, history)
    ensures Sequential(rows', service, ch', r, p')
    decreases |history|
  {
    if history == [] {
      p' := p;
    } else {
      match history[0]
      case Relay(a) =>
        p' := ActSequential(rows, service, ch, a, p);
        RiseOn(rows, ActRows(rows, ch, a), history);
        p' := OneRelayKeepsOrder(ActRows(rows, ch, a), service, ActChannel(rows, ch, a), r, p', history[1..], rows', ch');
      case Insert(topic, order, body, now) =>
        InsertSequential(rows, service, ch, r, p, topic, order, body, now);
        RiseOn(rows, Emit(rows, service, topic, order, body, now), history);
        p' := OneRelayKeepsOrder(Emit(rows, service, topic, order, body, now), service, ch, r, p, history[1..], rows', ch');
    }
  }

  lemma LogFollowsTable(service: Service, r: RelayId, history: seq<OutboxEvent>, rows: seq<Row>, ch: Channel)
    requires Happens([], service, QUIET, history, rows, ch) && OneRelay(history, r) && InsertsRise([], history)
    ensures NeverBack(ch.log)
    ensures forall i, j :: 0 <= i < j < |rows| && rows[j].published ==> rows[i].published
  {
    var p := OneRelayKeepsOrder([], service, QUIET, r, 0, history, rows, ch);
  }

  /** With two, SKIP LOCKED lets the second overtake the first. */
  lemma TwoRelaysOvertake(service: Service, o: OrderId) returns (rows: seq<Row>, ch: Channel)
    ensures var history := [Insert(OrderPlaced, o, EmptyBody, 1), Insert(StockRelease, o, EmptyBody, 2),
                            Relay(Lock(0, 0)), Relay(Lock(1, 1)), Relay(Send(1)), Relay(Send(0))];
      Happens([], service, QUIET, history, rows, ch) && !NeverBack(ch.log)
  {
    var r1 := Emit([], service, OrderPlaced, o, EmptyBody, 1);
    rows := Emit(r1, service, StockRelease, o, EmptyBody, 2);
    var ch1 := QUIET.(holders := map[0 := Hold(0, false)]);
    var ch2 := ch1.(holders := ch1.holders[1 := Hold(1, false)]);
    var ch3 := ch2.(log := [rows[1].env], holders := ch2.holders[1 := Hold(1, true)]);
    ch := ch3.(log := [rows[1].env, rows[0].env], holders := ch3.holders[0 := Hold(0, true)]);
    assert Available(rows, QUIET, 0);
    assert ch1.holders[0].row == 0 && Locked(ch1, 0);
    assert Available(rows, ch1, 1);
    HappensFirst(rows, service, ch3, Send(0), [], rows, ch);
    HappensFirst(rows, service, ch2, Send(1), [Relay(Send(0))], rows, ch);
    HappensFirst(rows, service, ch1, Lock(1, 1), [Relay(Send(1)), Relay(Send(0))], rows, ch);
    HappensFirst(rows, service, QUIET, Lock(0, 0), [Relay(Lock(1, 1)), Relay(Send(1)), Relay(Send(0))], rows, ch);
    var tail := [Relay(Lock(0, 0)), Relay(Lock(1, 1)), Relay(Send(1)), Relay(Send(0))];
    var second, first := Insert(StockRelease, o, EmptyBody, 2), Insert(OrderPlaced, o, EmptyBody, 1);
    assert ([second] + tail)[1..] == tail && ([first] + ([second] + tail))[1..] == [second] + tail;
    assert [first, second, Relay(Lock(0, 0)), Relay(Lock(1, 1)), Relay(Send(1)), Relay(Send(0))] == [first] + ([second] + tail);
    assert ch.log[0].id.serial == 1 && ch.log[1].id.serial == 0;
  }

  lemma HappensFirst(rows: seq<Row>, service: Service, ch: Channel, a: Action, rest: seq<OutboxEvent>, rows': seq<Row>, ch': Channel)
    requires CanAct(rows, ch, a) && Happens(ActRows(rows, ch, a), service, ActChannel(rows, ch, a), rest, rows', ch')
    ensures Happens(rows, service, ch, [Relay(a)] + rest, rows', ch')
  {
    assert ([Relay(a)] + rest)[1..] == rest;
  }

  /** One relay action, as a history. */
  lemma HappensOnce(rows: seq<Row>, service: Service, ch: Channel, a: Action)
    requires CanAct(rows, ch, a)
    ensures Happens(rows, service, ch, [Relay(a)], ActRows(rows, ch, a), ActChannel(rows, ch, a))
  {
    assert [Relay(a)][1..] == [];
  }

  /** How one pass of the drain loop goes wrong: before the broker has the event, or after. */
  datatype Fault = Healthy | SendFails | MarkFails

  /** What a failing pass leaves in the broker. */
  function Leaked(row: Row, fault: Fault): seq<Envelope> {
    if fault == MarkFails then [row.env] else []
  }

  /** How one pass ended. */
  datatype Pass = Empty | Published | Broken

  ghost predicate AllHealthy(faults: nat -> Fault, passes: nat) {
    forall k: nat :: k < passes ==> faults(k) == Healthy
  }

  lemma HealthyNext(faults: nat -> Fault, k: nat)
    requires AllHealthy(faults, k) && faults(k) == Healthy
    ensures AllHealthy(faults, k + 1)
  {
  }

  function Envs(rows: seq<Row>, picked: seq<nat>): seq<Envelope>
    requires forall k :: 0 <= k < |picked| ==> picked[k] < |rows|
  {
    seq(|picked|, k requires 0 <= k < |picked| => rows[picked[k]].env)
  }

  /** The rows picked so far: pending, all different, oldest first, and none of the rows left is older. */
  ghost predicate OldestFirst(rows: seq<Row>, picked: seq<nat>) {
    && (forall k :: 0 <= k < |picked| ==> picked[k] < |rows| && !rows[picked[k]].published)
    && (forall j, k :: 0 <= j < k < |picked| ==>
          picked[j] != picked[k] && rows[picked[j]].createdAt <= rows[picked[k]].createdAt)
    && forall k, i :: 0 <= k < |picked| && 0 <= i < |rows| && !rows[i].published && i !in picked ==>
                        rows[picked[k]].createdAt <= rows[i].createdAt
  }

  /** The table once exactly the picked rows have been marked. */
  ghost predicate MarkedExactly(rows: seq<Row>, rows': seq<Row>, picked: seq<nat>) {
    && |rows'| == |rows|
    && forall i :: 0 <= i < |rows| ==> rows'[i] == rows[i].(published := rows[i].published || i in picked)
  }

  ghost predicate Oldest(rows: seq<Row>, i: nat) {
    && i < |rows| && !rows[i].published
    && forall j :: 0 <= j < |rows| && !rows[j].published ==> rows[i].createdAt <= rows[j].createdAt
  }

  /**
   What the drain loop has done by publishing the picked rows: oldest first, hence in the order of writing
   where stamps rise; exactly these marked; exactly these appended to the log.
   */
  ghost predicate Drained(start: seq<Row>, log0: seq<Envelope>, rows: seq<Row>, log: seq<Envelope>, picked: seq<nat>) {
    && OldestFirst(start, picked)
    && SentInOrder(start, picked)
    && MarkedExactly(start, rows, picked)
    && Unpublished(rows) == Unpublished(start) - |picked|
    && log == log0 + Envs(start, picked)
  }

  /** Sent in the order in which they were written, and none skipped: a pending row before a sent one is sent too. */
  ghost predicate WrittenFirst(rows: seq<Row>, picked: seq<nat>) {
    && (forall j, k :: 0 <= j < k < |picked| ==> picked[j] < picked[k])
    && forall k, i :: 0 <= k < |picked| && 0 <= i < picked[k] && i < |rows| && !rows[i].published ==> i in picked
  }

  /** Where stamps rise, oldest first means written first. */
  ghost predicate SentInOrder(rows: seq<Row>, picked: seq<nat>) {
    InOrder(rows) ==> WrittenFirst(rows, picked)
  }

  lemma PickedInOrder(rows: seq<Row>, picked: seq<nat>)
    requires OldestFirst(rows, picked)
    ensures SentInOrder(rows, picked)
  {
    if InOrder(rows) {
      forall j, k | 0 <= j < k < |picked| ensures picked[j] < picked[k] {
        assert rows[picked[j]].createdAt <= rows[picked[k]].createdAt;
      }
      forall k, i | 0 <= k < |picked| && 0 <= i < picked[k] && i < |rows| && !rows[i].published ensures i in picked {
        assert rows[i].createdAt < rows[picked[k]].createdAt;
      }
    }
  }

  lemma OldestNext(start: seq<Row>, rows: seq<Row>, picked: seq<nat>, i: nat)
    requires OldestFirst(start, picked) && MarkedExactly(start, rows, picked) && Oldest(rows, i)
    ensures i !in picked && OldestFirst(start, picked + [i])
  {
    assert i !in picked;
    var picked' := picked + [i];
    forall k, j | 0 <= k < |picked'| && 0 <= j < |start| && !start[j].published && j !in picked'
      ensures start[picked'[k]].createdAt <= start[j].createdAt
    {
      assert j !in picked && !rows[j].published;
      if k < |picked| {
        assert picked'[k] == picked[k];
      }
    }
    forall k, l | 0 <= k < l < |picked'|
      ensures picked'[k] != picked'[l] && start[picked'[k]].createdAt <= start[picked'[l]].createdAt
    {
      assert picked'[k] == picked[k] && picked[k] in picked;
    }
  }

  lemma MarkNext(start: seq<Row>, rows: seq<Row>, picked: seq<nat>, i: nat)
    requires MarkedExactly(start, rows, picked) && i < |rows|
    ensures MarkedExactly(start, MarkPublished(rows, i), picked + [i])
  {
  }

  lemma DrainOne(start: seq<Row>, log0: seq<Envelope>, rows: seq<Row>, log: seq<Envelope>, picked: seq<nat>, i: nat)
    requires Drained(start, log0, rows, log, picked) && Oldest(rows, i)
    ensures Drained(start, log0, MarkPublished(rows, i), log + [rows[i].env], picked + [i])
  {
    MarkFacts(rows, i);
    MarkNext(start, rows, picked, i);
    OldestNext(start, rows, picked, i);
    PickedInOrder(start, picked + [i]);
    assert Envs(start, picked + [i]) == Envs(start, picked) + [start[i].env];
  }

  lemma DrainNothing(rows: seq<Row>, log: seq<Envelope>)
    ensures Drained(rows, log, rows, log, [])
  {
  }

  class OutboxRelay {
    const service: Service
    var rows: seq<Row>
    var log: seq<Envelope>
    ghost var failed: multiset<Envelope>

    /** What this relay looks like from outside between two transactions. */
    ghost function Outside(): Channel
      reads this
    {
      Channel(log, map[], failed)
    }

    constructor (owner: Service, pending: seq<Row>)
      ensures service == owner && rows == pending && log == [] && failed == multiset{}
    {
      service, rows, log, failed := owner, pending, [], multiset{};
    }

    method SelectNext() returns (next: Option<nat>)
      ensures next.None? ==> forall i :: 0 <= i < |rows| ==> rows[i].published
      ensures next.Some? ==> Oldest(rows, next.value)
    {
      next := None;
      for i := 0 to |rows|
        invariant next.None? ==> forall j :: 0 <= j < i ==> rows[j].published
        invariant next.Some? ==>
                    && next.value < i && !rows[next.value].published
                    && forall j :: 0 <= j < i && !rows[j].published ==> rows[next.value].createdAt <= rows[j].createdAt
      {
        if !rows[i].published && (next.None? || rows[i].createdAt < rows[next.value].createdAt) {
          next := Some(i);
        }
      }
    }

    /** One transaction of the loop, which is a run of the protocol above. */
    method PublishOne(i: nat, fault: Fault) returns (ok: bool, ghost history: seq<OutboxEvent>)
      requires Oldest(rows, i)
      modifies this
      ensures ok == (fault == Healthy)
      ensures rows == if ok then MarkPublished(old(rows), i) else old(rows)
      ensures log == if fault == SendFails then old(log) else old(log) + [old(rows)[i].env]
      ensures Happens(old(rows), service, old(Outside()), history, rows, Outside())
    {
      ghost var before, ch0 := rows, Outside();
      ghost var ch1 := ActChannel(before, ch0, Lock(0, i));
      ghost var sent := fault != SendFails;
      ghost var ch2 := if sent then ActChannel(before, ch1, Send(0)) else ch1;
      ghost var last := if fault == Healthy then Finish(0) else Fail(0);
      history := [Relay(Lock(0, i))] + (if sent then [Relay(Send(0))] else []) + [Relay(last)];

      ok := fault == Healthy;
      if fault != SendFails {
        log := log + [rows[i].env];
        if ok {
          rows := MarkPublished(rows, i);
        } else {
          failed := failed + multiset{rows[i].env};
        }
      }

      assert ActChannel(before, ch2, last).holders == map[];
      HappensOnce(before, service, ch0, Lock(0, i));
      HappensOnce(before, service, ch2, last);
      if sent {
        HappensOnce(before, service, ch1, Send(0));
      }
      HappensConcat(before, service, ch0, [Relay(Lock(0, i))], before, ch1, if sent then [Relay(Send(0))] else [], before, ch2);
      HappensConcat(before, service, ch0, [Relay(Lock(0, i))] + (if sent then [Relay(Send(0))] else []), before, ch2,
                    [Relay(last)], rows, Outside());
    }

    /** One pass of the drain loop: take the oldest pending row and publish it, if there is one. */
    method PublishNext(ghost start: seq<Row>, ghost log0: seq<Envelope>, ghost outside: Channel, ghost picked: seq<nat>,
                       ghost history: seq<OutboxEvent>, fault: Fault)
      returns (pass: Pass, ghost picked': seq<nat>, ghost history': seq<OutboxEvent>)
      requires Drained(start, log0, rows, log, picked)
      requires Happens(start, service, outside, history, rows, Outside())
      modifies this
      ensures pass == if Unpublished(old(rows)) == 0 then Empty else if fault == Healthy then Published else Broken
      ensures pass.Published? ==>
                && |picked'| == |picked| + 1 && Drained(start, log0, rows, log, picked')
                && Unpublished(rows) == Unpublished(old(rows)) - 1
      ensures !pass.Published? ==> picked' == picked && rows == old(rows)
      ensures pass.Empty? ==> log == old(log)
      ensures pass.Broken? ==> exists i: nat :: Oldest(rows, i) && log == old(log) + Leaked(rows[i], fault)
      ensures Happens(start, service, outside, history', rows, Outside())
    {
      UnpublishedZero(rows);
      var next := SelectNext();
      if next.None? {
        return Empty, picked, history;
      }
      ghost var before, between := rows, Outside();
      DrainOne(start, log0, rows, log, picked, next.value);
      MarkFacts(rows, next.value);
      var ok, more := PublishOne(next.value, fault);
      HappensConcat(start, service, outside, history, before, between, more, rows, Outside());
      pass := if ok then Published else Broken;
      picked', history' := if ok then picked + [next.value] else picked, history + more;
    }

    /**
     _poll_and_publish, with `faults(k)` befalling its k-th pass. `picked` lists the rows published by this
     call, and `sent` is the log with their envelopes appended. On a fault the exception leaves the loop:
     the rows before it stay published, and the failing row stays pending and may be in the log already.
     */
    method PollAndPublish(faults: nat -> Fault)
      returns (published: nat, raised: bool, ghost picked: seq<nat>, ghost sent: seq<Envelope>, ghost history: seq<OutboxEvent>)
      modifies this
      ensures Drained(old(rows), old(log), rows, sent, picked) && published == |picked|
      ensures AllHealthy(faults, published)
      ensures raised <==> faults(published) != Healthy && Unpublished(rows) > 0
      ensures !raised ==> Unpublished(rows) == 0 && log == sent
      ensures raised ==> exists i: nat :: Oldest(rows, i) && log == sent + Leaked(rows[i], faults(published))
      ensures Happens(old(rows), service, old(Outside()), history, rows, Outside())
    {
      published, raised, picked, sent, history := 0, false, [], log, [];
      ghost var start, log0, outside := rows, log, Outside();
      DrainNothing(rows, log);
      while true
        invariant Drained(start, log0, rows, log, picked) && published == |picked|
        invariant sent == log
        invariant AllHealthy(faults, published)
        invariant Happens(start, service, outside, history, rows, Outside())
        decreases Unpublished(rows)
      {
        var pass;
        pass, picked, history := PublishNext(start, log0, outside, picked, history, faults(published));
        if pass.Empty? {
          break;
        }
        if pass.Broken? {
          raised := true;
          return;
        }
        sent := log;
        HealthyNext(faults, published);
        published := published + 1;
      }
    }
  }
}
