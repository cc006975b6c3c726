/**
 The order service: creating orders with their first event, the status state machine, and the
 consumer that ends the saga and starts the compensation.
 */
module OrderService {
  import opened Events
  import opened Gateway
  import opened Consumers

  datatype Status = Pending | Confirmed | PaymentFailure | StockUnavailable

  /** ALLOWED_TRANSITIONS: a status that is not listed has no successor. */
  const ALLOWED_TRANSITIONS: map<Status, set<Status>> :=
    map[Pending := {Confirmed, PaymentFailure, StockUnavailable}]

  datatype Order = Order(
    user: UserId,
    items: seq<Item>,
    amount: int,
    status: Status,
    simulate: Option<string>,
    key: Option<string>
  )

  datatype OrderDb = OrderDb(
    orders: map<OrderId, Order>,
    outbox: seq<Row>,
    processed: set<EventId>
  )

  datatype Request = Request(user: UserId, items: seq<Item>, amount: int, simulate: Option<string>, key: Option<string>)

  /** Widths of orders.payment_simulate and orders.idempotency_key. */
  const SIMULATE_WIDTH := 20
  const KEY_WIDTH := 255

  function Allowed(current: Status): set<Status> {
    if current in ALLOWED_TRANSITIONS then ALLOWED_TRANSITIONS[current] else {}
  }

  /** transition_order: the error to raise, or None when the move is allowed. */
  function TransitionError(orders: map<OrderId, Order>, order: OrderId, target: Status): Option<Error> {
    if order !in orders then Some(OrderNotFound)
    else if target !in Allowed(orders[order].status) then Some(InvalidTransition)
    else None
  }

  /** The status an event asks for; None for a topic this service does not know. */
  function TargetOf(topic: Topic): Option<Status> {
    match topic
    case PaymentSucceeded => Some(Confirmed)
    case PaymentFailed => Some(PaymentFailure)
    case StockRejected => Some(StockUnavailable)
    case _ => None
  }

  /** The body of the transaction; the ledger's primary key has the last word. */
  function Transact(db: OrderDb, e: Envelope, now: int): Attempt<OrderDb> {
    match TargetOf(e.topic)
    case None => Attempt(db, Skipped)
    case Some(target) =>
      var error := TransitionError(db.orders, e.order, target);
      if error.Some? then Attempt(db, Raised(error.value))
      else if e.id in db.processed then Attempt(db, Raised(DuplicateEvent))
      else
        var outbox := if target == PaymentFailure then Emit(db.outbox, Orders, StockRelease, e.order, EmptyBody, now) else db.outbox;
        Attempt(OrderDb(db.orders[e.order := db.orders[e.order].(status := target)], outbox, db.processed + {e.id}), Committed)
  }

  function Handle(db: OrderDb, e: Envelope, now: int): Attempt<OrderDb> {
    if e.id in db.processed then Attempt(db, Skipped) else Transact(db, e, now)
  }

  function Deliver(db: OrderDb, d: Delivery): OrderDb {
    Handle(db, d.e, d.now).db
  }

  lemma LedgerCheckRedundant(db: OrderDb, e: Envelope, now: int)
    ensures Transact(db, e, now).db == Handle(db, e, now).db
    ensures Transact(db, e, now).outcome == Committed <==> Handle(db, e, now).outcome == Committed
  {
  }

  /** idempotency_key is UNIQUE; NULLs never clash, and the empty string is a value like any other. */
  ghost predicate KeyTaken(orders: map<OrderId, Order>, key: Option<string>) {
    key.Some? && exists o :: o in orders && orders[o].key == key
  }

  ghost predicate KeysUnique(orders: map<OrderId, Order>) {
    forall o, o' :: o in orders && o' in orders && orders[o].key == orders[o'].key && orders[o].key.Some? ==> o == o'
  }

  /** The lookup before the insert: skipped for a missing or empty key, and limited to the caller's own orders. */
  ghost predicate Matches(db: OrderDb, req: Request, o: OrderId) {
    && req.key.Some? && req.key.value != ""
    && o in db.orders && db.orders[o].key == req.key && db.orders[o].user == req.user
  }

  predicate Accepts(req: Request) {
    Fits(req.simulate, SIMULATE_WIDTH) && Fits(req.key, KEY_WIDTH)
  }

  /** The inserting transaction: the order row and its order.placed event, or neither. */
  ghost function Insert(db: OrderDb, id: OrderId, req: Request, now: int): Attempt<OrderDb> {
    if !Accepts(req) then Attempt(db, Raised(ValueTooLong))
    else if id in db.orders || KeyTaken(db.orders, req.key) then Attempt(db, Raised(DuplicateKey))
    else
      var row := Order(req.user, req.items, req.amount, Pending, req.simulate, req.key);
      var body := OrderBody(req.user, req.items, req.amount, Carried(req.simulate));
      Attempt(db.(orders := db.orders[id := row],
                  outbox := Emit(db.outbox, Orders, OrderPlaced, id, body, now)), Committed)
  }

  /** A transaction of the order service: a request's insert or a consumer's event. */
  datatype Change =
    | Inserted(id: OrderId, req: Request, now: int)
    | Handled(e: Envelope, now: int)

  ghost function AfterChange(db: OrderDb, c: Change): OrderDb {
    match c
    case Inserted(id, req, now) => Insert(db, id, req, now).db
    case Handled(e, now) => Handle(db, e, now).db
  }

  ghost function Changed(db: OrderDb, changes: seq<Change>): OrderDb {
    if changes == [] then db else AfterChange(Changed(db, changes[..|changes| - 1]), changes[|changes| - 1])
  }

  datatype Reply =
    | Accepted(id: OrderId)
    | Existing(id: OrderId, status: Status)
    | Rejected(error: Error)

  /** What create_order answers, and the database it leaves, when `between` happens between its two transactions. */
  ghost predicate Answers(db: OrderDb, id: OrderId, req: Request, between: seq<Change>, now: int, reply: Reply, db': OrderDb) {
    if reply.Existing? then
      Matches(db, req, reply.id) && reply.status == db.orders[reply.id].status && db' == db
    else
      var mine := Insert(Changed(db, between), id, req, now);
      && (forall o :: !Matches(db, req, o))
      && db' == mine.db
      && reply == if mine.outcome.Raised? then Rejected(mine.outcome.error) else Accepted(id)
  }

  /**
   The state machine. An event commits exactly when it is new, of a known topic and its order is pending;
   the error of any other new event tells a missing order from a settled one. A commit gives the order the
   status its topic asks for, once and for all, and payment.failed asks for compensation.
   */
  lemma TransitionsFromPendingOnly(db: OrderDb, e: Envelope, now: int)
    ensures var r := Handle(db, e, now);
      var isNew := e.id !in db.processed && e.topic in {PaymentSucceeded, PaymentFailed, StockRejected};
      && (r.outcome == Committed <==> isNew && e.order in db.orders && db.orders[e.order].status == Pending)
      && (r.outcome == Raised(OrderNotFound) <==> isNew && e.order !in db.orders)
      && (r.outcome == Raised(InvalidTransition) <==> isNew && e.order in db.orders && db.orders[e.order].status != Pending)
      && (r.outcome == Skipped <==> !isNew)
      && (r.outcome != Committed ==> r.db == db)
      && (r.outcome == Committed ==>
            var release := Row(Envelope(EventId(Orders, |db.outbox|), StockRelease, e.order, EmptyBody), now, false);
            r.db == OrderDb(
              db.orders[e.order := db.orders[e.order].(status := match e.topic
                                                                 case PaymentSucceeded => Confirmed
                                                                 case PaymentFailed => PaymentFailure
                                                                 case _ => StockUnavailable)],
              if e.topic == PaymentFailed then db.outbox + [release] else db.outbox,
              db.processed + {e.id}))
  {
    assert Allowed(Pending) == {Confirmed, PaymentFailure, StockUnavailable};
  }

  class OrderNode {
    var orders: map<OrderId, Order>
    var outbox: seq<Row>
    var processed: set<EventId>

    ghost function Db(): OrderDb
      reads this
    {
      OrderDb(orders, outbox, processed)
    }

    constructor ()
      ensures Db() == OrderDb(map[], [], {})
    {
      orders, outbox, processed := map[], [], {};
    }

    method TransitionOrder(order: OrderId, target: Status) returns (error: Option<Error>)
      modifies this`orders
      ensures error == TransitionError(old(orders), order, target)
      ensures error == Some(OrderNotFound) <==> order !in old(orders)
      ensures error == Some(InvalidTransition) <==> order in old(orders) && (old(orders)[order].status != Pending || target == Pending)
      ensures orders == if error.None? then old(orders)[order := old(orders)[order].(status := target)] else old(orders)
    {
      if order !in orders {
        return Some(OrderNotFound);
      }
      var current := orders[order].status;
      if target !in Allowed(current) {
        return Some(InvalidTransition);
      }
      orders := orders[order := orders[order].(status := target)];
      error := None;
    }

    method HandleMessage(e: Envelope, now: int) returns (outcome: Outcome)
      modifies this
      ensures Attempt(Db(), outcome) == Handle(old(Db()), e, now)
    {
      if e.id in processed {
        return Skipped;
      }
      var error: Option<Error>;
      if e.topic == PaymentSucceeded {
        error := TransitionOrder(e.order, Confirmed);
      } else if e.topic == PaymentFailed {
        error := TransitionOrder(e.order, PaymentFailure);
        if error.None? {
          outbox := Emit(outbox, Orders, StockRelease, e.order, EmptyBody, now);
        }
      } else if e.topic == StockRejected {
        error := TransitionOrder(e.order, StockUnavailable);
      } else {
        return Skipped;
      }
      if error.Some? {
        return Raised(error.value);
      }
      processed := processed + {e.id};
      outcome := Committed;
    }

    /** One attempt at the next message of a partition; an exception leaves nothing behind. */
    method AttemptNext(logs: seq<seq<Envelope>>, position: seq<nat>, t: Try)
      requires Within(logs, position)
      modifies this
      ensures Db() == Tried(Deliver, old(Db()), logs, position, t)
    {
      if HasNext(logs, position, t.part) && t.result != Undone {
        var _ := HandleMessage(logs[t.part][position[t.part]], t.now);
      }
    }

    /** One turn of the polling loop: exceptions are passed over, and only a process that survives commits the offsets. */
    method Poll(logs: seq<seq<Envelope>>, position: seq<nat>, r: Round) returns (offsets: seq<nat>)
      requires Within(logs, position)
      modifies this
      ensures Db() == Fold(Deliver, old(Db()), Deliveries(logs, position, r.tries))
      ensures offsets == Next(logs, position, r)
    {
      var next := position;
      for k := 0 to |r.tries|
        invariant next == Advance(logs, position, r.tries[..k])
        invariant Db() == Fold(Deliver, old(Db()), Deliveries(logs, position, r.tries[..k]))
      {
        DeliverNext(Deliver, old(Db()), logs, position, r.tries, k);
        var t := r.tries[k];
        AttemptNext(logs, next, t);
        if HasNext(logs, next, t.part) {
          next := next[t.part := next[t.part] + 1];
        }
      }
      assert r.tries[..|r.tries|] == r.tries;
      offsets := if r.survives then next else position;
    }

    /** run_consumer over all the partitions it is assigned. */
    method RunConsumer(logs: seq<seq<Envelope>>, committed: seq<nat>, rounds: seq<Round>) returns (offsets: seq<nat>)
      requires Within(logs, committed)
      modifies this
      ensures Db() == Fold(Deliver, old(Db()), Schedule(logs, committed, rounds))
      ensures offsets == Offsets(logs, committed, rounds)
    {
      offsets := committed;
      for i := 0 to |rounds|
        invariant Within(logs, offsets) && offsets == Offsets(logs, committed, rounds[..i])
        invariant Db() == Fold(Deliver, old(Db()), Schedule(logs, committed, rounds[..i]))
      {
        RoundNext(Deliver, old(Db()), logs, committed, rounds, i);
        offsets := Poll(logs, offsets, rounds[i]);
      }
      assert rounds[..|rounds|] == rounds;
    }

    /** The idempotency lookup, a transaction of its own. */
    method LookUp(req: Request) returns (found: Option<OrderId>)
      ensures found.Some? ==> Matches(Db(), req, found.value)
      ensures found.None? ==> forall o :: !Matches(Db(), req, o)
    {
      if req.key.Some? && req.key.value != "" {
        if o :| o in orders && orders[o].key == req.key && orders[o].user == req.user {
          return Some(o);
        }
      }
      found := None;
    }

    method InsertOrder(id: OrderId, req: Request, now: int) returns (outcome: Outcome)
      modifies this
      ensures Attempt(Db(), outcome) == Insert(old(Db()), id, req, now)
    {
      if !Accepts(req) {
        return Raised(ValueTooLong);
      }
      if id in orders || (req.key.Some? && exists o :: o in orders && orders[o].key == req.key) {
        return Raised(DuplicateKey);
      }
      orders := orders[id := Order(req.user, req.items, req.amount, Pending, req.simulate, req.key)];
      var body := OrderBody(req.user, req.items, req.amount, Carried(req.simulate));
      outbox := Emit(outbox, Orders, OrderPlaced, id, body, now);
      outcome := Committed;
    }

    /**
     create_order, with the transactions that get in between the lookup and the insert. A key seen by the
     lookup is answered without writing; a key taken in between makes the insert fail without writing.
     */
    method CreateOrder(id: OrderId, req: Request, between: seq<Change>, now: int) returns (reply: Reply)
      modifies this
      ensures Answers(old(Db()), id, req, between, now, reply, Db())
    {
      var found := LookUp(req);
      if found.Some? {
        return Existing(found.value, orders[found.value].status);
      }
      for k := 0 to |between|
        invariant Db() == Changed(old(Db()), between[..k])
      {
        assert between[..k + 1][..k] == between[..k];
        match between[k] {
          case Inserted(x, other, at) =>
            var _ := InsertOrder(x, other, at);
          case Handled(e, at) =>
            var _ := HandleMessage(e, at);
        }
      }
      assert between[..|between|] == between;
      var outcome := InsertOrder(id, req, now);
      reply := if outcome.Raised? then Rejected(outcome.error) else Accepted(id);
    }
  }

  /**
   What an insert leaves behind: the request's own data in one new PENDING order and one order.placed
   event, or nothing. An empty directive is stored as it is but not sent on.
   */
  lemma InsertedRow(db: OrderDb, id: OrderId, req: Request, now: int)
    ensures var r := Insert(db, id, req, now);
      var fits := (req.simulate.Some? ==> |req.simulate.value| <= 20) && (req.key.Some? ==> |req.key.value| <= 255);
      var taken := id in db.orders || (req.key.Some? && exists o :: o in db.orders && db.orders[o].key == req.key);
      && (r.outcome == Committed <==> fits && !taken)
      && (r.outcome == Raised(ValueTooLong) <==> !fits)
      && (r.outcome == Raised(DuplicateKey) <==> fits && taken)
      && (r.outcome != Committed ==> r.db == db)
      && (r.outcome == Committed ==>
            var sent := if req.simulate == Some("") then None else req.simulate;
            var body := OrderBody(req.user, req.items, req.amount, sent);
            r.db == OrderDb(
              db.orders[id := Order(req.user, req.items, req.amount, Pending, req.simulate, req.key)],
              db.outbox + [Row(Envelope(EventId(Orders, |db.outbox|), OrderPlaced, id, body), now, false)],
              db.processed))
  {
    assert Carried(req.simulate) == if req.simulate == Some("") then None else req.simulate;
  }

  /** Keys stay unique whatever is inserted, and a request that loses to another one leaves no trace. */
  lemma InsertKeepsKeysUnique(db: OrderDb, id: OrderId, req: Request, now: int)
    requires KeysUnique(db.orders)
    ensures KeysUnique(Insert(db, id, req, now).db.orders)
    ensures Insert(db, id, req, now).outcome == Committed <==> Accepts(req) && id !in db.orders && !KeyTaken(db.orders, req.key)
    ensures Insert(db, id, req, now).outcome != Committed ==> Insert(db, id, req, now).db == db
  {
  }

  lemma HandleKeepsKeysUnique(db: OrderDb, e: Envelope, now: int)
    requires KeysUnique(db.orders)
    ensures KeysUnique(Handle(db, e, now).db.orders)
  {
  }

  /**
     What a repeated key gets. The lookup answers exactly when the key is not empty and the caller owns
     the order; another caller, or an empty key, meets the UNIQUE constraint and is refused.
   */
  lemma RepeatedKey(db: OrderDb, id: OrderId, req: Request, now: int, o: OrderId)
    requires KeysUnique(db.orders)
    requires o in db.orders && db.orders[o].key.Some? && db.orders[o].key == req.key
    ensures (exists x :: Matches(db, req, x)) <==> db.orders[o].user == req.user && req.key != Some("")
    ensures Insert(db, id, req, now).outcome.Raised? && Insert(db, id, req, now).db == db
  {
    if db.orders[o].user == req.user && req.key != Some("") {
      assert Matches(db, req, o);
    }
  }

  /** A row keeps everything but its status, and a settled order keeps that too. */
  lemma {:induction false} RowsStay(db: OrderDb, changes: seq<Change>, o: OrderId)
    requires o in db.orders
    ensures var db' := Changed(db, changes);
      && o in db'.orders
      && db'.orders[o] == db.orders[o].(status := db'.orders[o].status)
      && (db.orders[o].status != Pending ==> db'.orders[o] == db.orders[o])
  {
    if changes != [] {
      RowsStay(db, changes[..|changes| - 1], o);
    }
  }

  lemma {:induction false} KeysStayUnique(db: OrderDb, changes: seq<Change>)
    requires KeysUnique(db.orders)
    ensures KeysUnique(Changed(db, changes).orders)
  {
    if changes != [] {
      var n := |changes| - 1;
      var before := Changed(db, changes[..n]);
      KeysStayUnique(db, changes[..n]);
      match changes[n]
      case Inserted(id, req, now) => InsertKeepsKeysUnique(before, id, req, now);
      case Handled(e, now) => HandleKeepsKeysUnique(before, e, now);
    }
  }

  /** The refusal of a request whose key is taken. */
  function Refused(req: Request): Reply {
    Rejected(if Accepts(req) then DuplicateKey else ValueTooLong)
  }

  /**
   The law of idempotency keys. Once a request with a key has been accepted, whatever else is inserted and
   handled, a request that repeats the key is answered with that very order and writes nothing, if it comes
   from the same user and the key is not empty; otherwise it is refused and writes nothing.
   */
  lemma RepeatAnswered(db: OrderDb, id: OrderId, req: Request, between: seq<Change>, now: int, db1: OrderDb,
                       changes: seq<Change>,
                       id': OrderId, req': Request, between': seq<Change>, now': int, reply': Reply, db2: OrderDb)
    requires KeysUnique(db.orders)
    requires Answers(db, id, req, between, now, Accepted(id), db1)
    requires req.key.Some? && req'.key == req.key
    requires Answers(Changed(db1, changes), id', req', between', now', reply', db2)
    ensures var later := Changed(db1, changes);
      if req'.user == req.user && req.key.value != "" then
        id in later.orders && reply' == Existing(id, later.orders[id].status) && db2 == later
      else
        reply' == Refused(req') && db2 == Changed(later, between')
  {
    var later := Changed(db1, changes);
    KeysStayUnique(db, between);
    InsertKeepsKeysUnique(Changed(db, between), id, req, now);
    KeysStayUnique(db1, changes);
    assert db1.orders[id].key == req.key && db1.orders[id].user == req.user;
    RowsStay(db1, changes, id);
    if req'.user == req.user && req.key.value != "" {
      assert Matches(later, req', id);
    } else {
      RowsStay(later, between', id);
    }
  }

  /** A rival that takes the key after the lookup wins: the request is refused and leaves only what the others wrote. */
  lemma RivalWins(db: OrderDb, id: OrderId, req: Request, between: seq<Change>, k: nat, now: int, reply: Reply, db': OrderDb)
    requires k < |between| && between[k].Inserted? && between[k].req.key == req.key && req.key.Some?
    requires Insert(Changed(db, between[..k]), between[k].id, between[k].req, between[k].now).outcome == Committed
    requires Answers(db, id, req, between, now, reply, db')
    ensures reply == Refused(req) && db' == Changed(db, between)
  {
    var o := between[k].id;
    assert between[..k + 1][..k] == between[..k];
    assert between == between[..k + 1] + between[k + 1..];
    ChangedConcat(db, between[..k + 1], between[k + 1..]);
    RowsStay(Changed(db, between[..k + 1]), between[k + 1..], o);
    if reply.Existing? {
      RowsStay(db, between[..k], reply.id);
    }
  }

  lemma {:induction false} ChangedConcat(db: OrderDb, a: seq<Change>, b: seq<Change>)
    ensures Changed(db, a + b) == Changed(Changed(db, a), b)
  {
    if b == [] {
      assert a + b == a;
    } else {
      var n := |b| - 1;
      assert (a + b)[..|a| + n] == a + b[..n];
      ChangedConcat(db, a, b[..n]);
    }
  }

  /** Without a key nothing is looked up: each request that fits becomes an order of its own. */
  lemma NoKeyNewOrder(db: OrderDb, id: OrderId, req: Request, between: seq<Change>, now: int, reply: Reply, db': OrderDb)
    requires req.key.None? && Answers(db, id, req, between, now, reply, db')
    ensures reply == Accepted(id) <==> Accepts(req) && id !in Changed(db, between).orders
    ensures reply == Accepted(id) ==> db'.orders.Keys == Changed(db, between).orders.Keys + {id}
  {
  }
}
