/**
 The restaurant service: stock, reservations, outbox and ledger of processed events.

 Transact is one committed-or-aborted database transaction as a function; the class runs the same
 transaction statement by statement, with the savepoint and the rollbacks written out.
 */
module RestaurantService {
  import opened Events
  import opened Stock
  import opened Consumers

  datatype RestaurantDb = RestaurantDb(
    stock: map<ItemId, int>,
    reservations: map<OrderId, seq<Item>>,
    outbox: seq<Row>,
    processed: set<EventId>
  )

  /** What reserve_stock did: its tables if it finished, otherwise why it stopped. */
  datatype Reservation =
    | Reserved(stock: map<ItemId, int>, reservations: map<OrderId, seq<Item>>)
    | Short(reason: StockError)
    | Duplicate
    | Fault(cause: StockError)

  function Reserve(stock: map<ItemId, int>, reservations: map<OrderId, seq<Item>>, order: OrderId, items: seq<Item>): Reservation {
    var left := Deduct(stock, items);
    match left.error
    case Some(OutOfRange(id)) => Fault(OutOfRange(id))
    case Some(reason) => Short(reason)
    case None =>
      // UNIQUE (order_id)
      if order in reservations then Duplicate
      else Reserved(left.stock, reservations[order := items])
  }

  /** The reservation row of an order, as the plain SELECT in release_stock sees it. */
  function ReservationOf(db: RestaurantDb, order: OrderId): Option<seq<Item>> {
    if order in db.reservations then Some(db.reservations[order]) else None
  }

  /** The ledger insert that ends every transaction; its primary key refuses an event already there. */
  function Commit(before: RestaurantDb, after: RestaurantDb, e: Envelope): Attempt<RestaurantDb> {
    if e.id in before.processed then Attempt(before, Raised(DuplicateEvent))
    else Attempt(after.(processed := after.processed + {e.id}), Committed)
  }

  function PlaceOrder(db: RestaurantDb, e: Envelope, now: int): Attempt<RestaurantDb> {
    if !e.body.OrderBody? then Attempt(db, Raised(MissingField))
    else
      match Reserve(db.stock, db.reservations, e.order, e.body.items)
      case Reserved(stock, reservations) =>
        Commit(db, db.(stock := stock, reservations := reservations,
                       outbox := Emit(db.outbox, Restaurant, StockReserved, e.order, e.body, now)), e)
      case Short(reason) =>
        Commit(db, db.(outbox := Emit(db.outbox, Restaurant, StockRejected, e.order, RejectBody(reason), now)), e)
      case Duplicate => Attempt(db, Swallowed)
      case Fault(cause) => Attempt(db, Raised(StockFault(cause)))
  }

  /** Compensation, given the reservation row that was read (without a lock) earlier in the transaction. */
  function ReleaseOrder(db: RestaurantDb, e: Envelope, row: Option<seq<Item>>): Attempt<RestaurantDb> {
    match row
    case None => Commit(db, db, e)
    case Some(items) =>
      var back := Restore(db.stock, items);
      if back.error.Some? then Attempt(db, Raised(StockFault(back.error.value)))
      else Commit(db, db.(stock := back.stock, reservations := db.reservations - {e.order}), e)
  }

  /** The body of the transaction, whether or not the ledger was consulted first. */
  function Transact(db: RestaurantDb, e: Envelope, now: int): Attempt<RestaurantDb> {
    match e.topic
    case OrderPlaced => PlaceOrder(db, e, now)
    case StockRelease => ReleaseOrder(db, e, ReservationOf(db, e.order))
    case _ => Attempt(db, Skipped)
  }

  function Handle(db: RestaurantDb, e: Envelope, now: int): Attempt<RestaurantDb> {
    if e.id in db.processed then Attempt(db, Skipped) else Transact(db, e, now)
  }

  function Deliver(db: RestaurantDb, d: Delivery): RestaurantDb {
    Handle(db, d.e, d.now).db
  }

  /** The first line that cannot be served is refused for this reason. */
  ghost predicate StopsFor(stock: map<ItemId, int>, items: seq<Item>, reason: StockError) {
    exists k :: StopsAt(stock, items, reason, k)
  }

  /** The loop's verdict, read off the lines: why it stopped, or what it took. */
  lemma ReservedExactly(stock: map<ItemId, int>, items: seq<Item>)
    requires WellStocked(stock)
    ensures var left := Deduct(stock, items);
      && (left.error.None? <==> ServesPrefixes(stock, items))
      && (forall reason :: left.error == Some(reason) <==> StopsFor(stock, items, reason))
      && (left.error.None? ==>
            left.stock == map id | id in stock :: stock[id] - Demand(items, id))
      && (NonNegative(items) ==>
            && (left.error.None? <==> CanServe(stock, items))
            && (left.error.Some? ==> !left.error.value.OutOfRange?))
  {
    var left := Deduct(stock, items);
    DeductPrefixes(stock, items);
    if left.error.None? {
      DeductEffect(stock, items);
    } else {
      var k := DeductStops(stock, items);
      forall reason | StopsFor(stock, items, reason) ensures left.error == Some(reason) {
        var j :| StopsAt(stock, items, reason, j);
        StopsOnce(stock, items, reason, j, left.error.value, k);
      }
    }
    if NonNegative(items) {
      DeductDecision(stock, items);
    }
  }

  /**
   All-or-nothing, stated without the loop: what a first order.placed does, for any list. The one event it
   writes is stamped with the time of the transaction. Only a value the database cannot take makes it raise.
   */
  lemma AllOrNothing(db: RestaurantDb, e: Envelope, now: int)
    requires WellStocked(db.stock)
    requires e.topic == OrderPlaced && e.body.OrderBody? && e.id !in db.processed
    ensures var r := Handle(db, e, now);
      var items := e.body.items;
      && (r.outcome == Committed <==>
            || (ServesPrefixes(db.stock, items) && e.order !in db.reservations)
            || exists reason: StockError :: !reason.OutOfRange? && StopsFor(db.stock, items, reason))
      && (r.outcome == Swallowed <==> ServesPrefixes(db.stock, items) && e.order in db.reservations)
      && (r.outcome.Raised? <==> exists reason: StockError :: reason.OutOfRange? && StopsFor(db.stock, items, reason))
      && (forall reason :: r.outcome == Raised(StockFault(reason)) ==> StopsFor(db.stock, items, reason))
      && (r.outcome != Committed ==> r.db == db)
      && (r.outcome == Committed ==>
            if ServesPrefixes(db.stock, items) then
              r.db == RestaurantDb(map id | id in db.stock :: db.stock[id] - Demand(items, id),
                                   db.reservations[e.order := items],
                                   db.outbox + [VerdictRow(db.outbox, StockReserved, e.order, e.body, now)],
                                   db.processed + {e.id})
            else
              exists reason: StockError ::
                && !reason.OutOfRange? && StopsFor(db.stock, items, reason)
                && r.db == RestaurantDb(db.stock, db.reservations,
                                        db.outbox + [VerdictRow(db.outbox, StockRejected, e.order, RejectBody(reason), now)],
                                        db.processed + {e.id}))
      && (NonNegative(items) ==>
            && !r.outcome.Raised?
            && (ServesPrefixes(db.stock, items) <==> CanServe(db.stock, items)))
  {
    ReservedExactly(db.stock, e.body.items);
  }

  function VerdictRow(rows: seq<Row>, topic: Topic, order: OrderId, body: Body, now: int): Row {
    Row(Envelope(EventId(Restaurant, |rows|), topic, order, body), now, false)
  }

  /** Everything else a message can meet: a known event, an unknown topic, a payload without the fields. */
  lemma NotEvenTried(db: RestaurantDb, e: Envelope, now: int)
    ensures var r := Handle(db, e, now);
      && (r.outcome == Skipped <==> e.id in db.processed || e.topic !in {OrderPlaced, StockRelease})
      && (r.outcome == Raised(MissingField) <==> e.id !in db.processed && e.topic == OrderPlaced && !e.body.OrderBody?)
      && (r.outcome != Committed ==> r.db == db)
  {
  }

  /** Stock on hand plus stock set aside is the seeded quantity, item by item. */
  ghost predicate Conserved(seed: map<ItemId, int>, db: RestaurantDb) {
    && db.stock.Keys == seed.Keys
    && WellStocked(db.stock)
    && (forall o :: o in db.reservations ==> AllStocked(db.stock, db.reservations[o]))
    && forall id :: id in seed ==> db.stock[id] + Held(db.reservations, id) == seed[id]
  }

  lemma PlaceOrderConserves(seed: map<ItemId, int>, db: RestaurantDb, e: Envelope, now: int)
    requires Conserved(seed, db)
    ensures Conserved(seed, PlaceOrder(db, e, now).db)
  {
    var db' := PlaceOrder(db, e, now).db;
    if db'.reservations != db.reservations {
      DeductEffect(db.stock, e.body.items);
      forall id | id in seed ensures db'.stock[id] + Held(db'.reservations, id) == seed[id] {
        HeldAdd(db.reservations, e.order, e.body.items, id);
      }
    }
  }

  lemma ReleaseOrderConserves(seed: map<ItemId, int>, db: RestaurantDb, e: Envelope)
    requires Conserved(seed, db)
    ensures Conserved(seed, ReleaseOrder(db, e, ReservationOf(db, e.order)).db)
  {
    var db' := ReleaseOrder(db, e, ReservationOf(db, e.order)).db;
    if e.order in db.reservations && db' != db {
      RestoreEffect(db.stock, db.reservations[e.order]);
      forall id | id in seed ensures db'.stock[id] + Held(db'.reservations, id) == seed[id] {
        HeldRemove(db.reservations, e.order, id);
      }
    }
  }

  /** Every transaction conserves stock, signed quantities and malformed events included. */
  lemma TransactConserves(seed: map<ItemId, int>, db: RestaurantDb, e: Envelope, now: int)
    requires Conserved(seed, db)
    ensures Conserved(seed, Transact(db, e, now).db)
    ensures Conserved(seed, Handle(db, e, now).db)
  {
    PlaceOrderConserves(seed, db, e, now);
    ReleaseOrderConserves(seed, db, e);
  }

  /** A first order.placed with quantities >= 0 always commits, one way or the other. */
  lemma PlaceCommits(db: RestaurantDb, e: Envelope, now: int)
    requires WellStocked(db.stock) && e.body.OrderBody? && NonNegative(e.body.items)
    requires e.order !in db.reservations && e.id !in db.processed
    ensures PlaceOrder(db, e, now).outcome == Committed
  {
    DeductDecision(db.stock, e.body.items);
  }

  /**
   A release commits exactly when it is new and its lines can be given back one by one; without a
   reservation there are none. Then the reservation is gone, its quantities are back and no event is written.
   */
  lemma ReleaseCommitsExactly(db: RestaurantDb, e: Envelope, now: int)
    requires e.topic == StockRelease
    ensures var r := Handle(db, e, now);
      var items := if e.order in db.reservations then db.reservations[e.order] else [];
      && (r.outcome == Committed <==> e.id !in db.processed && ReturnsPrefixes(db.stock, items))
      && (r.outcome == Committed ==>
            r.db == RestaurantDb(map id | id in db.stock :: db.stock[id] + Demand(items, id),
                                 db.reservations - {e.order}, db.outbox, db.processed + {e.id}))
      && (r.outcome != Committed ==> r.db == db)
      && (r.outcome.Raised? <==> e.id !in db.processed && !ReturnsPrefixes(db.stock, items))
  {
    var items := if e.order in db.reservations then db.reservations[e.order] else [];
    RestorePrefixes(db.stock, items);
    if Restore(db.stock, items).error.None? {
      RestoreEffect(db.stock, items);
    }
  }

  /** Giving back a reservation with quantities >= 0 always commits: what returns fitted once already. */
  lemma ReleaseCommits(seed: map<ItemId, int>, db: RestaurantDb, e: Envelope)
    requires WellStocked(seed) && Conserved(seed, db)
    requires forall o :: o in db.reservations ==> NonNegative(db.reservations[o])
    requires e.order in db.reservations && e.id !in db.processed
    ensures ReleaseOrder(db, e, ReservationOf(db, e.order)).outcome == Committed
  {
    var items := db.reservations[e.order];
    forall id | id in db.stock ensures db.stock[id] + Demand(items, id) <= INT_MAX {
      HeldCovers(db.reservations, e.order, id);
    }
    RestoreCompletes(db.stock, items);
  }

  /** Consulting the ledger first never changes what is committed: the primary key already decides it. */
  lemma LedgerCheckRedundant(db: RestaurantDb, e: Envelope, now: int)
    ensures Transact(db, e, now).db == Handle(db, e, now).db
    ensures Transact(db, e, now).outcome == Committed <==> Handle(db, e, now).outcome == Committed
  {
  }

  class RestaurantNode {
    var stock: map<ItemId, int>
    var reservations: map<OrderId, seq<Item>>
    var outbox: seq<Row>
    var processed: set<EventId>

    ghost function Db(): RestaurantDb
      reads this
    {
      RestaurantDb(stock, reservations, outbox, processed)
    }

    constructor (seed: map<ItemId, int>)
      ensures Db() == RestaurantDb(seed, map[], [], {})
    {
      stock, reservations, outbox, processed := seed, map[], [], {};
    }

    /** On an error the deductions made so far stay in the table: undoing them is the savepoint's business. */
    method ReserveStock(order: OrderId, items: seq<Item>) returns (result: Reservation)
      modifies this`stock, this`reservations
      ensures result == Reserve(old(stock), old(reservations), order, items)
      ensures stock == Deduct(old(stock), items).stock
      ensures reservations == if result.Reserved? then result.reservations else old(reservations)
    {
      for k := 0 to |items|
        invariant reservations == old(reservations)
        invariant Deduct(old(stock), items) == Deduct(stock, items[k..])
      {
        var Item(id, quantity) := items[k];
        assert items[k..][0] == items[k] && items[k..][1..] == items[k + 1..];
        if id !in stock {
          return Short(NotFound(id));
        }
        if stock[id] < quantity {
          return Short(Insufficient(id, quantity, stock[id]));
        }
        if !Bindable(quantity) || !Storable(stock[id] - quantity) {
          return Fault(OutOfRange(id));
        }
        stock := stock[id := stock[id] - quantity];
      }
      assert items[|items|..] == [];
      if order in reservations {
        return Duplicate;
      }
      reservations := reservations[order := items];
      result := Reserved(stock, reservations);
    }

    method ReleaseStock(order: OrderId) returns (error: Option<StockError>)
      modifies this`stock, this`reservations
      ensures order in old(reservations) ==>
                && error == Restore(old(stock), old(reservations)[order]).error
                && stock == Restore(old(stock), old(reservations)[order]).stock
                && reservations == if error.None? then old(reservations) - {order} else old(reservations)
      ensures order !in old(reservations) ==> error == None && stock == old(stock) && reservations == old(reservations)
    {
      if order !in reservations {
        return None;
      }
      var items := reservations[order];
      for k := 0 to |items|
        invariant reservations == old(reservations)
        invariant Restore(old(stock), items) == Restore(stock, items[k..])
      {
        var Item(id, quantity) := items[k];
        assert items[k..][0] == items[k] && items[k..][1..] == items[k + 1..];
        if !Bindable(quantity) {
          return Some(OutOfRange(id));
        }
        if id in stock {
          if !Storable(stock[id] + quantity) {
            return Some(OutOfRange(id));
          }
          stock := stock[id := stock[id] + quantity];
        }
      }
      assert items[|items|..] == [];
      reservations := reservations - {order};
      error := None;
    }

    /** Puts every table back to where the transaction began. */
    method Rollback(before: RestaurantDb)
      modifies this
      ensures Db() == before
    {
      stock, reservations, outbox, processed := before.stock, before.reservations, before.outbox, before.processed;
    }

    method HandleMessage(e: Envelope, now: int) returns (outcome: Outcome)
      modifies this
      ensures Attempt(Db(), outcome) == Handle(old(Db()), e, now)
    {
      var begin := RestaurantDb(stock, reservations, outbox, processed);
      if e.id in processed {
        return Skipped;
      }
      if e.topic == OrderPlaced {
        if !e.body.OrderBody? {
          return Raised(MissingField);
        }
        var savepoint := (stock, reservations);
        var result := ReserveStock(e.order, e.body.items);
        match result {
          case Reserved(_, _) =>
            outbox := Emit(outbox, Restaurant, StockReserved, e.order, e.body, now);
          case Short(reason) =>
            stock, reservations := savepoint.0, savepoint.1;
            outbox := Emit(outbox, Restaurant, StockRejected, e.order, RejectBody(reason), now);
          case Duplicate =>
            Rollback(begin);
            return Swallowed;
          case Fault(cause) =>
            Rollback(begin);
            return Raised(StockFault(cause));
        }
      } else if e.topic == StockRelease {
        var error := ReleaseStock(e.order);
        if error.Some? {
          Rollback(begin);
          return Raised(StockFault(error.value));
        }
      } else {
        return Skipped;
      }
      processed := processed + {e.id};
      outcome := Committed;
    }

    /** One attempt at the next message of a partition; an exception leaves nothing behind. */
    method AttemptNext(logs: seq<seq<Envelope>>, position: seq<nat>, t: Try)
      requires Within(logs, position)
      modifies this
      ensures Db() == Tried(Deliver, old(Db()), logs, position, t)
    {
      if HasNext(logs, position, t.part) && t.result != Undone {
        var _ := HandleMessage(logs[t.part][position[t.part]], t.now);
      }
    }

    /** One turn of the polling loop: exceptions are passed over, and only a process that survives commits the offsets. */
    method Poll(logs: seq<seq<Envelope>>, position: seq<nat>, r: Round) returns (offsets: seq<nat>)
      requires Within(logs, position)
      modifies this
      ensures Db() == Fold(Deliver, old(Db()), Deliveries(logs, position, r.tries))
      ensures offsets == Next(logs, position, r)
    {
      var next := position;
      for k := 0 to |r.tries|
        invariant next == Advance(logs, position, r.tries[..k])
        invariant Db() == Fold(Deliver, old(Db()), Deliveries(logs, position, r.tries[..k]))
      {
        DeliverNext(Deliver, old(Db()), logs, position, r.tries, k);
        var t := r.tries[k];
        AttemptNext(logs, next, t);
        if HasNext(logs, next, t.part) {
          next := next[t.part := next[t.part] + 1];
        }
      }
      assert r.tries[..|r.tries|] == r.tries;
      offsets := if r.survives then next else position;
    }

    /** run_consumer over all the partitions it is assigned. */
    method RunConsumer(logs: seq<seq<Envelope>>, committed: seq<nat>, rounds: seq<Round>) returns (offsets: seq<nat>)
      requires Within(logs, committed)
      modifies this
      ensures Db() == Fold(Deliver, old(Db()), Schedule(logs, committed, rounds))
      ensures offsets == Offsets(logs, committed, rounds)
    {
      offsets := committed;
      for i := 0 to |rounds|
        invariant Within(logs, offsets) && offsets == Offsets(logs, committed, rounds[..i])
        invariant Db() == Fold(Deliver, old(Db()), Schedule(logs, committed, rounds[..i]))
      {
        RoundNext(Deliver, old(Db()), logs, committed, rounds, i);
        offsets := Poll(logs, offsets, rounds[i]);
      }
      assert rounds[..|rounds|] == rounds;
    }
  }
}
