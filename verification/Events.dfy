/**
 Identifiers, event envelopes and outbox rows shared by the three services.

 An event id is fresh by construction: it names the service that wrote the event and the position
 of the row in that service's outbox, so two rows never share an id and a retried send repeats it.
 */
module Events {
  datatype Option<+T> = None | Some(value: T)

  datatype OrderId = OrderId(uuid: nat)

  datatype ItemId = ItemId(uuid: nat)

  datatype UserId = UserId(uuid: nat)

  /** One line of an order; quantities are signed because the request model does not validate them. */
  datatype Item = Item(id: ItemId, quantity: int)

  datatype Service = Orders | Restaurant | Payments

  datatype EventId = EventId(source: Service, serial: nat)

  datatype Topic =
    | OrderPlaced
    | StockReserved
    | StockRejected
    | StockRelease
    | PaymentSucceeded
    | PaymentFailed

  /** Why a stock update cannot go through; OutOfRange is the database refusing the value. */
  datatype StockError =
    | NotFound(item: ItemId)
    | Insufficient(item: ItemId, requested: int, available: int)
    | OutOfRange(item: ItemId)

  /** The payload beside the order id, which every event carries. */
  datatype Body =
    | OrderBody(user: UserId, items: seq<Item>, amount: int, simulate: Option<string>)
    | RejectBody(reason: StockError)
    | EmptyBody

  datatype Envelope = Envelope(id: EventId, topic: Topic, order: OrderId, body: Body)

  /** A row of an outbox table; `published` stands for published_at being set. */
  datatype Row = Row(env: Envelope, createdAt: int, published: bool)

  /** How an attempt at a transaction ended; only Committed changes the database. */
  datatype Outcome =
    | Committed
    | Skipped
    | Swallowed
    | Raised(error: Error)

  datatype Error =
    | MissingField
    | OrderNotFound
    | InvalidTransition
    | StockFault(cause: StockError)
    | DuplicateEvent
    | DuplicateKey
    | ValueTooLong

  datatype Attempt<+D> = Attempt(db: D, outcome: Outcome)

  /** A VARCHAR column of this width can hold the value. */
  predicate Fits(value: Option<string>, width: nat) {
    value.Some? ==> |value.value| <= width
  }

  /** Appends a pending row; its event id is frozen here. */
  function Emit(rows: seq<Row>, service: Service, topic: Topic, order: OrderId, body: Body, now: int): seq<Row> {
    rows + [Row(Envelope(EventId(service, |rows|), topic, order, body), now, false)]
  }

  function MarkPublished(rows: seq<Row>, i: nat): seq<Row>
    requires i < |rows|
  {
    rows[i := rows[i].(published := true)]
  }

  /** Every row's event id names its own position. */
  ghost predicate Numbered(rows: seq<Row>, service: Service) {
    forall i :: 0 <= i < |rows| ==> rows[i].env.id == EventId(service, i)
  }

  /** The envelope is the one stored in the row its id names. */
  predicate Stored(rows: seq<Row>, e: Envelope) {
    e.id.serial < |rows| && rows[e.id.serial].env == e
  }

  /** The envelopes written about one order, oldest first. */
  function About(rows: seq<Row>, order: OrderId): seq<Envelope> {
    if rows == [] then []
    else
      var last := rows[|rows| - 1].env;
      About(rows[..|rows| - 1], order) + (if last.order == order then [last] else [])
  }

  function CountTopic(envs: seq<Envelope>, topic: Topic): nat {
    if envs == [] then 0
    else CountTopic(envs[..|envs| - 1], topic) + (if envs[|envs| - 1].topic == topic then 1 else 0)
  }

  function Unpublished(rows: seq<Row>): nat {
    if rows == [] then 0
    else Unpublished(rows[..|rows| - 1]) + (if rows[|rows| - 1].published then 0 else 1)
  }

  lemma EmitFacts(rows: seq<Row>, service: Service, topic: Topic, order: OrderId, body: Body, now: int)
    ensures var rows' := Emit(rows, service, topic, order, body, now);
      && (forall o :: About(rows', o) ==
            About(rows, o) + (if o == order then [Envelope(EventId(service, |rows|), topic, order, body)] else []))
      && Unpublished(rows') == Unpublished(rows) + 1
      && (Numbered(rows, service) ==> Numbered(rows', service))
  {
    var rows' := Emit(rows, service, topic, order, body, now);
    assert rows'[..|rows'| - 1] == rows;
  }

  lemma {:induction false} MarkFacts(rows: seq<Row>, i: nat)
    requires i < |rows|
    ensures forall o :: About(MarkPublished(rows, i), o) == About(rows, o)
    ensures Unpublished(MarkPublished(rows, i)) == Unpublished(rows) - (if rows[i].published then 0 else 1)
  {
    var n := |rows| - 1;
    var rows' := MarkPublished(rows, i);
    if i < n {
      MarkFacts(rows[..n], i);
      assert rows'[..n] == MarkPublished(rows[..n], i);
    } else {
      assert rows'[..n] == rows[..n];
    }
  }

  /** About collects exactly the stored envelopes of the order. */
  lemma {:induction false} AboutMembers(rows: seq<Row>, service: Service, order: OrderId)
    requires Numbered(rows, service)
    ensures forall e :: e in About(rows, order) <==> e.order == order && Stored(rows, e) && e.id.source == service
  {
    if rows != [] {
      var n := |rows| - 1;
      AboutMembers(rows[..n], service, order);
      forall e
        ensures e in About(rows, order) <==> e.order == order && Stored(rows, e) && e.id.source == service
      {
        if Stored(rows, e) && e.id.serial < n {
          assert Stored(rows[..n], e);
        }
        if Stored(rows[..n], e) {
          assert Stored(rows, e);
        }
      }
    }
  }

  /** Some row is still pending exactly when the count is positive. */
  lemma {:induction false} UnpublishedZero(rows: seq<Row>)
    ensures Unpublished(rows) == 0 <==> forall i :: 0 <= i < |rows| ==> rows[i].published
  {
    if rows != [] {
      var n := |rows| - 1;
      UnpublishedZero(rows[..n]);
      assert forall i :: 0 <= i < n ==> rows[..n][i] == rows[i];
    }
  }
}
