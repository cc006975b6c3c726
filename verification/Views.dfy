/**
 How single effects show in the view of an order: a new outbox row, an event entered in a ledger, a
 relay action. Every transaction is a composition of these with updates of its own tables.
 */
module Views {
  import opened Events
  import opened Outbox
  import opened System
  import R = RestaurantService
  import P = PaymentService
  import O = OrderService

  ghost predicate OthersKept(s: State, s': State, o: OrderId) {
    forall x :: x != o ==> ViewOf(s', x) == ViewOf(s, x)
  }

  lemma SameElsewhere<V>(m: map<OrderId, V>, m': map<OrderId, V>, o: OrderId)
    requires forall x :: x != o ==> Lookup(m', x) == Lookup(m, x)
    ensures m' == if o in m' then m[o := m'[o]] else m - {o}
  {
    var n := if o in m' then m[o := m'[o]] else m - {o};
    forall x ensures x in m' <==> x in n
      ensures x in m' ==> m'[x] == n[x]
    {
      if x != o {
        assert Lookup(m', x) == Lookup(m, x);
      }
    }
  }

  function PendingRows(s: State): nat {
    Unpublished(s.orders.outbox) + Unpublished(s.restaurant.outbox) + Unpublished(s.payments.outbox)
  }

  /** The event is a row of the outbox its id names. */
  ghost predicate RowOf(s: State, e: Envelope) {
    e in About(OutboxOf(s, e.id.source), e.order)
  }

  /** Whatever the broker hands out is such a row. */
  lemma SentIsRow(s: State, e: Envelope)
    requires RelayInv(s) && Sent(s, e)
    ensures RowOf(s, e)
  {
    assert Booked(s, Orders) && Booked(s, Restaurant) && Booked(s, Payments);
    AboutMembers(s.orders.outbox, Orders, e.order);
    AboutMembers(s.restaurant.outbox, Restaurant, e.order);
    AboutMembers(s.payments.outbox, Payments, e.order);
  }

  /** An event id belongs to one row only, across all three outboxes. */
  lemma IdsTell(s: State, e: Envelope, service: Service, o: OrderId)
    requires Numbering(s) && RowOf(s, e)
    ensures forall x :: x in About(OutboxOf(s, service), o) && x.id == e.id ==> x == e && o == e.order
  {
    AboutMembers(OutboxOf(s, service), service, o);
    AboutMembers(OutboxOf(s, e.id.source), e.id.source, e.order);
  }

  function AddRow(v: View, service: Service, e: Envelope): View {
    match service
    case Orders => v.(orderRows := v.orderRows + [e])
    case Restaurant => v.(restaurantRows := v.restaurantRows + [e])
    case Payments => v.(paymentRows := v.paymentRows + [e])
  }

  ghost function Emitted(s: State, service: Service, topic: Topic, o: OrderId, body: Body, now: int): State {
    WithOutbox(s, service, Emit(OutboxOf(s, service), service, topic, o, body, now), ChannelOf(s, service))
  }

  function NextEvent(s: State, service: Service, topic: Topic, o: OrderId, body: Body): Envelope {
    Envelope(EventId(service, |OutboxOf(s, service)|), topic, o, body)
  }

  lemma EmitBooks(s: State, service: Service, topic: Topic, o: OrderId, body: Body, now: int)
    requires Books(s)
    ensures Books(Emitted(s, service, topic, o, body, now))
  {
  }

  lemma EmitRows(s: State, service: Service, topic: Topic, o: OrderId, body: Body, now: int, e: Envelope)
    requires RowOf(s, e)
    ensures RowOf(Emitted(s, service, topic, o, body, now), e)
  {
    EmitFacts(OutboxOf(s, service), service, topic, o, body, now);
  }

  lemma NewIdUnseen(s: State, service: Service)
    requires Ledgers(s)
    ensures var id := EventId(service, |OutboxOf(s, service)|);
      id !in s.orders.processed && id !in s.restaurant.processed && id !in s.payments.processed
  {
  }

  lemma EmitViewAt(s: State, service: Service, topic: Topic, o: OrderId, body: Body, now: int)
    requires Ledgers(s)
    ensures ViewOf(Emitted(s, service, topic, o, body, now), o) == AddRow(ViewOf(s, o), service, NextEvent(s, service, topic, o, body))
  {
    EmitFacts(OutboxOf(s, service), service, topic, o, body, now);
    NewIdUnseen(s, service);
    var rows, added := About(OutboxOf(s, service), o), NextEvent(s, service, topic, o, body);
    SeenBefore(rows, added, s.restaurant.processed);
    SeenBefore(rows, added, s.payments.processed);
    SeenBefore(rows, added, s.orders.processed);
  }

  lemma AboutOthers(rows: seq<Row>, service: Service, topic: Topic, o: OrderId, body: Body, now: int, x: OrderId)
    requires x != o
    ensures About(Emit(rows, service, topic, o, body, now), x) == About(rows, x)
  {
    EmitFacts(rows, service, topic, o, body, now);
    assert About(rows, x) + [] == About(rows, x);
  }

  lemma EmitElsewhere(s: State, service: Service, topic: Topic, o: OrderId, body: Body, now: int, x: OrderId)
    requires x != o
    ensures ViewOf(Emitted(s, service, topic, o, body, now), x) == ViewOf(s, x)
  {
    AboutOthers(OutboxOf(s, service), service, topic, o, body, now, x);
  }

  /** A new row is added to one history, and no ledger has seen it. */
  lemma EmitView(s: State, service: Service, topic: Topic, o: OrderId, body: Body, now: int)
    requires Ledgers(s)
    ensures OthersKept(s, Emitted(s, service, topic, o, body, now), o)
    ensures ViewOf(Emitted(s, service, topic, o, body, now), o) == AddRow(ViewOf(s, o), service, NextEvent(s, service, topic, o, body))
  {
    EmitViewAt(s, service, topic, o, body, now);
    forall x | x != o ensures ViewOf(Emitted(s, service, topic, o, body, now), x) == ViewOf(s, x) {
      EmitElsewhere(s, service, topic, o, body, now, x);
    }
  }

  lemma SeenBefore(rows: seq<Envelope>, added: Envelope, ledger: set<EventId>)
    requires added.id !in ledger
    ensures SeenAt(rows + [added], 0, ledger) == SeenAt(rows, 0, ledger)
    ensures SeenAt(rows + [added], 1, ledger) == SeenAt(rows, 1, ledger)
  {
  }

  /** The ledger of one service with one more event in it. */
  function Noted(s: State, service: Service, e: Envelope): State {
    match service
    case Orders => s.(orders := s.orders.(processed := s.orders.processed + {e.id}))
    case Restaurant => s.(restaurant := s.restaurant.(processed := s.restaurant.processed + {e.id}))
    case Payments => s.(payments := s.payments.(processed := s.payments.processed + {e.id}))
  }

  predicate At(rows: seq<Envelope>, k: nat, e: Envelope) {
    k < |rows| && rows[k] == e
  }

  /** The flags that answer for the event. */
  function Flagged(v: View, service: Service, e: Envelope): View {
    match service
    case Orders =>
      v.(rejectedSeen := v.rejectedSeen || At(v.restaurantRows, 0, e),
         outcomeSeen := v.outcomeSeen || At(v.paymentRows, 0, e) || At(v.paymentRows, 1, e))
    case Restaurant =>
      v.(placedSeen := v.placedSeen || At(v.orderRows, 0, e), releaseSeen := v.releaseSeen || At(v.orderRows, 1, e))
    case Payments =>
      v.(reservedSeen := v.reservedSeen || At(v.restaurantRows, 0, e))
  }

  lemma SeenNoted(s: State, service: Service, o: OrderId, k: nat, ledger: set<EventId>, e: Envelope)
    requires Numbering(s) && RowOf(s, e)
    ensures var rows := About(OutboxOf(s, service), o);
      SeenAt(rows, k, ledger + {e.id}) <==> SeenAt(rows, k, ledger) || At(rows, k, e)
    ensures o != e.order ==> !At(About(OutboxOf(s, service), o), k, e)
  {
    IdsTell(s, e, service, o);
    var rows := About(OutboxOf(s, service), o);
    if k < |rows| {
      assert rows[k] in rows;
    }
  }

  lemma NotedViewAt(s: State, service: Service, e: Envelope, x: OrderId)
    requires Numbering(s) && RowOf(s, e)
    ensures ViewOf(Noted(s, service, e), x) == if x == e.order then Flagged(ViewOf(s, x), service, e) else ViewOf(s, x)
  {
    match service
    case Orders =>
      SeenNoted(s, Restaurant, x, 0, s.orders.processed, e);
      SeenNoted(s, Payments, x, 0, s.orders.processed, e);
      SeenNoted(s, Payments, x, 1, s.orders.processed, e);
    case Restaurant =>
      SeenNoted(s, Orders, x, 0, s.restaurant.processed, e);
      SeenNoted(s, Orders, x, 1, s.restaurant.processed, e);
    case Payments =>
      SeenNoted(s, Restaurant, x, 0, s.payments.processed, e);
  }

  lemma NotedView(s: State, service: Service, e: Envelope)
    requires Numbering(s) && RowOf(s, e)
    ensures OthersKept(s, Noted(s, service, e), e.order)
    ensures ViewOf(Noted(s, service, e), e.order) == Flagged(ViewOf(s, e.order), service, e)
  {
    forall x ensures ViewOf(Noted(s, service, e), x) == if x == e.order then Flagged(ViewOf(s, x), service, e) else ViewOf(s, x) {
      NotedViewAt(s, service, e, x);
    }
  }

  lemma RowExists(s: State, e: Envelope)
    requires Numbering(s) && RowOf(s, e)
    ensures e.id.serial < |OutboxOf(s, e.id.source)|
  {
    AboutMembers(OutboxOf(s, e.id.source), e.id.source, e.order);
  }

  lemma NotedBooks(s: State, service: Service, e: Envelope)
    requires Books(s) && e.id.serial < |OutboxOf(s, e.id.source)|
    ensures Books(Noted(s, service, e))
  {
  }

  /** Rows and ledgers are as they were. */
  ghost predicate SameRecords(s: State, s': State) {
    && s'.orders.outbox == s.orders.outbox && s'.orders.processed == s.orders.processed
    && s'.restaurant.outbox == s.restaurant.outbox && s'.restaurant.processed == s.restaurant.processed
    && s'.payments.outbox == s.payments.outbox && s'.payments.processed == s.payments.processed
  }

  ghost predicate SameRow<V>(m: map<OrderId, V>, m': map<OrderId, V>, x: OrderId) {
    Lookup(m', x) == Lookup(m, x)
  }

  ghost predicate OtherTablesKept(s: State, s': State, o: OrderId) {
    forall x :: x != o ==> TablesKept(s, s', x)
  }

  ghost predicate TablesKept(s: State, s': State, x: OrderId) {
    && SameRow(s.orders.orders, s'.orders.orders, x)
    && SameRow(s.restaurant.reservations, s'.restaurant.reservations, x)
    && SameRow(s.payments.payments, s'.payments.payments, x)
    && SameRow(s.flights, s'.flights, x)
  }

  function Retabled(v: View, s: State, o: OrderId): View {
    v.(order := Lookup(s.orders.orders, o), reservation := Lookup(s.restaurant.reservations, o),
       payment := Lookup(s.payments.payments, o), flight := Lookup(s.flights, o))
  }

  /** Updating the tables of one order changes the table part of its view. */
  lemma TablesView(s: State, s': State, o: OrderId)
    requires SameRecords(s, s') && OtherTablesKept(s, s', o)
    ensures OthersKept(s, s', o)
    ensures ViewOf(s', o) == Retabled(ViewOf(s, o), s', o)
  {
    forall x | x != o ensures ViewOf(s', x) == ViewOf(s, x) {
      assert TablesKept(s, s', x);
    }
  }

  lemma RecordsKept(s: State, s': State)
    requires SameRecords(s, s')
    ensures Books(s) ==> Books(s')
    ensures forall e :: RowOf(s, e) ==> RowOf(s', e)
  {
  }

  /** A transaction that writes an event, updates one order's tables and enters the event it handled. */
  lemma TransactionView(s: State, s2: State, writer: Service, e: Envelope, topic: Topic, body: Body, now: int)
    requires Books(s) && RowOf(s, e)
    requires SameRecords(Emitted(s, writer, topic, e.order, body, now), s2) && OtherTablesKept(s, s2, e.order)
    ensures var s' := Noted(s2, writer, e);
      && Books(s') && OthersKept(s, s', e.order) && PendingRows(s') == PendingRows(s) + 1
      && ViewOf(s', e.order) == Flagged(Retabled(AddRow(ViewOf(s, e.order), writer, NextEvent(s, writer, topic, e.order, body)), s2, e.order), writer, e)
  {
    var s1 := Emitted(s, writer, topic, e.order, body, now);
    EmitView(s, writer, topic, e.order, body, now);
    EmitRows(s, writer, topic, e.order, body, now, e);
    EmitBooks(s, writer, topic, e.order, body, now);
    EmitTables(s, s2, writer, topic, e.order, body, now);
    EmitFacts(OutboxOf(s, writer), writer, topic, e.order, body, now);
    TablesView(s1, s2, e.order);
    RecordsKept(s1, s2);
    NoteView(s2, writer, e);
  }

  lemma EmitTables(s: State, s2: State, writer: Service, topic: Topic, o: OrderId, body: Body, now: int)
    requires OtherTablesKept(s, s2, o)
    ensures OtherTablesKept(Emitted(s, writer, topic, o, body, now), s2, o)
  {
    var s1 := Emitted(s, writer, topic, o, body, now);
    forall x | x != o ensures TablesKept(s1, s2, x) {
      assert TablesKept(s, s2, x);
    }
  }

  lemma NoteView(s: State, writer: Service, e: Envelope)
    requires Books(s) && RowOf(s, e)
    ensures var s' := Noted(s, writer, e);
      && Books(s') && OthersKept(s, s', e.order)
      && ViewOf(s', e.order) == Flagged(ViewOf(s, e.order), writer, e)
  {
    RowExists(s, e);
    NotedView(s, writer, e);
    NotedBooks(s, writer, e);
  }

  /** The same without a new event. */
  lemma QuietTransactionView(s: State, s2: State, writer: Service, e: Envelope)
    requires Books(s) && RowOf(s, e) && SameRecords(s, s2) && OtherTablesKept(s, s2, e.order)
    ensures var s' := Noted(s2, writer, e);
      && Books(s') && OthersKept(s, s', e.order) && PendingRows(s') == PendingRows(s)
      && ViewOf(s', e.order) == Flagged(Retabled(ViewOf(s, e.order), s2, e.order), writer, e)
  {
    TablesView(s, s2, e.order);
    RecordsKept(s, s2);
    NoteView(s2, writer, e);
  }

  /** Relays move rows to the broker and mark them; no view changes. */
  lemma PublishView(s: State, service: Service, a: Action)
    requires Enabled(s, Publish(service, a))
    ensures forall x :: ViewOf(Apply(s, Publish(service, a)), x) == ViewOf(s, x)
  {
    var rows, channel := OutboxOf(s, service), ChannelOf(s, service);
    if a.Finish? {
      MarkFacts(rows, channel.holders[a.relay].row);
    }
    assert forall x :: About(ActRows(rows, channel, a), x) == About(rows, x);
  }

  lemma PublishBooks(s: State, service: Service, a: Action)
    requires Books(s) && Enabled(s, Publish(service, a))
    ensures Books(Apply(s, Publish(service, a)))
  {
  }
}
