# Verified model of the order saga

The repository runs one customer order through three services, each with its own database: the order
service creates it, the restaurant service sets its stock aside or turns it away, the payment service
charges for it, and the order service either confirms it or asks the restaurant to give the stock back.
No transaction spans two services. Each service writes its events into an outbox table in the same
transaction as its data, a relay carries them to the broker at least once, and each consumer keeps a ledger
of the events it has processed. A worker finishes payments whose handler died between its two transactions.

This project models that saga and proves what it is for: whatever is lost, repeated, reordered or
interrupted, the three databases agree about every order, no stock appears or disappears, and each step of
the saga happens at most once per order. With quantities >= 0, a run without mishaps comes to rest with
every order settled; mishaps can leave an order waiting for good, and the project says exactly when.

## How the model is laid out

| file | what it models |
|---|---|
| `Events.dfy` | ids, envelopes, outbox rows; an event id names its row, so it is fresh by construction |
| `Sums.dfy` | sums over tables |
| `Gateway.dfy` | the payment simulator |
| `Stock.dfy` | the loops of `reserve_stock` and `release_stock`, and what they mean per item |
| `Consumers.dfy` | partitions, batches, offsets and repeated attempts; what a committed offset means; races between ledger check and commit |
| `Restaurant.dfy`, `Payment.dfy`, `Order.dfy` | each service: its transactions as functions, and a class that runs them statement by statement, rollbacks and savepoint included, proved equal to those functions |
| `Outbox.dfy` | any number of relays over one outbox table; the drain loop of one of them |
| `Compensation.dfy` | a release undoes its reservation while other orders come and go |
| `Redelivery.dfy` | exactly-once effect of each service under redelivery and races |
| `System.dfy` | the three services, the channels between them, everything that lives only in memory, and the invariant |
| `Views.dfy`, `Invariant.dfy`, `Steps.dfy` | the invariant is kept by every step, hence by every run |
| `Safety.dfy` | what follows for every reachable state |
| `Refinement.dfy` | every run is a run of an abstract saga per order over one stock table |
| `Progress.dfy` | the progress measures, and which events an order waits for |
| `Cluster.dfy` | the system with the brokers' partitions and the consumers' offsets: a message is passed over whether or not its handler raised |
| `Hope.dfy` | which orders can still move on, kept by every move |
| `Settling.dfy` | runs without mishaps come to rest, unless an order has lost hope |
| `Recovery.dfy` | what restarts and failures can and cannot bring back; a run that loses an order |
| `Rest.dfy` | what rest means, that it lasts, and what the orders and the stock look like then |

A run of the system (`System.Valid`, `System.Run`) is any sequence of enabled steps: creating an order;
a relay locking, sending, marking or failing; a handler's transaction on any event the broker ever
received, any number of times and in any order; the two transactions of a payment; the reconciler's snapshot
and its transaction per row; a crash that keeps any part of what was in memory; a fault that rolls an
attempt back. Delivery order between topics is never relied on. That is more than the brokers do, which is
what safety wants. For progress, `Cluster` adds the offsets: a message is attempted in its turn in its
partition, passed over even when its handler raised, committed, and read again only by a consumer that goes
back to its committed offset. Its runs are runs of the system (`RunProjects`).

Most of the proof works on the view of one order (`System.View`): its rows in all tables, the events written
about it and which of them the ledgers hold. `System.Consistent` says which views are possible,
`System.Onward` how a view may change, and the lemmas of `Invariant.dfy` show it for each transaction.

## Where the code and its comments differ

The model follows the code.

- `services/order/consumers.py:59` says that offsets are committed for successfully processed messages. The
  offset of the whole batch is committed, also when a handler raised (`services/order/consumers.py:46-61`).
  A message is below the committed offset exactly when a turn that survived has attempted it, successfully
  or not (`CommittedExactly`), and its event is lost to the consumer exactly when no attempt at any copy
  has succeeded and every copy lies below (`LostExactly`). All safety results hold with such losses. What
  they do to an order is exact too: no run, mishaps included, ever settles it iff the events it waits for have
  been published, every copy lies below the committed offset, and no handler is still at work on it
  (`LostForGood`, and `PassedOverForGood` for a concrete run).
- The ledger check is described as what makes consumers idempotent. It is the primary key of the ledger
  that does it: dropping the check commits the same (`LedgerCheckRedundant` in each service), and a check
  made long before the commit is harmless (`RaceIsSerial`).
- The restaurant's comment at `services/restaurant/consumers.py:131-133` says that a swallowed unique
  violation is safe. That rests on there being one `order.placed` event per order, which the order service
  guarantees (`LogsMeetAssumption`); with two, a redelivery after the release reserves again
  (`SecondPlacedEventReservesAgain`).
- Quantities are not validated. Conservation holds for signed quantities. A reservation with signed lines
  goes through in every order of its lines iff the positive lines of each item are together in stock and
  the negative ones do not lift it out of the column's range (`AnyOrderExactly`); otherwise the order of
  the lines can decide (`DeductOrderMattersWhenSigned`). A new release commits iff its lines can be given
  back one by one (`ReleaseCommitsExactly`), which quantities >= 0 guarantee (`ReleaseCommits`) and signed
  ones do not: others may have taken what the order put in (`NegativeReleaseRefused`), or a later line of
  the order itself (`MixedReleaseRefused`). The results about coming to rest assume quantities >= 0.
- The idempotency key is looked up per user but is unique for all users, and an empty key is not looked up
  but stored: `RepeatedKey` says exactly which repeats are answered and which are refused.

## Model

| member | source | states |
|---|---|---|
| Gateway.DeclinedExactly | services/payment/gateway.py:10-23 | a charge is declined exactly when its own directive, or where it has none the configured default, spells "failure" in any mix of cases; the amount plays no part |
| Stock.DeductEffect | services/restaurant/stock.py:23-45 | a completed reservation loop takes exactly the aggregated demand from each item and nothing else |
| Stock.DeductPrefixes | services/restaurant/stock.py:23-45 | for any list, signed quantities included, the loop completes iff what each prefix of the lines leaves can be stored |
| Stock.DeductStops | services/restaurant/stock.py:34-39 | it stops at the first line that cannot be served and reports that line with what was left for it |
| Stock.DeductDecision | services/restaurant/stock.py:23-45 | with quantities >= 0 it completes iff every item exists and the total demand per item is in stock, and can only fail for shortage |
| Stock.DeductPermuted | services/restaurant/stock.py:23-45 | with quantities >= 0 neither the verdict nor the stock left depends on the order of the lines |
| Stock.AnyOrderExactly | services/restaurant/stock.py:23-45 | for any list, signed quantities included: the loop completes in every order of the lines iff each line names a stocked item and a quantity in range, and per item the positive lines are in stock and the negative ones keep it in range; the stock left is then the same |
| Stock.DeductOrderMattersWhenSigned | services/restaurant/stock.py:34-45 | without that condition it does: a concrete pair of lists |
| Stock.RestoreEffect | services/restaurant/stock.py:74-82 | a completed release gives back exactly the aggregated demand |
| Stock.RestorePrefixes | services/restaurant/stock.py:74-82 | for any list, giving back completes iff what each prefix leads to can be stored |
| Stock.RestoreCompletes | services/restaurant/stock.py:74-82 | with quantities >= 0 it completes iff the totals fit the column |
| RestaurantService.AllOrNothing | services/restaurant/consumers.py:74-128 | a first order.placed ends in the full deduction, the reservation and one stock.reserved carrying the payload, iff every line can be served and the order has no reservation; in unchanged tables and one stock.rejected with the first refused line's reason, iff that reason is a missing item or a shortage; the row bears the time of the transaction and the ledger entry comes with it; otherwise nothing changes: it raises iff the first refused line is out of range, and is swallowed iff the order is reserved already |
| RestaurantService.NotEvenTried | services/restaurant/consumers.py:55-72 | helper, read off the definition: a known event or an unknown topic is skipped, an order.placed without its fields raises, and whatever does not commit changes nothing |
| RestaurantService.TransactConserves | services/restaurant/consumers.py:64-137 | every transaction keeps stock on hand plus stock reserved equal to the seeded quantity, item by item |
| RestaurantService.PlaceCommits | services/restaurant/consumers.py:74-128 | with quantities >= 0 a first order.placed always commits |
| RestaurantService.ReleaseCommits | services/restaurant/consumers.py:116-128 | with quantities >= 0 a new release of a reservation always commits |
| RestaurantService.ReleaseCommitsExactly | services/restaurant/consumers.py:116-128 | for signed quantities: a release commits iff its event is new and the lines of the reservation, if there is one, can be given back one by one; then the reservation is gone, its demand is back in stock item by item and no event is written; otherwise nothing changes |
| RestaurantService.RestaurantNode.ReserveStock | services/restaurant/stock.py:14-54 | the loop over the live tables computes Reserve, and leaves the partial deductions behind when it raises |
| RestaurantService.RestaurantNode.ReleaseStock | services/restaurant/stock.py:57-90 | the loop over the live tables computes Restore and deletes the reservation row; a missing row is no error |
| RestaurantService.RestaurantNode.HandleMessage | services/restaurant/consumers.py:55-137 | with savepoint, rollbacks and swallowed violation written out, the handler is the transaction Handle |
| RestaurantService.RestaurantNode.RunConsumer | services/restaurant/consumers.py:23-52 | the loop over all partitions leaves the fold of the handler over its attempts, those repeated after restarts included, and commits whole batches |
| PaymentService.MovesAreRows | services/payment/reconciliation.py:65-87 | over the transactions of one call, rows moved out of PROCESSING and outbox rows added are the same number |
| PaymentService.PaymentNode.RecordIntentTx | services/payment/consumers.py:69-106 | Transaction 1, the duplicate payment swallowed, an over-long directive refused |
| PaymentService.PaymentNode.RecordOutcomeTx | services/payment/consumers.py:117-134 | Transaction 2 writes the outcome and its event without looking at the status |
| PaymentService.PaymentNode.HandleMessage | services/payment/consumers.py:60-136 | both transactions with the gateway call between them, or the first alone if the handler gets no further; what that leaves is stated by HandlerRun |
| PaymentService.HandlerRun | services/payment/consumers.py:60-134 | for every database and event: a run commits iff the event is new, has its fields, its directive fits and its order has no payment; then the row has the event's amount and directive, the event is in the ledger, and unless the handler died the status is FAILED or SUCCEEDED as the directive spells "failure" or not, with one event saying so; the other four outcomes, exactly, change nothing |
| PaymentService.PaymentNode.RunConsumer | services/payment/consumers.py:28-57 | the same for the payment service; an attempt that got no further than Transaction 1 leaves that transaction, as HaltedExactly says of every payment |
| PaymentService.PaymentNode.FindStuck | services/payment/reconciliation.py:39-46 | returns each stale PROCESSING row once, with its own amount and directive, and nothing else |
| PaymentService.PaymentNode.ResolveTx | services/payment/reconciliation.py:58-87 | settles the row by its directive with one event of this time if it is still PROCESSING under the lock, otherwise touches nothing |
| PaymentService.PaymentNode.ReconcileStuckPayments | services/payment/reconciliation.py:29-92 | while others act between the transactions, each remembered amount and directive is still the row's own when its turn comes; the returned count is the number of moves out of PROCESSING and of outbox rows made by this call; resolved rows are left alone; no row of the snapshot is stuck at the end |
| PaymentService.DisturbExactly | services/payment/reconciliation.py:58-74 | what the others do in between is not nothing: afterwards a payment exists iff it did or one of them recorded it, and is resolved iff it was or one of them settled it |
| PaymentService.RowsAddedAlone | services/payment/reconciliation.py:75-87 | if nobody interferes, the outbox has grown by exactly the number the call returns |
| OrderService.TransitionsFromPendingOnly | services/order/state_machine.py:17-58 | helper, read off the definition: an event commits iff it is new, of a known topic and its order is PENDING, and gives it the status of its topic, with one stock.release of this time iff it is payment.failed; a new event raises "not found" iff the order is not there and "invalid transition" iff it is there and not PENDING; all others are skipped |
| OrderService.InsertKeepsKeysUnique | services/order/migrations/002_idempotency_key.sql:2 | helper, read off the definition: non-null keys stay unique; an insert commits iff its values fit and its id and key are free, and otherwise writes nothing |
| OrderService.RepeatedKey | services/order/routes.py:75-86 | a used key is answered by the lookup iff it is not empty and the caller owns the order; the insert is refused in every case |
| OrderService.InsertedRow | services/order/routes.py:86-138 | helper, read off the definition: an insert commits iff directive and key fit their columns and id and key are free; it adds one PENDING order with the request's user, items, amount, directive and key and one order.placed of this time with the same data, an empty directive left out; the two refusals, exactly, write nothing |
| OrderService.RepeatAnswered | services/order/routes.py:74-128 | the law of idempotency keys: once a request with a key is accepted, then after any other inserts and handled events, and whatever happens between lookup and insert, a request with the same key is answered with that very order and its current status if it comes from the same user and the key is not empty, and is refused otherwise; it writes nothing either way |
| OrderService.RivalWins | services/order/routes.py:114-128 | if another request takes the key between lookup and insert, this one is refused and only what the others wrote remains |
| OrderService.NoKeyNewOrder | services/order/routes.py:74-128 | helper, read off the definition: a request without a key is never answered from an old order |
| OrderService.OrderNode.TransitionOrder | services/order/state_machine.py:32-65 | the status changes iff the order exists and is PENDING (and the target is not); "not found" iff it does not exist, "invalid transition" iff it exists and the move is not in the table |
| OrderService.OrderNode.HandleMessage | services/order/consumers.py:67-124 | the handler is the transaction Handle |
| OrderService.OrderNode.RunConsumer | services/order/consumers.py:29-64 | the same for the order service |
| OrderService.OrderNode.LookUp | services/order/routes.py:74-86 | finds an order of this user under this key iff there is one, and only for a key that is not empty |
| OrderService.OrderNode.InsertOrder | services/order/routes.py:114-138 | the order row and its order.placed row, or neither, as stated by InsertedRow |
| OrderService.OrderNode.CreateOrder | services/order/routes.py:54-151 | with any transactions of the service between lookup and insert: an order the lookup finds is answered without writing, otherwise the insert decides; what this means for repeated keys is stated by RepeatAnswered |
| Outbox.ActKeepsAccount | shared/outbox.py:73-96 | each relay action keeps: one holder per row, published only after a send, copies in the log = failed sends + published + sent and not yet committed |
| Outbox.EmitKeepsAccount | services/order/routes.py:130-138 | inserting a row keeps the same accounts |
| Outbox.HistoryAccounted | shared/outbox.py:68-106 | the accounts balance after every history of inserts, sends, marks and failures by any number of relays |
| Outbox.LogFollowsTable | shared/outbox.py:68-106 | if one relay serves an outbox whose rows are stamped with rising times, then after every history of inserts, sends, marks and failures the log never goes back to a row written earlier, and what is published is the front of the table |
| Outbox.TwoRelaysOvertake | shared/outbox.py:75-84 | with two relays it can: a concrete history |
| Outbox.OutboxRelay.SelectNext | shared/outbox.py:75-84 | picks a pending row that no pending row is older than, or finds none pending |
| Outbox.OutboxRelay.PublishOne | shared/outbox.py:73-96 | one transaction of the loop, which is a lock, send and finish or fail of the relay protocol |
| Outbox.OutboxRelay.PollAndPublish | shared/outbox.py:68-106 | without a fault, appends exactly the pending rows oldest first, marks them all and returns their number; on a fault the rows before stay published, the failing one stays pending and may already be in the log; either way, where stamps rise with the positions (WrittenInOrder) rows go out in the order in which they were written, none skipped |
| Consumers.CommittedExactly | services/order/consumers.py:46-61 | for all partitions and turns of the loop: a message lies below the committed offset iff a turn that survived has attempted it, successfully or not |
| Consumers.HandledExactly | services/order/consumers.py:46-57 | an event is handled iff some attempt at one of its copies was not rolled back |
| Consumers.LostExactly | services/order/consumers.py:46-61 | no later run of the loop handles an event iff it has not been handled and every copy, in any partition, lies below the committed offset |
| Consumers.RunsGoAsAttempts | services/payment/consumers.py:36-57 | each handler run of the loop is one attempt that was not rolled back: on a message of its partition, at its time, and stopping after Transaction 1 iff that attempt did |
| Consumers.FirstOccurrencesExactly | services/order/consumers.py:73-80 | the schedule without repeats is each event's first delivery, in order, and nothing else |
| Consumers.EndedExactly | services/order/consumers.py:73-117 | the deliveries of a race are the transactions that end, each on the event its worker last checked and at the time it ends |
| Consumers.RestartsInvisible | services/order/consumers.py:46-61 | without faults, the first occurrences of all attempts over any number of restarts are, in each partition, its log up to the furthest message reached |
| Consumers.RaceIsSerial | services/restaurant/consumers.py:64-70 | any number of workers that check the ledger early and commit late leave what the atomic handler leaves, one delivery after another |
| Redelivery.OrdersExactlyOnce | services/order/consumers.py:73-117 | any schedule of attempts leaves the order database as handling each event once, in first-occurrence order |
| Redelivery.PaymentsExactlyOnce | services/payment/consumers.py:69-134 | the same for the payment database, attempts that stop after Transaction 1 included |
| Redelivery.RestaurantExactlyOnce | services/restaurant/consumers.py:64-137 | the same for the restaurant, given one order.placed event per order and quantities >= 0 |
| Redelivery.RestaurantLoop | services/restaurant/consumers.py:23-52 | from the seeded stock and any partitions, the polling loop leaves what handling each event once leaves; without faults, each event of each partition in its order |
| Redelivery.OrderLoop | services/order/consumers.py:29-64 | the same for the order service's loop |
| Redelivery.PaymentLoop | services/payment/consumers.py:28-57 | the same for the payment service's loop |
| Redelivery.HaltedExactly | services/payment/consumers.py:36-134 | from no payments, over any partitions, rounds and restarts: an order has a payment iff some delivery could record it, with the data of the first such delivery; it is PROCESSING iff that delivery came from an attempt that got no further than Transaction 1, and otherwise settled by the directive with exactly one outcome event |
| Redelivery.FinishedLoopSettles | services/payment/consumers.py:36-134 | if every attempt gets to the end, no payment is PROCESSING and each has exactly one outcome event |
| Redelivery.LoopWritesInOrder | services/payment/consumers.py:127-133 | every row a loop writes bears the time of a delivery, so if these rise the rows stand in the order of their stamps |
| Redelivery.HandlersStamp | services/order/consumers.py:95-104 | helper, read off the definitions: each of the three handlers adds at most one row, stamped with its own time |
| Redelivery.SecondPlacedEventReservesAgain | services/restaurant/consumers.py:130-137 | two order.placed events for one order break it: a swallowed one reserves when it is delivered again after the release |
| Redelivery.OrderRace | services/order/consumers.py:73-117 | order consumers racing on copies leave what handling each event once leaves |
| Redelivery.IntentRace | services/payment/consumers.py:69-106 | the same for Transaction 1 of the payment handler |
| Redelivery.RestaurantRace | services/restaurant/consumers.py:64-137 | the same for the restaurant |
| Redelivery.VerdictOnce | services/restaurant/consumers.py:90-114 | however copies of one order.placed are delivered, at most one verdict is announced, signed quantities included |
| Redelivery.RaceOneVerdict | services/restaurant/consumers.py:64-137 | a racing duplicate that meets too little stock never adds stock.rejected to the first one's stock.reserved |
| Compensation.ReleaseUndoesReserve | services/restaurant/stock.py:63-88 | reserve, then any reserves and releases of other orders with the same answers as without it, then release: the release goes through iff its lines can be given back one by one, in particular whenever its own quantities are >= 0; then the tables are those the others alone would leave, and a second release changes nothing; a refused release changes nothing |
| Compensation.HandlerPerforms | services/restaurant/consumers.py:74-128 | helper, read off the definitions: the reserves and releases of that result are what the handler does to the two tables for a new event |
| Compensation.AnswersMatter | services/restaurant/stock.py:34-39 | the answers must be the same: an order turned away meanwhile stays turned away |
| Compensation.NegativeReleaseRefused | services/restaurant/migrations/001_init.sql:25 | with a negative quantity a release can be refused |
| Compensation.MixedReleaseRefused | services/restaurant/migrations/001_init.sql:25 | an order of lines -5 and 5 of one item can be reserved and then not released, with no other order involved |
| Invariant.OutcomeConsistent | services/payment/consumers.py:117-134 | Transaction 2 and the reconciler's transaction write the same outcome, in either order |
| Invariant.PlaceEffect | services/restaurant/consumers.py:74-114 | a committed order.placed moves its order from Placed to Reserved or Rejected, as the stock decides, and no other order |
| Invariant.ReleaseEffect | services/restaurant/consumers.py:116-118 | a committed stock.release moves its order from Failed to Released and gives back that order's own items |
| Invariant.OrderEffect | services/order/consumers.py:87-117 | a committed outcome moves its order one step along the saga and keeps it consistent with the other databases |
| Invariant.IntentEffect | services/payment/consumers.py:85-103 | a committed Transaction 1 moves its order from Reserved to Processing with the order's own amount and directive |
| Invariant.OutcomeEffect | services/payment/consumers.py:117-134 | a Transaction 2 or reconciliation keeps the order consistent and adds one outcome event |
| Steps.StaleReadHarmless | services/restaurant/stock.py:63-72 | a release that read its reservation row early, without a lock, commits what the atomic release would commit |
| Steps.HandlerAsSteps | services/payment/consumers.py:60-134 | the payment handler is its two steps of the system, one after the other, and the first alone if it dies |
| Steps.ReconciledAsHandled | services/payment/reconciliation.py:29-92 | dying between the two transactions, then the reconciler's query and transaction, leave the payment database the complete handler would have left |
| Steps.MemoryExactly | services/payment/reconciliation.py:39-46 | a crash takes any part of what is in memory and nothing else; the query remembers exactly the stuck rows it found, with their own data |
| Steps.StepKeeps | services/order/consumers.py:67-124 | every step of any kind keeps the whole invariant and moves every order onward |
| Steps.Reachable | services/payment/reconciliation.py:29-92 | every state reached by any run from the seeded stock satisfies the invariant |
| Safety.StatusIsTruthful | services/order/state_machine.py:17-58 | CONFIRMED: payment SUCCEEDED and reservation held; PAYMENT_FAILED: payment FAILED; STOCK_UNAVAILABLE: no payment, no reservation; a succeeded payment has its reservation |
| Safety.PaymentNeedsReservation | services/payment/consumers.py:85-97 | a payment row exists only after stock.reserved was written for that order, with that order's amount and directive |
| Safety.OneVerdict | services/restaurant/consumers.py:90-114 | stock.reserved and stock.rejected rows of an order are at most one in all |
| Safety.OnePlacedEventPerOrder | services/order/routes.py:114-138 | order rows and order.placed rows are in bijection, and keys are unique |
| Safety.CompensationExact | services/order/consumers.py:90-104 | one stock.release row if the order is PAYMENT_FAILED and none otherwise, with the reservation announced before; the reservation stands exactly until the release is processed |
| Safety.ReleaseAfterReservation | services/order/consumers.py:90-104 | a stock.release anyone can receive comes after its order's reservation and failed payment were committed |
| Safety.OutcomesAgree | services/payment/reconciliation.py:58-87 | all payment events of an order, at most two, carry the gateway's answer to the directive given at creation, and the payment row says the same |
| Safety.SettledPaymentStays | services/payment/consumers.py:120-124 | no step changes a payment that has left PROCESSING |
| Safety.StockConserved | services/restaurant/stock.py:41-52 | in every reachable state stock is the seeded quantity less what is reserved, and never negative |
| Safety.NeverOversold | services/restaurant/stock.py:34-45 | confirmed orders together never exceed the seeded stock |
| Safety.LogsMeetAssumption | services/order/routes.py:114-138 | whatever partitions the brokers hold, they have one order.placed event per order and ids that identify events |
| Safety.WrittenInOrder | shared/outbox.py:75-84 | in every run whose transactions have rising times, the stamps of every outbox rise with the positions of its rows, so ordering by created_at is the order of writing |
| Refinement.StepRefines | services/restaurant/consumers.py:60-128 | each concrete step is one move of one abstract saga, with the stock it takes or gives, or nothing |
| Refinement.SystemRefinesSaga | services/order/consumers.py:73-117 | every run from the seeded stock is a run of the abstract saga from no orders, ending in the abstraction of its last state |
| Refinement.AtMostOnce | services/restaurant/consumers.py:64-70 | no run takes an order into the same phase twice |
| Refinement.ReservedOnceReleasedOnce | services/restaurant/stock.py:85-88 | an order is reserved at most once in its life, also after the release deleted the row the UNIQUE constraint guarded, and released at most once |
| Refinement.UnavailableNeverReserved | services/order/consumers.py:106-107 | an order that ends STOCK_UNAVAILABLE held no reservation in any earlier state |
| Progress.MeasureNeverGrows | services/payment/consumers.py:97-117 | outstanding work never grows except by a new order, faults, crashes and repeats included |
| Progress.DistanceNeverGrows | services/payment/reconciliation.py:39-87 | the finer distance to rest never grows in a step without a fault, except by a new order |
| Progress.AwaitedCommits | services/restaurant/consumers.py:74-128 | handing over an event its order waits for commits |
| Progress.CommitsAwaited | services/order/consumers.py:87-117 | and no other event's handling commits anything |
| Cluster.RunProjects | services/order/consumers.py:36-61 | every run with partitions and offsets is a run of the system, so all safety results hold for it |
| Hope.HopelessStays | services/order/consumers.py:46-61 | an order whose awaited event is out of reach stays where it is by every move without a mishap, and, if failures could not bring it back either, by every move |
| Hope.HopefulStays | services/payment/reconciliation.py:39-87 | without a mishap, an order that can move on stays able to |
| Settling.HappeningNears | shared/outbox.py:73-96 | every attempt and every other step in which something happens, without a mishap, brings the system strictly closer to rest |
| Settling.NothingHappens | services/payment/reconciliation.py:65-74 | in the remaining ones no table, channel or reading position changes |
| Settling.CanProgress | services/payment/reconciliation.py:39-87 | while every order has hope and the system is not at rest, something can happen, also right after a crash between the two transactions |
| Settling.EveryRunSettles | services/payment/consumers.py:97-134 | a run without mishaps is at rest whenever nothing more can happen; and however it has gone so far, it goes on to rest in no more moves than are left of the distance it started from |
| Settling.OrderWithinReach | services/order/consumers.py:46-61 | whatever became of the others, an order can be settled without further mishaps iff it does not wait, or an awaited event is still to be sent, has a copy ahead of its consumer, or is in a handler's hands |
| Settling.RestWithinReach | services/order/consumers.py:46-61 | likewise rest, for all orders together |
| Recovery.NoMishapSettles | services/order/routes.py:114-138 | the same from the seeded state, after any run without mishaps in which any number of customers have ordered: every order is settled once nothing more can happen, and that is reached in a bounded number of moves |
| Recovery.LostForGood | services/order/consumers.py:46-61 | an order can be settled by any moves at all, restarts and failing relays included, iff it does not wait, or an awaited event is unpublished, has a copy at or above the committed offset, or is in a handler's hands |
| Recovery.Outlook | services/order/consumers.py:29-64 | these equivalences, for one order and for all, after any run from the seeded state |
| Recovery.LostAfter | services/restaurant/consumers.py:36-49 | a concrete run in which the only attempt at an order.placed event raises and its offset is committed |
| Recovery.PassedOverForGood | services/restaurant/consumers.py:36-49 | after it the order is not settled by any continuation whatever |
| Rest.RestIsDone | services/order/consumers.py:87-107 | nothing is left to publish, reconcile or handle iff every event is published and every order is in a final phase |
| Rest.SettledStock | services/restaurant/stock.py:63-88 | then no order is PENDING, the reservations are exactly the confirmed orders' items, and stock is the seed less those |
| Rest.RestLasts | services/order/state_machine.py:17-58 | once every order is settled, no step but a new order changes an order, a reservation or the stock |
| Rest.FinalStatus | services/payment/gateway.py:13-23 | a settled order is CONFIRMED iff its stock was reserved and the gateway accepts its directive, PAYMENT_FAILED iff reserved and declined, STOCK_UNAVAILABLE iff rejected |

## Left out

- Authentication, rate limiting, the frontend, deployment, health checks, metrics, logging and read-only endpoints: no part of the saga.
- PostgreSQL, asyncpg and aiokafka themselves: a transaction commits whole under its row locks and constraints or does nothing. A deadlock victim is an aborted transaction; freedom from deadlock is not claimed, because items are locked in the client's order.
- Real time: `NOW()` is a free integer per transaction, so no safety result depends on clocks moving forward; only the order of publishing does, and says so (`WrittenInOrder`). The three-minute test of the reconciler is the parameter `stale` of its class method and any PROCESSING row in `System`; poll intervals, shutdown signalling and the final flush of the relay loop are not modelled.
- Columns no decision looks at: restaurant id, item prices, `updated_at`, `occurred_at`; the reason in stock.rejected is the error value, not its English text.
- Amounts are opaque integers: the sum of prices in `create_order` and the overflow of DECIMAL(10, 2) are not modelled; the gateway ignores the amount.
- Payment ids: `payments.order_id` is UNIQUE and rows are never deleted, so the order id names the row in Transaction 2 and in the reconciler.
- Event ids are serial numbers per outbox instead of random UUIDs; uniqueness is all that is used of them.
- `PAYMENT_SIMULATE_DEFAULT` is an unknown constant, the same for every worker: changing the environment between Transaction 1 and reconciliation could break the agreement of outcomes.
- VARCHAR columns refuse over-long values, also those PostgreSQL would accept because the excess is spaces.
- Consumer groups are modelled through their offsets; the assignment of partitions to several instances of a service is not. Handlers racing on copies of one event are covered by the results on races and by `System`, where any event ever sent can be handled at any time.
- Refinement.StepRefines: says that the stock is short at the moment a rejection commits. Rolling back to the savepoint frees the locks on the stock rows, so with several instances the stock may have risen between the decision and the commit; the model decides and commits a rejection in one step.
- Outbox.OutboxRelay.PollAndPublish: one relay at a time; the interleaving of several is in the relay protocol, of which each pass is shown to be a run.
- OrderService.OrderNode.CreateOrder: other transactions act between the lookup and the insert, which are the only two transactions of the request.
- A database error in the middle of the reconciler's loop ends the call early; in `System` each of its transactions is a step of its own, so every such ending is covered, but not as a return value of the class method.
- Settling.EveryRunSettles: does not claim that a scheduler lets things happen; timing and fairness of the polling loops are not modelled.
- Settling.CanProgress: assumes quantities >= 0, because with negative ones a release can be refused (`NegativeReleaseRefused`); so do the other results about coming to rest.
