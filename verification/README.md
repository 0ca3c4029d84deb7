# Order-to-notification pipeline: a verified model

Flash Sale Lab sells a limited stock. A create call prechecks the stock, then inserts the order and an
outbox row and decrements the inventory in one transaction. A publisher moves outbox rows to RabbitMQ, and a
consumer sends one notification per order, using two Redis keys, three retry paths and a dead-letter queue.
Any number of API instances run all of this at once.

This project models that pipeline in Dafny and proves what it guarantees, and where it does not guarantee
what one would expect, exactly when it does.

## How it is modelled

- **Delivery of one order** (`Delivery`). A *lane* is everything that concerns one committed order: its outbox
  row and the publishers on it, the message copies in the four queues or unacknowledged, the running handlers,
  and the processed key and processing lock. An event is one step between two awaits, one action of the broker,
  or the passing of milliseconds. Handlers may stop between any two steps, connections may be lost at any time,
  a confirm may fail although the copy was enqueued, an acknowledgement may be dropped or throw, `set` and
  `del` may silently do nothing, and a strict SET NX may throw after having set the key. Laws are proved for
  every run: `Accounting`, `Exactness`, `NoLoss`, `Recovery`, `Lineage`, `LeftLocks`, `MutualExclusion`, `OutboxLaws`.
- **Order transactions** (`OrderStore`). Any number of create calls, interleaved statement by statement, with
  uncommitted rows, one row lock per product, rollback, infrastructure failures, and commits whose answer is
  lost. Laws: `OrderLaws`, `OrderRecords`, `OrderProgress`.
- **The whole pipeline** (`Pipeline`). The order machine with one lane per committed order on one clock.
- **The services as written.** `Consumer.Handling` (one `handleMessage`), `OutboxPublisherService`,
  `PrismaOutboxRepository`, `OrderService`, `RedisService`, `ProductService` and `OrderNotificationConsumer`
  (connection, callbacks, handlers in flight, shutdown) are classes whose methods follow the source statement by
  statement. While a handler, a create call, a cache fill, a price update (`ProductRaces`) or a shutdown waits,
  arbitrary events of others happen; whatever they are, the object's history is a run of the machine, so every law
  of runs holds of it. With nothing happening meanwhile, `HandleMessage` and `Create` are one atomic change. Between
  the calls of a publisher's cycle others may insert, claim, mark and recover any rows; `PublisherLanes` relates the
  cycle to the lanes of the orders.
- **References for the steps.** `DeliverySteps`, `OrderSteps`, `ConnectionSteps` and `CacheSteps` say of every
  event when it can happen and what it changes and leaves, with the source's own constants and without the
  definitions of the machines; they tie the machines to the source line by line.
- **The consumer's connection** (`ConsumerConnection`) and **the product cache** (`ProductCache`) are machines
  of their own.

### Contracts of the surroundings

- There is one non-decreasing clock in milliseconds; a process may use a slightly older reading of it.
- PostgreSQL runs READ COMMITTED, and a conditional update re-evaluates its condition under the row lock.
- A resolved `waitForConfirms` means that the caller's own copy is in the queue.
- A lost channel returns its unacknowledged copies to the main queue; queue TTL dead-lettering is an atomic move.
- A Redis key is visible up to and including its expiry time.
- The notification call may fail, before or after the notification went out.
- Request quantities are at least 1.

### What differs from the documentation

- The repository's README.md:40 and README.md:58 say that Redis state guarantees an idempotent consumer. The
  code gives a bound: notifications are at most one more than the excusing events. `Exactness` shows that a
  single excuse of any kind suffices for a second notification. Besides the events one would list from the
  Redis calls, a notification call that fails after sending is such an excuse.
- The reconnect logic does not repair every loss. If the channel closes after the subscription was accepted but
  before its close listeners are registered, a dead channel is recorded and nothing is under way
  (`HealthyExactly`, `LateRecordingIsStuck`). The consumer can reconnect from there if and only if the recorded
  connection is still open, namely when that closes too (`RepairableExactly`); if the connection was lost as
  well, it never connects again (`StuckForEver`).
- The graceful drain can be outlived by a handler if and only if, when the shutdown begins, a connect attempt is
  in flight that is still dialling or whose channel is open (`DrainIsSafeExactly`).
- README.md:42 promises isolation in the DLQ after three processing retries. Such a message met at least four
  different lock instances, none of them the same twice (`LockExhaustion`).

## Model

| member | source | states |
|---|---|---|
| `Accounting.NotificationAccounting` | src/messaging/order-notification.consumer.ts:197-450 | In every run an order is notified at most once more than there were excusing events (late lock, lost mark, expired mark, expired open lock, foreign delete of an open lock, call failed after sending); with none, at most once. |
| `Accounting.HandlerKeepsInv` | src/messaging/order-notification.consumer.ts:407-450 | Every handler step keeps: notifications plus handlers entitled to notify never exceed the excuses plus the one notification that a set processed key or an open lock accounts for. |
| `Exactness.BoundIsAttainedExactly` | src/messaging/order-notification.consumer.ts:197-450 | Some run has exactly the excuses xs and one notification more, if and only if in xs a lock taken after the processed key was set is followed only by another such lock or the expiry of the processed key. |
| `Exactness.TightRunsAreOrdered` | src/redis/redis.service.ts:99-171 | The converse half: no run exceeds the bound, and one that reaches it has its excuses in that order. |
| `Exactness.SlowCleanup` | src/messaging/order-notification.consumer.ts:442-450 | The unowned DEL of a failed handler, run after its lock has expired, removes the next handler's lock and so costs one notification. |
| `Exactness.LockLate` | src/messaging/order-notification.consumer.ts:200-224 | A handler whose processed check came before the mark and whose SET NX came after the release notifies a second time. |
| `NoLoss.NoOrderIsLost` | src/messaging/order-notification.consumer.ts:207-316 | In every reachable state a committed order has an unsent outbox row, or a message copy in some queue or unacknowledged, or has been notified. |
| `NoLoss.NewestCopyStays` | src/messaging/order-notification.consumer.ts:364-404 | No handler step removes the newest copy before the order is notified: an acknowledgement follows the confirm of a younger copy, or a notification. |
| `Recovery.NotifiableExactly` | src/messaging/order-notification.consumer.ts:442-532 | A run can be continued to a notification (or has one) if and only if its state is not a dead end: row SENT, no publisher about to publish, all copies in the DLQ, no handler that will notify or republish elsewhere. |
| `Recovery.DeadEndStays` | src/messaging/outbox-publisher.service.ts:47-101 | A dead end is final: no publisher, recovery job, broker action or handler leads out of it. |
| `Recovery.DeadEndHappens` | src/messaging/order-notification.consumer.ts:442-494 | Dead ends are reachable: two notification calls that fail without having gone out put the only copy into the DLQ. |
| `Recovery.RepublishFromRow` | src/order/repository/prisma-outbox.repository.ts:101-118 | From any state with an unsent row, whether the order has been notified or not, the recovery job and one more claim bring a fresh copy into the main queue. |
| `Lineage.RepublishDecreases` | src/messaging/order-notification.consumer.ts:238-287 | Every republish goes to the DLQ or uses up one unit of (3 - retry-count) + (3 - processing-retry-count), which never gets negative, despite the shared counter with caps 3 and 1; retry copies wait 5 000 or 35 000 ms. |
| `Lineage.RetriesAreBounded` | src/messaging/order-notification.consumer.ts:59-75 | Both counters stay at most 3; a message takes at most 6 hops and 120 000 ms of queue delay. |
| `Lineage.HopKeepsMessage` | src/messaging/order-notification.consumer.ts:318-405 | The 35 s hop outlasts the 30 s lock: a message turned away again meets a lock acquired after every earlier one. |
| `Lineage.LockExhaustion` | src/messaging/order-notification.consumer.ts:323-341 | The locks that turned a lineage away really were set, are pairwise distinct and at least as many as its processing-retry-count; an exhausted message met four. |
| `LeftLocks.HopsAreExplained` | src/messaging/order-notification.consumer.ts:318-405 | Every lock that turned a lineage away was left behind (it was still its handler's after a crash, an ineffective DEL or an unanswered SET NX) or belonged to a handler still at work, so the processing-retry-count is at most the number of such handlers. |
| `LeftLocks.OneCrashCostsOneHop` | src/messaging/order-notification.consumer.ts:364-404 | If handlings do not overlap and at most one lock was left behind, by a crashed handler say, no copy takes more than one processing-retry hop or is exhausted, however many locks are set and released and however many other handlers crash. |
| `DeliverySteps.HandlerCan` | src/messaging/order-notification.consumer.ts:197-534 | At every await of a handling exactly its next call can follow, with every outcome that the call can have, or the end of the process; an acknowledgement reaches the broker only on the channel that holds the copy. |
| `DeliverySteps.CheckStep` | src/messaging/order-notification.consumer.ts:200-216 | A failed read leads to the Redis path, a set processed key to the skip, and otherwise the lock is next; nothing is written. |
| `DeliverySteps.LockStep` | src/redis/redis.service.ts:160-171 | The lock is set on a free key only, for 30 000 ms, possibly although the call throws; a taken lock stays as it is and turns the handler away. |
| `DeliverySteps.NotifyStep` | src/messaging/order-notification.consumer.ts:410-411 | One notification goes out, or one or none when the call fails, which leads to the catch; no key changes. |
| `DeliverySteps.MarkStep` | src/messaging/order-notification.consumer.ts:420-420 | The processed key is set for 86 400 000 ms, or silently not; the handling goes on either way. |
| `DeliverySteps.DeleteStep` | src/messaging/order-notification.consumer.ts:429-450 | The DEL after success and the one in the catch remove the lock whoever owns it, or silently nothing. |
| `DeliverySteps.AckStep` | src/messaging/order-notification.consumer.ts:214-436 | An acknowledgement that reaches the broker removes exactly the handler's copy; one that throws leads to the Redis path, the catch, or the put-back, depending on where it stands. |
| `DeliverySteps.RepublishStep` | src/messaging/order-notification.consumer.ts:242-515 | After a Redis failure the copy goes to the 5 s retry queue with retry-count + 1, from 3 on to the DLQ; with the lock taken to the 35 s queue with processing-retry-count + 1, from 3 on to the DLQ as exhausted; after a processing failure to the main queue with retry-count + 1, from 1 on to the DLQ. The other header is unchanged. |
| `DeliverySteps.NackStep` | src/messaging/order-notification.consumer.ts:270-312 | A put-back that reaches the broker leaves the original in the main queue with its headers. |
| `DeliverySteps.BrokerCan` | src/messaging/order-notification.consumer.ts:59-75 | Copies are delivered from the main queue only, leave a retry queue for the main queue only when their delay is over, never leave the DLQ, and come back from an unacknowledged delivery at any time. |
| `DeliverySteps.PublisherStep` | src/order/repository/prisma-outbox.repository.ts:73-99 | A claim stamps the row, the final update makes it SENT, and the publish puts one message without headers into the main queue; nothing else changes. |
| `DeliverySteps.RecoverStep` | src/order/repository/prisma-outbox.repository.ts:101-118 | The row is PENDING again exactly when it was PROCESSING with start + 30 000 < clock. |
| `DeliverySteps.ExcuseStep` | src/messaging/order-notification.consumer.ts:197-450 | The excusing events one by one, and that no other step is an excuse. |
| `MutualExclusion.AtMostOneInSection` | src/messaging/order-notification.consumer.ts:220-436 | If every handler stays under 30 s between acquire and release and no acknowledgement throws after the release, at most one handler is between them, it owns the lock, and no DEL ever removed a foreign lock. |
| `OutboxLaws.OutboxAccounting` | src/order/repository/prisma-outbox.repository.ts:73-118 | For any racing publishers: claims = recoveries when PENDING, one more when PROCESSING, either when SENT; SENT implies a confirmed publish; confirmed publishes <= copies <= claims; PROCESSING iff a start time is set. |
| `OutboxLaws.ClaimSpacing` | src/order/repository/prisma-outbox.repository.ts:86-113 | A later claim of an event takes effect strictly more than 30 000 ms after the recorded start of an earlier one. |
| `OutboxLaws.ReclaimableExactly` | src/order/repository/prisma-outbox.repository.ts:86-118 | An event claimed at stamp t can be claimed again, after the recovery job has run, if and only if more than 30 000 ms have passed. |
| `OutboxLaws.SentIsFinal` | src/order/repository/prisma-outbox.repository.ts:73-84 | SENT is absorbing, whatever events follow. |
| `OutboxLaws.PublishedExactlyOnce` | src/messaging/outbox-publisher.service.ts:47-79 | If publishers mark within 30 s of their claim and none stops halfway, an event is claimed and published at most once across all instances, exactly once when SENT. |
| `OutboxTable.PrismaOutboxRepository.Create` | src/order/repository/prisma-outbox.repository.ts:18-25 | Adds one PENDING row under a new identifier and changes nothing else. |
| `OutboxTable.SentStays` | src/order/repository/prisma-outbox.repository.ts:73-118 | A SENT row stays SENT under any updates of any instances. |
| `OutboxTable.PrismaOutboxRepository.FindPending` | src/order/repository/prisma-outbox.repository.ts:27-36 | Returns exactly the `limit` smallest PENDING identifiers in ascending order. |
| `OutboxTable.PrismaOutboxRepository.Claim` | src/order/repository/prisma-outbox.repository.ts:86-99 | Succeeds if and only if the row is PENDING, and then makes it PROCESSING with the caller's start time. |
| `OutboxTable.PrismaOutboxRepository.MarkAsSent` | src/order/repository/prisma-outbox.repository.ts:73-84 | Makes an existing row SENT whatever its status was; fails without one. |
| `OutboxTable.PrismaOutboxRepository.RecoverStuckProcessing` | src/order/repository/prisma-outbox.repository.ts:101-118 | A row is set back to PENDING if and only if it is PROCESSING with start + 30 000 < clock, and is otherwise unchanged; the result counts those rows. |
| `OutboxPublisher.OutboxPublisherService.PublishOne` | src/messaging/outbox-publisher.service.ts:47-80 | Claim, publish and mark of one event equal its step in the cycle, whichever call throws and whatever others do to the table between them. |
| `OutboxPublisher.OutboxPublisherService.PublishBatch` | src/messaging/outbox-publisher.service.ts:47-80 | The loop, left at the first exception, equals the cycle function. |
| `OutboxPublisher.OutboxPublisherService.PublishPending` | src/messaging/outbox-publisher.service.ts:32-89 | One cycle, among any updates of others: skipped if and only if another is active, otherwise over the 500 smallest pending events; the guard is back to its old value even after exceptions. |
| `OutboxPublisher.CycleAmongOthers` | src/messaging/outbox-publisher.service.ts:44-88 | Whatever others insert, claim, mark or recover meanwhile: the events we claim are among those read, in id order; each is sent exactly one message if its publish takes effect; each is SENT in the end except the one at which a call threw, after which nothing is claimed; and all other rows are as the others' updates alone make them. |
| `OutboxPublisher.CycleSettles` | src/messaging/outbox-publisher.service.ts:47-88 | When others only race for the claims: without an exception every event is SENT with one message in id order, or PROCESSING at a rival; with one at position i, the earlier ones are, the i-th is as far as its call got, and all others are untouched. |
| `OutboxPublisher.UndisturbedCycle` | src/messaging/outbox-publisher.service.ts:44-80 | An undisturbed cycle over k pending events sends exactly the min(k, 500) smallest, one message each in id order. |
| `OutboxPublisher.DrainTakes` | src/messaging/outbox-publisher.service.ts:31-89 | Undisturbed cycles have drained the outbox if and only if there were at least ceiling(k / 500) of them. |
| `PublisherLanes.OwnEventIsALaneRun` | src/messaging/outbox-publisher.service.ts:47-80 | The loop body on one event is, with the others' updates meanwhile, a run of its order's lane ending with the row of the table, and with one more copy exactly when it has sent its one message, which carries this order. |
| `PublisherLanes.CycleIsLaneRuns` | src/messaging/outbox-publisher.service.ts:44-80 | So is a whole cycle, for the lane of every order, whether its event was read or not: the lane ends with the row that the table has, and gains one copy if the cycle has sent exactly one message for the order, none if it has sent none. |
| `Consumer.Handling.HandleMessage` | src/messaging/order-notification.consumer.ts:181-534 | Under any interference and any failures a handling is part of a run of the delivery machine; it dies exactly when its process is ended by what happens meanwhile, and otherwise takes the steps that the outcomes of its calls and the keys it reads dictate, up to acknowledgements that no longer reach the broker, with the exit that belongs to them; an original that was put back is in the main queue with its headers. If nothing happens meanwhile, it reads the keys as they were; if nothing fails either, it is one atomic skip, hop or notification. |
| `Consumer.Handling.CheckAndLock` | src/messaging/order-notification.consumer.ts:197-230 | Processed check, then lock: it ends with the skip exactly when the key is seen and the acknowledgement does not throw, and goes on to the processing block exactly when the lock is acquired. |
| `Consumer.Handling.Process` | src/messaging/order-notification.consumer.ts:407-534 | Completes exactly when the call succeeds and the acknowledgement does not throw, by notify, mark, release, acknowledge in this order; otherwise those steps, the DEL, and then a republish or put-back. |
| `Consumer.Handling.CatchProcessing` | src/messaging/order-notification.consumer.ts:442-533 | The DEL comes first, then a republish or a put-back of the original into the main queue. |
| `Consumer.Handling.RepublishAndAck` | src/messaging/order-notification.consumer.ts:280-313 | The original is acknowledged only after the confirm of its copy; without a confirm, or when the acknowledgement throws, it is negatively acknowledged, and if that reaches the broker the original is back in the main queue with its headers. |
| `Consumer.WalkHasForms` | src/messaging/order-notification.consumer.ts:181-534 | Whatever the outcomes, an original is acknowledged only as a duplicate, after notify, mark and release, or after the confirm of its copy; and it is put back only without a confirm or after a throwing acknowledgement. |
| `Consumer.HandledBySteps` | src/messaging/order-notification.consumer.ts:197-436 | The steps of an undisturbed, faultless handling compose to the atomic change: duplicate dropped, or copy replaced by its processing-retry successor, or one notification with the mark set and the lock free. |
| `OrderLaws.StockIsConserved` | src/order/repository/prisma-inventory.repository.ts:22-41 | In every committed state of every interleaving stock is at least 0, and stock plus sold quantities is the initial stock. |
| `OrderLaws.RejectionIsJustified` | src/order/order.service.ts:42-53 | A call refused at precheck or decrement asks for more than the stock at any later time. |
| `OrderLaws.TransactionsAreAtomic` | src/order/order.service.ts:57-107 | Every interleaving refines a sequence of atomic orders: replaying the log gives the committed rows, with every outcome the one the stock dictates there; a call has an accepted place if and only if it has committed that order (even when the answer was lost), at most one place, and a refused place if it was refused. A rolled-back or unfinished call contributes nothing. |
| `OrderLaws.CommitKeepsLocks` | src/order/transaction/prisma-order-unit-of-work.ts:16-32 | A commit leaves every other lock holder's computed new stock correct: no update is lost. |
| `OrderRecords.OneRowPerOrder` | src/order/order.service.ts:62-82 | Committed orders, outbox rows and calls that committed are in bijection, each order being the one its call asked for; identifiers are unique; a refused, rolled-back or unfinished call has no row. |
| `OrderRecords.VisibleIfCommitted` | src/order/transaction/prisma-order-unit-of-work.ts:16-32 | An order that a call has inserted is visible at any later time if and only if that call has committed it. |
| `OrderRecords.FailureLeavesNothing` | src/order/transaction/prisma-order-unit-of-work.ts:16-32 | A call that fails at any step is rolled back for good: no outbox row and no accepted place in the log, ever. |
| `OrderRecords.OutcomeTells` | src/order/order.service.ts:57-107 | A call is rolled back exactly when the infrastructure has failed it, and committed exactly when it has taken its commit, with or without its answer. |
| `OrderRecords.SalesAreMaximal` | src/order/order.concurrency.spec.ts:73-130 | n calls for q pieces each, none rolled back by an infrastructure failure: exactly min(n, stock div q) succeed, and the final stock is what they leave. |
| `OrderProgress.EveryStepIsWork` | src/order/order.service.ts:57-107 | Every step lowers the remaining work, so steps cannot repeat for ever. |
| `OrderProgress.RunsEnd` | src/order/order.service.ts:57-107 | Without new arrivals a run has at most as many steps as there is work left. |
| `OrderProgress.Unblock` | src/order/order.service.ts:91-103 | An unfinished call can take a step that is no failure, or waits at the decrement for the holder of its product's lock, which can commit: no deadlock. |
| `OrderProgress.EveryRunCompletes` | src/order/transaction/prisma-order-unit-of-work.ts:16-32 | From every reachable state all calls can be answered without any failure or lost answer. |
| `OrderSteps.CallCan` | src/order/order.service.ts:39-107 | At every point a call can take its next statement or fail; only a decrement that would update a locked row waits. |
| `OrderSteps.PrecheckStep` | src/order/order.service.ts:42-53 | The precheck writes nothing and refuses exactly when the committed stock is missing or below the quantity. |
| `OrderSteps.DecreaseStep` | src/order/repository/prisma-inventory.repository.ts:26-40 | The row is locked and the new stock computed exactly when the committed stock suffices; nobody sees it yet. |
| `OrderSteps.CommitStep` | src/order/transaction/prisma-order-unit-of-work.ts:16-32 | A commit makes the new stock, the order row and the outbox row visible together and releases the lock, whether its answer arrives or not. |
| `OrderSteps.RollbackStep` | src/order/transaction/prisma-order-unit-of-work.ts:16-32 | A rollback on the conflict or a failure changes no row and releases the lock. |
| `OrderServices.OrderService.DecrementInTurn` | src/order/repository/prisma-inventory.repository.ts:26-40 | The conditional update waits for the row lock and ends with the lock and the right new stock, with the conflict, or with a failed transaction: because the infrastructure failed it, or because the lock was still held after all rounds of waiting. |
| `OrderServices.OrderService.Transaction` | src/order/transaction/prisma-order-unit-of-work.ts:16-32 | The three statements and the commit, with a truthful answer; undisturbed and with enough stock it is the atomic order. |
| `OrderServices.OrderService.Create` | src/order/order.service.ts:39-116 | Whatever other calls do: the conflict is answered only if the stock is insufficient, an order only if it is committed with this request, and a failure exactly when the infrastructure failed the call, the lock was not free in time, or the answer to the commit was lost; undisturbed it is the atomic order or the conflict. |
| `RedisServices.RedisService.Get` | src/redis/redis.service.ts:81-97 | A failed read looks like a missing key. |
| `RedisServices.RedisService.Set` | src/redis/redis.service.ts:99-115 | Stores with the TTL, or silently not at all; other keys are unaffected. |
| `RedisServices.RedisService.Del` | src/redis/redis.service.ts:117-129 | Deletes whoever's value is there, or silently nothing; other keys are unaffected. |
| `RedisServices.RedisService.GetStrict` | src/redis/redis.service.ts:156-158 | Passes failures on and otherwise returns exactly the visible value. |
| `RedisServices.RedisService.SetIfAbsentStrict` | src/redis/redis.service.ts:160-171 | Stores if and only if the key is free; a failed call may have stored all the same. |
| `ConsumerServices.OrderNotificationConsumer.Connect` | src/messaging/order-notification.consumer.ts:37-42 | Starts an attempt exactly when none is running, no channel is recorded and no shutdown has begun. |
| `ConsumerServices.OrderNotificationConsumer.ScheduleReconnect` | src/messaging/order-notification.consumer.ts:169-179 | Arms the timer exactly when it is not armed and no shutdown has begun. |
| `ConsumerServices.OrderNotificationConsumer.OnTimer` | src/messaging/order-notification.consumer.ts:174-178 | Forgets the timer and tries to connect: the timer step of the connection machine. |
| `ConsumerServices.OrderNotificationConsumer.OnConnected` | src/messaging/order-notification.consumer.ts:148-165 | Registers the listeners and records connection and channel, whatever has become of them meanwhile. |
| `ConsumerServices.OrderNotificationConsumer.OnConnectFailed` | src/messaging/order-notification.consumer.ts:155-166 | Ends the attempt and arms the timer unless shutting down. |
| `ConsumerServices.OrderNotificationConsumer.OnChannelClose` | src/messaging/order-notification.consumer.ts:108-123 | Forgets its own channel and closes its connection if that is still the recorded one. |
| `ConsumerServices.OrderNotificationConsumer.OnConnectionClose` | src/messaging/order-notification.consumer.ts:132-146 | Forgets its own connection and channel and arms the timer; a close of an older connection changes nothing. |
| `ConsumerServices.OrderNotificationConsumer.OnMessage` | src/messaging/order-notification.consumer.ts:79-98 | A delivery starts a handler, which is in flight until it ends. |
| `ConsumerServices.OrderNotificationConsumer.BeginShutdown` | src/messaging/order-notification.consumer.ts:562-577 | Raises the flag, disarms the timer and hands out the recorded channel and connection. |
| `ConsumerServices.OrderNotificationConsumer.BeforeApplicationShutdown` | src/messaging/order-notification.consumer.ts:562-630 | Whatever happens meanwhile, the shutdown is over unless a handler of its snapshot is still running; then the recorded channel and connection are closed and forgotten, and if it began harmlessly, no handler is running and none can start. |
| `ConsumerServices.ConsumerHeals` | src/messaging/order-notification.consumer.ts:37-179 | Self-healing for the object: before shutdown it has a live channel, or is connecting, or has its timer armed, or a close event of its recorded connection is due; never connecting with the timer armed. |
| `ConsumerConnection.HealthyExactly` | src/messaging/order-notification.consumer.ts:79-150 | From a healthy reachable state a step leads to a healthy one if and only if it does not record an attempt whose channel has already closed (or shutdown has begun). |
| `ConsumerConnection.SelfHealing` | src/messaging/order-notification.consumer.ts:37-179 | While no attempt is recorded too late, every state before shutdown has a live channel, an attempt, an armed timer or a close event to come; never two attempts or two timers. |
| `ConsumerConnection.LateRecordingIsStuck` | src/messaging/order-notification.consumer.ts:132-150 | A concrete run in which the connection closes before its listeners are registered, and nothing is left under way. |
| `ConsumerConnection.RepairableExactly` | src/messaging/order-notification.consumer.ts:108-150 | From a reachable unhealthy state a continuation without shutdown reaches a live channel if and only if the recorded connection is still open. |
| `ConsumerConnection.StuckForEver` | src/messaging/order-notification.consumer.ts:37-40 | If the recorded connection is gone and nothing is under way, no event other than a shutdown ever changes that. |
| `ConsumerConnection.DrainIsSafe` | src/messaging/order-notification.consumer.ts:562-625 | If the shutdown began harmlessly, with no attempt in flight that is still dialling or whose channel is open, then after the drain no handler is running and none can start, although only a snapshot was awaited. |
| `ConsumerConnection.DrainIsSafeExactly` | src/messaging/order-notification.consumer.ts:562-625 | From a reachable state before shutdown, some continuation has a handler running after the shutdown is over if and only if the shutdown would not begin harmlessly. |
| `ConsumerConnection.ShutdownCloses` | src/messaging/order-notification.consumer.ts:575-625 | Once a shutdown is over, the channel and the connection that were recorded when it began are closed and stay so. |
| `ConnectionSteps.TimerStep` | src/messaging/order-notification.consumer.ts:169-179 | The timer starts an attempt exactly when none is under way, no channel is recorded and no shutdown has begun. |
| `ConnectionSteps.CloseStep` | src/messaging/order-notification.consumer.ts:101-146 | A close reaches registered listeners only, and a connection takes its channel with it. |
| `ConnectionSteps.ConnectionCloseStep` | src/messaging/order-notification.consumer.ts:132-146 | The recorded connection is forgotten with its channel and the timer armed; the close of another one changes nothing. |
| `ConnectionSteps.DrainedStep` | src/messaging/order-notification.consumer.ts:607-625 | The end of the shutdown clears both fields and closes exactly its channel and its connection. |
| `ProductCache.StalenessIsBounded` | src/product/product.service.ts:16-32 | If fills store within d of their read, a cached value was the database's value at some instant of the last 60 s + d. |
| `ProductCache.CacheIsCoherent` | src/product/product.service.ts:44-50 | If deletes succeed and no fill encloses an update's write-to-delete interval, the cache is empty or equal to the database outside open updates. |
| `ProductCache.StaleExactly` | src/product/product.service.ts:44-50 | Some run with exactly the spoiling events xs (lost deletes, fills that enclose an update) ends with a stale cache and no update open if and only if xs is not empty. |
| `CacheSteps.StoreStep` | src/product/product.service.ts:29-29 | A fill stores what it read for 60 000 ms, whatever is cached, or fails silently. |
| `CacheSteps.DeleteStep` | src/product/product.service.ts:47-47 | The delete of an update empties the key, or fails silently, and the fills it has overtaken are too late. |
| `ProductServices.ProductService.FindById` | src/product/product.service.ts:16-32 | Serves the cached product without touching the cache, else the database's, which it stores for 60 s if the store succeeds; fails exactly when the cache does not answer with the product and the database does not know it; other keys are unaffected. |
| `ProductServices.ProductService.UpdatePrice` | src/product/product.service.ts:44-50 | Changes one price, and then drops that product's key if the delete succeeds, so that it also drops what others have cached meanwhile; an unknown product changes nothing. |
| `ProductRaces.CachedProduct.FindById` | src/product/product.service.ts:16-32 | While others read and update the product: a hit is served without touching anything; otherwise the row is read, and what was read is stored after whatever happens meanwhile, and served. |
| `ProductRaces.CachedProduct.UpdatePrice` | src/product/product.service.ts:44-50 | While others read and update the product: the row is written first and the key deleted after whatever happens meanwhile; both calls are part of a run of the cache machine. |
| `ProductServices.KeysAreDistinct` | src/product/product.service.ts:17-17 | Different products have different cache keys. |
| `Pipeline.EveryLaneIsARun` | src/messaging/outbox-publisher.service.ts:44-79 | There is a lane exactly for every committed order, and each is a run of the delivery machine, so all its laws hold in the whole pipeline. |
| `Pipeline.EventStep` | src/messaging/outbox-publisher.service.ts:44-79 | A commit opens the order's lane at that moment, an event of a lane concerns that lane only, and time passes for the database and all lanes alike. |
| `Pipeline.EveryLaneHasItsRow` | src/order/order.service.ts:58-106 | Whatever is delivered belongs to a committed order with exactly one outbox row, written by the call that committed it. |
| `Pipeline.NoPhantomNotification` | src/order/order.service.ts:58-106 | Once a call has inserted an order, there is ever a row, copy, handler or notification for it if and only if that call has committed: a refused or rolled-back request never notifies. |
| `Pipeline.EveryOrderIsDelivered` | src/messaging/outbox-publisher.service.ts:63-79 | Every committed order is unsent, on its way or notified, and notified at most once more than its excuses. |
| `Pipeline.NotificationsAreCoveredByStock` | src/order/order.service.ts:91-103 | End to end: never more orders of a product are notified than it had pieces in stock. |

## Left out

- NestJS wiring, controllers, DTO validation, health indicators, metrics, tracing, request ids and logging: no
  effect on the state of the protocol.
- The encoding of messages and payloads, and the internals of Prisma, amqplib and the Redis client: replaced by
  the contracts above.
- The publisher's own reconnect logic in `src/messaging/rabbitmq.service.ts`: it has the consumer's shape
  without the channel listener; a publish confirms or throws here.
- Validation of outbox payloads and events of other types: the only producer creates neither.
- The swallowing `setIfAbsent`, `ping`, `findStockById` and the order lookup: unused by the pipeline, or plain reads.
- The two Redis key strings of the consumer: a lane has its own two keys, named by its order.
- The consumer tag: it is set and cleared together with the channel.
- A consumer cancelled by the broker while its channel stays open (a null message, which the source ignores).
- Liveness under unbounded faults: a negative acknowledgement can repeat for ever, so hops are bounded per message
  lineage and progress is stated as reachability.
- How long the events of a cycle take: a cycle of the publisher reads the clock once, while the delivery machine
  lets time pass between any two steps.
- CycleIsLaneRuns: does not cover an event that another instance marks during the cycle, because that is a step of
  a publisher that was at work on the lane before; the delivery machine and `CycleAmongOthers` cover it.
- The order id in a message: a copy belongs to the lane it is in.
- Database, broker and network are state machines on values; only the services that the source writes as classes
  are classes here.
- What happens while a handler or a create call waits, and how its calls end, are parameters of the methods.
- Deployment files, load tests and the seed script: no algorithmic content.
