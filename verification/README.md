# Order pipeline: a machine-checked model

The service places orders in PostgreSQL, publishes one event per order through a transactional outbox, and turns
events into notifications with a Kafka consumer. This project models those three parts, each as a concurrent
machine of small steps, joins them into one system, and proves what the design promises of every reachable state.

## How it is built

- `Prelude`, `Texts`, `Json`, `Money`, `Models`, `Backoff`, `Fingerprint`, `Events`: the pure code, down to characters;
  `KnownTexts` spells the formats out.
  Amounts are whole cents, uuids are numbers below 2^128, and the JSON reader is the one a round trip needs.
- `Orders` is order placement run alone: the loop of `_place_order` over mutable rows, and the sequential
  specification (`Spec`, `Execute`) it meets; `OrderMeaning` says what that answers and writes, column by column.
  `OrderService` is `create_order` with its two transactions.
- `OrderMachine` runs any number of calls at once under READ COMMITTED: the lookup sees committed rows, the flush
  waits for an uncommitted twin and fails on a committed one, product rows are locked in ascending id and read at
  their latest committed version, a commit may go unacknowledged, and a crash can happen anywhere. `OrderHistory`,
  `OrderTheorems` and `OrderProgress` hold the theorems.
- `Publisher` settles a batch of row objects in place. `OutboxWorker` is the claim query, one `publish_pending` cycle
  and the worker loop. `PublisherMachine` runs any number of publishers with SKIP LOCKED; every message handed to the
  producer may reach the topic at once, later, repeatedly or never. `PublisherDrain` bounds the work left.
- `Consumer` is one attempt, as functions. `ConsumerLoop` says what ends the retry loop, on its inputs alone, and
  holds the class with `handle` and `process`; `ConsumerWorker` is the loop that commits offsets. `ConsumerMachine` runs any number of consumers with rebalances, zombies and restarts.
- `Pipeline` joins the machines: a commit inserts its outbox row, a delivery appends what consumers read.
  `Projection` takes the run of one part out of a run of the whole, and `PipelineTheorems` carries the theorems over.

Methods are proved against functions (`Decide`, `Execute`, `SettleRow`, `WriteBack`, `AfterHandle`, `KindOf`, `ExitOf`) and the
machines step by those same functions. The outside world is a parameter everywhere: clocks, jitter draws, which
sends succeed, when a database commit or a send takes effect and still reports an error (`Weather`).

## Findings

- `README.md` line 53 of the repository says that with the database down the consumer retries until successful. The
  code does so exactly when the outage lasts at most 1024 attempts of one message (`RetriesUntilSuccessfulIff`): on
  failure 1025 `2.0 ** 1024` overflows, the exception leaves `process` and the worker ends with nothing stored and no
  offset moved (`StayingDownRaises`, `DatabaseDownEndsWorker`). `ExitIff` says on the inputs alone when each ending of
  the loop happens. In the publisher the same power overflows only if `max_attempts` exceeds 1025
  (`PowerNeverOverflowsIff`); such a row then rolls back every batch it is in (`OverflowRollsBack`, `StarvedByOverflow`).
- FAILED does not mean undelivered (`FailedMayBeDelivered`): it does exactly when none of the sends of the row reached
  the broker (`FailedIsUndeliveredIff`).
- One record may be both stored and dead-lettered (`StoredAndDeadLettered`), exactly when its attempts run out although
  some commit took effect or the event was there before, and the last send takes effect (`StoredAndDeadLetteredIff`).
  So "dealt with" is an inclusive or.
- The per-line stock check is right only because requests repeat no product (`LineCheckNeedsDistinct`).

## Model

| member | source | states |
|---|---|---|
| OrderTheorems.Serializable | app/services/order_service.py:56-144 | In every interleaving of any number of calls, with crashes and product insertions, the committed database is what the one-call-at-a-time specification leaves when it executes the commits in commit order, and each commit is legal there |
| OrderTheorems.Linearizable | app/services/order_service.py:56-103 | Whatever a finished call returned (order, replay, conflict or rejection) is what the sequential specification answers on the committed database as it stood at some moment between the begin and the end of that call |
| OrderTheorems.CurrentIsReplay | app/services/order_service.py:65-84 | The committed database is always the replay of its own commit history, every entry of which was legal |
| OrderTheorems.ReturnedOrderIsTheOne | app/services/order_service.py:95-103 | Whoever gets an order, as its creator or as a replay, gets the only order committed under its key, and that order has the hash of the caller |
| OrderTheorems.OneOrderPerKey | app/services/order_service.py:64-84 | Any two calls with one customer and key that get an order get the same order |
| OrderTheorems.OneCreatorPerKey | app/services/order_service.py:84 | At most one call per customer and key is told created=True |
| OrderTheorems.ConflictMeansOtherHash | app/services/order_service.py:99-103 | The key conflict is returned only when the key holds an order with another hash, an order only when its hash is the same |
| OrderTheorems.RecoveryAlwaysFinds | app/services/order_service.py:75-82 | After the unique violation the second lookup finds the order, so the re-raise at line 81 is unreachable |
| OrderTheorems.RejectedOnlyByItself | app/services/order_service.py:120-125 | A call rejected for missing products, short stock or size holds its key at that moment, no order under that key was committed at any earlier moment and no twin holds it: a duplicate never sees a false shortage |
| OrderTheorems.ReplayAnswersTheSameBody | app/api/schemas/order.py:33-45 | When request hashes are fingerprints, the order a call gets has the items of its own request up to their order |
| OrderTheorems.EveryStateBalances | app/services/order_service.py:128-138 | In every reachable state stock in hand plus units in all committed orders is the stock supplied, stock is never negative, and the books of the database are in order |
| OrderMachine.StepKeepsInv | app/services/order_service.py:56-144 | Every statement of every call, commit, rollback and product insertion keeps the invariant: the history is legal, what a call holds locked is current, reserved keys and locked rows are exclusive |
| OrderMachine.RunKeepsInv | app/services/order_service.py:56-144 | That invariant holds in every reachable state |
| OrderMachine.PlacedIsExecute | app/services/order_service.py:127-144 | What a transaction publishes, computed from the rows it locked, is the sequential specification applied to the whole database at its commit |
| OrderMachine.CurrentUnderLocks | app/repositories/product_repository.py:25-32 | With all its rows locked a call decides as on the current database, however much was committed since it began |
| OrderMachine.MissingAtSnapshot | app/repositories/product_repository.py:25-32 | A call told that products are unknown was answered as of the snapshot that fixed its product set |
| OrderProgress.NoWaitCycle | app/repositories/product_repository.py:27-30 | No chain of calls waiting for each other's key or rows closes: there is no deadlock |
| OrderProgress.BlockedMeansWaiting | app/services/order_service.py:120-123 | A call that cannot take its own step waits for another unfinished call |
| OrderProgress.SomeoneCanStep | app/services/order_service.py:120-123 | While any call is unfinished, some unfinished call can step |
| OrderProgress.StepUsesWork | app/services/order_service.py:56-144 | Every step of a call other than its beginning lowers one measure of the whole system |
| OrderProgress.FinitelyManySteps | app/services/order_service.py:56-144 | With no new arrivals the calls together take at most that measure in steps |
| OrderProgress.QuietMeansFinished | app/services/order_service.py:56-144 | Where no call can step any more, every call has finished |
| OrderProgress.CallCanBegin | app/services/order_service.py:56-63 | Any validated request may begin at any time, under ids not used before |
| OrderProgress.OwnStepNeverCrashes | app/services/order_service.py:64-84 | No step of its own ends a call without an answer: only crashes and lost acknowledgements do |
| OrderService.OrderService.CreateOrder | app/services/order_service.py:56-84 | The method over the database: with any transactions committing between lookup and flush it returns the earlier order or conflict and changes nothing, or else is exactly the specification on the database it met |
| OrderService.OrderService.PlaceAndCommit | app/services/order_service.py:105-144 | One transaction: refused and undone exactly when a committed order holds the key, else outcome and new database are those of the specification |
| OrderService.OrderService.LockByIds | app/repositories/product_repository.py:25-32 | The dictionary holds exactly the existing products among the ids asked for, each under its own id with its current price and stock |
| OrderService.AfterAllContinues | app/services/order_service.py:56-84 | The transactions other sessions commit meanwhile continue the history one after the other, none left out |
| OrderMeaning.SpecIff | app/services/order_service.py:64-84 | Which answer a call alone gets, both ways, for all databases and requests: an order under its customer and key is replayed or conflicts by its hash; else missing products, then stock line by line, then a cost above 9,999,999,999.99 reject it; else it is created |
| OrderMeaning.ExecuteWrites | app/services/order_service.py:113-144 | What a created order writes, column by column: the order, its lines at the price of the rows, the total, one order.created message of version 1, each requested stock less its quantity, nothing else; any other answer writes nothing |
| OrderMeaning.ValidIff | app/api/schemas/order.py:14-31 | A validated request is a non-empty list without repeated products, each quantity in 1 .. 1,000,000 |
| Orders.DecideIff | app/services/order_service.py:123-141 | Over all requests and tables: not found exactly when a product is missing, short exactly when all exist and a line exceeds its stock, too large exactly when all are in stock and the cost exceeds the limit, created exactly otherwise |
| Orders.TotalAdds | app/services/order_service.py:127-140 | A total starts at zero and each line adds unit price times quantity |
| Orders.CostAdds | app/services/order_service.py:138 | So does the cost of a request, at the prices of the rows |
| Orders.TotalIsCost | app/services/order_service.py:127-140 | The total of the lines written is the cost of the request at the prices of the locked rows |
| Orders.PlaceOrder | app/services/order_service.py:123-144 | On the locked rows: an order is created if and only if every product is there, every line in stock and the cost within the limit; then its total is that cost, each stock falls by what was ordered, and one event for it is added; on a rejection for missing products or short stock nothing changed |
| Orders.TakeLines | app/services/order_service.py:127-138 | The loop leaves every row with its stock less the units ordered, one line per item at the price of the locked row, and the sum of price times quantity over the request |
| Orders.MissingIsExact | app/services/order_service.py:147-150 | The not-found error lists a product exactly when the request names it and it does not exist |
| Orders.ShortagesAreExact | app/services/order_service.py:153-166 | The shortage error lists exactly the lines asking for more than is there, with the quantities requested and available |
| Orders.LineCheckNeedsDistinct | app/services/order_service.py:153-166 | Checking line by line never oversells, on any table, if and only if no product is repeated in the request |
| Orders.DistinctNeverOversells | app/api/schemas/order.py:26-31 | For a validated request the per-line check keeps every stock non-negative, so the database check never fires |
| Orders.DecideIsLocal | app/services/order_service.py:123-125 | The decision depends on the rows of the requested products alone |
| Models.RejectsExactlyRepeats | app/api/schemas/order.py:26-31 | Comparing the set with the list rejects exactly the requests in which a product appears twice |
| OrderHistory.StockIsConserved | app/services/order_service.py:128-138 | After every legal history, for every product, stock plus units sold equals stock supplied |
| OrderHistory.HistoryKeepsBooks | app/services/order_service.py:127-144 | After every legal history: stock non-negative, order lines distinct and positive, total equal to the sum of the lines, ids and keys unique, orders and events in bijection |
| OrderHistory.OrdersEventsAndMoneyAgree | app/core/events.py:19-41 | The i-th outbox row is about the i-th order, its total is the sum of unit price times quantity over the stored lines and total_amount is the exact text of that sum, and its response shows every column and line of it |
| OrderHistory.SoundOrdersRender | app/api/schemas/order.py:54-79 | Every committed order can be shown: each unit price and each line total, unit price times quantity, is at most the order total, which is within the 12 digits the schema allows, and the response carries them all |
| OrderHistory.SumAdds | app/api/schemas/order.py:60 | The sum over lines starts at zero and each line adds unit price times quantity |
| OrderHistory.FoundForGood | app/repositories/order_repository.py:26-35 | An order once committed is what the lookup by its customer and key finds ever after |
| Fingerprint.CanonicalTextIsCanonical | app/api/schemas/order.py:33-44 | The text that is hashed is equal for two valid orders if and only if the customers are equal and the items are permutations of each other, character by character |
| Fingerprint.FingerprintIsCanonical | app/api/schemas/order.py:33-45 | With a collision-free digest the same equivalence holds of the stored hash |
| Fingerprint.SortIsCanonical | app/api/schemas/order.py:36-42 | Sorting by product id text gives the same list for two lists of distinct items if and only if they are permutations of each other |
| KnownTexts.CanonicalTextLooksLike | app/api/schemas/order.py:34-44 | The hashed text, spelled out: customer_id, then the sorted items with product_id and quantity, compact |
| KnownTexts.TextLessIff | app/api/schemas/order.py:41 | Strings compare by the first character in which they differ, a proper prefix first |
| Json.ParsePrint | app/core/events.py:63 | Every document written by compact json.dumps reads back as the same value, escapes and surrogate pairs included |
| KnownTexts.FieldsLookLike | app/core/events.py:63 | Names and values are joined by colons and fields by commas, with no spaces |
| KnownTexts.EscapesLookLike | app/core/events.py:63 | Printable ASCII stays but for quotes and backslashes, everything else is escaped, above U+FFFF as a surrogate pair |
| Texts.UuidTextReadsBack | app/core/events.py:53 | The hyphenated text of a uuid (section 4 of RFC 9562) reads back as that uuid |
| KnownTexts.UuidLooksLike | app/core/events.py:53 | It is 32 hexadecimal digits with hyphens after 8, 12, 16 and 20 of them |
| Texts.UuidTextInjective | app/api/schemas/order.py:35-38 | Different uuids have different texts |
| Money.AmountReadsBack | app/core/money.py:9-10 | The two-place text of an amount determines it to the cent |
| KnownTexts.AmountLooksLike | app/core/money.py:9-10 | Whole units, a point, two digits |
| Events.EnvelopeReadsBack | app/core/events.py:51-92 | Parsing the envelope of any stored message gives back its event id, type, aggregate, version and data |
| Events.OwnEventIsDeliverable | app/core/events.py:86-101 | The service's own events are never skipped or malformed: they read back with their own event, order and customer ids whatever order the stored payload keeps its keys in |
| Events.PayloadReadsBack | app/core/events.py:19-33 | The payload carries the whole order: ids, total, timestamp and every line can be read back from it exactly |
| Events.EnvelopeIsLabelled | app/core/events.py:61-69 | Key and headers name the same order, event, type and version as the body |
| Events.LookupIgnoresOrder | app/core/events.py:95-101 | Reading a field does not depend on the order of the keys |
| Events.LookupIsLast | app/core/events.py:89-101 | A repeated field is read as its last value |
| Events.LookupIff | app/core/events.py:89-101 | A field is missing exactly when its name does not occur |
| Events.BodyOnTheWire | app/core/events.py:52-63 | The body of an envelope is an object of exactly the seven fields event_id, event_type, aggregate_type, aggregate_id, occurred_at, version and data of its message |
| Events.OrderOnTheWire | app/core/events.py:19-41 | The message of an order is an order.created of version 1 about it, with the five payload fields and, per line, product_id, quantity and unit_price |
| Events.NotAnEvent | app/core/events.py:86-92 | A body is rejected as empty exactly when it is missing or empty, and as no event exactly when it is not an object with the six typed fields of one |
| Events.ReceptionIff | app/services/notification_consumer.py:90-103 | Of the bodies that are events: another type is passed over, another version or a payload without the two ids is unreadable, everything else is delivered with its own ids and data; each both ways |
| Backoff.CeilingIsCappedDoubling | app/core/backoff.py:7-8 | For non-negative base and cap the closed form equals attempt - 1 steps of doubling stopped at the cap |
| Backoff.CeilingMonotone | app/core/backoff.py:7-8 | A later attempt never has a lower ceiling |
| Backoff.CeilingReachesCap | app/core/backoff.py:7-8 | Over the reals, with a positive base the ceiling is the cap from some attempt on |
| Backoff.CapReachedInTimeIff | app/core/backoff.py:7-8 | Some attempt reaches the cap before the power of two overflows if and only if the cap is at most base times 2^1023 |
| Backoff.RaisesFrom1025 | app/core/backoff.py:8 | The power of two is out of range exactly from attempt 1025 on |
| Backoff.KnownCeilings | app/core/backoff.py:7-8 | The ceilings listed by the unit tests of the repository |
| Backoff.JitterIsFull | app/core/backoff.py:11-20 | Every moment between now and now plus the ceiling is some draw, and no other moment is |
| Backoff.JitterWindow | app/core/backoff.py:11-20 | Every draw puts the next attempt between now and now plus the ceiling |
| Publisher.Settle | app/services/outbox_publisher.py:81-122 | For every batch and error list each row ends as its own error dictates, the three counters count the rows in each state and add up to the batch; it raises exactly when some backoff overflows |
| Publisher.MessageRow.SettleOne | app/services/outbox_publisher.py:88-114 | One row, column by column: published with its time and no error; or one more attempt and the error text, given up with its time or due again after the drawn share of the ceiling; or the overflow, exactly from attempt 1025 on |
| Publisher.SettledStatusIff | app/services/outbox_publisher.py:89-114 | Published exactly without an error, given up exactly with an error that reaches max_attempts, pending exactly otherwise |
| Publisher.CountIsSize | app/services/outbox_publisher.py:87-122 | Each counter is the number of rows of the batch that ended in its status |
| Publisher.RescheduledInWindow | app/services/outbox_publisher.py:109-114 | A rescheduled row asked the backoff for an attempt in 1 .. max_attempts - 1 and becomes due between now and now plus that ceiling |
| Publisher.PowerNeverOverflowsIff | app/services/outbox_publisher.py:96-114 | The power of two in the backoff overflows for no row and error at all if and only if max_attempts is at most 1025 |
| OutboxWorker.ClaimTakesTheFirst | app/repositories/outbox_repository.py:19-30 | The claim returns rows in id order, each with status pending, available_at not after now and no lock, and leaves out a row with all three only for a full batch of smaller ids |
| OutboxWorker.EmptyClaim | app/repositories/outbox_repository.py:19-30 | It is empty exactly when no row is pending, due and unlocked, or the batch size is zero |
| OutboxWorker.CycleWrites | app/services/outbox_publisher.py:50-79 | A cycle that takes effect settles each claimed row by its own send, by the timeout if the sends timed out, and touches no other row |
| OutboxWorker.TakesEffectIff | app/services/outbox_publisher.py:50-59 | A cycle takes effect exactly when neither a database exception rolled it back, unless only the report of the commit was lost, nor the backoff of a failed row on attempt 1025 or later |
| OutboxWorker.OutboxPublisher.PublishPending | app/services/outbox_publisher.py:50-79 | One cycle settles the whole claimed batch or nothing, raises exactly on a database failure or an overflow (a commit may take effect and still report an error), counts a timeout against every row, and hands the producer one envelope for each claimed row, in order, built from its message |
| OutboxWorker.OutboxPublisher.RunCycle | app/workers/outbox_publisher.py:43-52 | The worker sleeps for the poll interval exactly when the cycle succeeded and no pending unlocked row was due (or the batch size is zero), and for the cap exactly when the cycle failed |
| OutboxWorker.OutboxPublisher.PublishOutbox | app/workers/outbox_publisher.py:43-52 | The loop goes on through every failed cycle until the stop event; each pause answers the table its own cycle found, with other writers in between |
| OutboxWorker.OverflowRollsBack | app/services/outbox_publisher.py:109-114 | A first row in line whose backoff overflows takes the whole batch down with it |
| OutboxWorker.StarvedByOverflow | app/services/outbox_publisher.py:109-114 | While such a row stays first and its send fails, no cycle changes the table: nothing behind it is settled either |
| OutboxWorker.ScanIsClaimBatch | app/repositories/outbox_repository.py:19-30 | The machine's row-by-row locking, left alone, ends with exactly the batch the query returns |
| OutboxWorker.CycleIsMachineRun | app/services/outbox_publisher.py:50-59 | An uninterrupted machine cycle leaves the table publish_pending leaves, and hands over exactly the messages of the batch |
| PublisherMachine.StepKeepsInv | app/services/outbox_publisher.py:50-122 | Every step of any number of publishers, crashes and late deliveries included, keeps the invariant on rows, locks, topic and statuses |
| PublisherMachine.RunKeepsInv | app/services/outbox_publisher.py:50-122 | That invariant holds in every reachable state |
| PublisherMachine.WorkerCanStep | app/services/outbox_publisher.py:50-79 | With max_attempts at most 1025 a worker can always take its next step, and what it handed over may reach any partition |
| PublisherMachine.InsertWrites | app/models/outbox_message.py:46-74 | A committed event is inserted under any free id: pending, with no attempts, no error and no timestamps, due when the database says |
| PublisherMachine.ClaimsAreExclusive | app/repositories/outbox_repository.py:26-28 | Two publishers never hold the same row, and none holds a row twice or more than a batch |
| PublisherMachine.ExactAccounting | app/services/outbox_publisher.py:88-105 | In every reachable state attempts is the number of committed failed settlements of the row, a pending row has attempts left, FAILED means the limit was reached, timestamps and last_error are set exactly in their states |
| PublisherMachine.RowsMoveForward | app/services/outbox_publisher.py:88-114 | Over any stretch of any run a row keeps its message, PUBLISHED and FAILED rows never change again, and attempts and available_at never go back, even with skewed worker clocks |
| PublisherMachine.PublishedAtLeastOnce | app/services/outbox_publisher.py:58-79 | In every reachable state a PUBLISHED row has a record with its envelope on the topic, whatever subset of sends a timeout or crash let through |
| PublisherMachine.OnlyRowsArePublished | app/services/outbox_publisher.py:61-71 | Every record on the topic is the envelope of a committed row |
| PublisherMachine.OnTopicIffDelivered | app/services/outbox_publisher.py:61-79 | In every run an envelope is on the topic if and only if the broker took it in one of the steps so far |
| PublisherMachine.FailedIsUndeliveredIff | app/services/outbox_publisher.py:77-78 | A FAILED row is undelivered if and only if none of its sends ever reached the broker, reported or not |
| PublisherMachine.FailedMayBeDelivered | app/services/outbox_publisher.py:77-78 | Both happen: a concrete run ends with a FAILED row whose record is on the topic |
| PublisherDrain.OutboxDrains | app/services/outbox_publisher.py:96-115 | With any number of publishers, settlements of rows below an id never exceed the retry budget those rows had, unless smaller ids arrive |
| PublisherDrain.FinitelyManyCycles | app/workers/outbox_publisher.py:43-52 | With no new rows, the cycles that settle anything are at most as many as the retry budget of the table, however many publishers there are |
| PublisherDrain.StepSpends | app/services/outbox_publisher.py:88-115 | Each committed batch spends at least one unit of budget per settled row below the bound |
| PublisherDrain.NoStarvation | app/repositories/outbox_repository.py:19-30 | One publisher with batch size B passes a due row over in at most floor(budget of the smaller pending rows / B) committed cycles |
| PublisherDrain.CountsGrow | app/services/outbox_publisher.py:50-59 | What is counted: each settled batch is one cycle, and a pending due row it does not hold has been passed over once more |
| PublisherDrain.WeightIs | app/services/outbox_publisher.py:96-115 | The budget of a reachable row is max(1, max_attempts) less its attempts while it is pending, else nothing |
| PublisherDrain.BudgetAdds | app/services/outbox_publisher.py:96-115 | The budget below an id is nothing for an empty table, and a new row below it adds its own |
| ConsumerLoop.NotificationConsumer.Process | app/services/notification_consumer.py:54-87 | For all inputs: it returns True if and only if the message completes or is given up with its dead letter sent, raises if and only if a backoff overflows or that send fails; handle is called once per counted failure plus once if it completed; the store is that of those attempts and of the dead letter |
| ConsumerLoop.ExitIff | app/services/notification_consumer.py:54-87 | When each ending happens, on the inputs alone: it overflows if and only if one kind of failure reaches 1025 before completion, stop or the limit of unexpected ones; it gives the message up if and only if unexpected failures reach max(1, max_attempts) with neither kind overflowing before, however many transient ones came between; it completes if and only if some attempt completes before all of these |
| ConsumerLoop.AnswerIff | app/services/notification_consumer.py:54-87 | The answer on the inputs: True exactly when the message completes or is given up with its dead letter sent; an exception exactly when a backoff overflows or that send fails; False exactly when the stop event comes first |
| ConsumerLoop.LeavesOnce | app/services/notification_consumer.py:58-87 | No sequence of failures lets the loop end in two ways or at two moments |
| ConsumerLoop.RetriesUntilSuccessfulIff | app/services/notification_consumer.py:61-70 | With the database down for k attempts and then back, the message is retried until it succeeds if and only if k is at most 1024; otherwise the call raises on failure 1025 |
| ConsumerLoop.StayingDownRaises | app/services/notification_consumer.py:61-70 | With the database down for good the call raises on failure 1025, or returns False if it is stopped before, and nothing was stored |
| ConsumerLoop.ExitGrows | app/services/notification_consumer.py:54-87 | Whatever ends the call nothing stored changes or disappears, and a message it returned True for is dealt with |
| ConsumerLoop.NotificationConsumer.Retry | app/services/notification_consumer.py:54-82 | The loop itself leaves in the way and after the calls that ExitOf fixes, its two counters being the numbers of failures of each kind |
| ConsumerLoop.NotificationConsumer.Handle | app/services/notification_consumer.py:89-112 | One attempt, case by case: another type is skipped; an unreadable body is dead-lettered with its bytes and origin, or fails unexpectedly; an order is stored, or a duplicate exactly when its event id was there, or fails as the database error says; nothing else changes |
| ConsumerLoop.NotificationConsumer.InsertUnlessSeen | app/repositories/notification_repository.py:16-36 | The insert stores the row and says so exactly when the event id was not there, and never changes a stored one |
| ConsumerLoop.NotificationConsumer.SendDeadLetter | app/services/notification_consumer.py:114-133 | A dead letter with the bytes and origin of the message is appended, possibly even when the send reports an error |
| Consumer.HandleGrows | app/services/notification_consumer.py:89-112 | No attempt changes or removes anything stored; a completed one leaves its message stored, dead-lettered or of an unhandled type |
| ConsumerLoop.AttemptsGrow | app/services/notification_consumer.py:58-82 | Nor does any number of attempts |
| ConsumerLoop.StoredIff | app/services/notification_consumer.py:105-112 | A readable event is stored after any attempts if and only if it was stored before or the commit of one of them took effect, whatever it reported |
| ConsumerLoop.StoredAndDeadLetteredIff | app/services/notification_consumer.py:71-80 | A readable message ends up both stored and newly dead-lettered if and only if its unexpected failures run out, the last send takes effect, and the event was stored before or some commit took effect |
| ConsumerLoop.StoredAndDeadLettered | app/services/notification_consumer.py:71-80 | It does happen, to any readable message with a limit of at most 1025 attempts |
| ConsumerWorker.Worker.ConsumeRecord | app/workers/notification_consumer.py:55-58 | It goes on if and only if process returned True for the record and the commit of its offset succeeded; the offset moves if and only if process returned True and the commit took effect, reported or not; committed offsets stay safe either way |
| ConsumerWorker.CompletedRecordPasses | app/workers/notification_consumer.py:55-58 | A record that completes and whose offset commit succeeds is dealt with, moves the offset past it and lets the worker go on |
| ConsumerWorker.UnansweredRecordEnds | app/workers/notification_consumer.py:56-57 | A record that neither completes nor is given up with its dead letter sent ends the worker before its offset |
| ConsumerWorker.ClearWeatherGoesOn | app/workers/notification_consumer.py:52-58 | In clear weather a worker deals with every record it polls |
| ConsumerWorker.Worker.ConsumeGroup | app/workers/notification_consumer.py:55-58 | Record by record up to the first that does not pass, and no further; uninterrupted, the offset of the partition is past the whole group |
| ConsumerWorker.Worker.ConsumeBatch | app/workers/notification_consumer.py:53-58 | So for every partition of a polled batch, in turn |
| ConsumerWorker.Worker.ConsumeNotifications | app/workers/notification_consumer.py:52-58 | Batch after batch until the stop event or an interruption: uninterrupted with polls left, the stop event was set, and the offsets are past everything polled; whatever ends it, no committed offset is past an undealt record |
| ConsumerWorker.WorkerInterrupted | app/workers/notification_consumer.py:56-58 | A worker that ends other than by the stop event ends because of one polled record, for which process did not return True or whose offset commit reported an error, and it leaves offsets and stores as that record left them |
| ConsumerWorker.DatabaseDownEndsWorker | app/workers/notification_consumer.py:56-57 | With the database down for good the worker is ended by the first readable record, by the exception on failure 1025 or by the stop event before it, with nothing stored and no offset moved |
| ConsumerMachine.StepKeepsInv | app/workers/notification_consumer.py:52-58 | Polls, attempts, rebalances, restarts, crashes and commits of any number of consumers keep offset safety |
| ConsumerMachine.RunKeepsInv | app/workers/notification_consumer.py:52-58 | Offset safety, and the origin of every notification and dead letter, hold in every reachable state |
| ConsumerMachine.MemberCanStep | app/workers/notification_consumer.py:52-58 | A live consumer can always take its next step, whatever it meets, and a new one can start with any partitions |
| ConsumerMachine.ClearWeatherCommits | app/workers/notification_consumer.py:55-58 | In clear weather an attempt deals with the record in hand and the commit after it moves the offset past it |
| ConsumerMachine.NothingSkipped | app/workers/notification_consumer.py:52-58 | Below every committed offset each record is in the dead-letter topic, or of a type nobody handles, or its event id is in the notifications |
| ConsumerMachine.NothingLost | app/repositories/notification_repository.py:24-36 | Over any stretch of any run no record, notification or dead letter changes or disappears |
| ConsumerMachine.StageIsLoop | app/services/notification_consumer.py:54-82 | The machine works on a message exactly while its failures are survived, with the counts of each kind, and gives up, commits or goes down by overflow exactly when the loop of process is left that way |
| Pipeline.StepKeepsInv | app/services/order_service.py:143 | One system: each committed order has exactly one outbox row with its event, and the topic the consumers read is the one the publishers write; every step keeps this |
| Pipeline.RunKeepsInv | app/services/order_service.py:143 | It holds in every reachable state of API, publishers, log and consumers with crashes anywhere |
| Pipeline.PartsStepFreely | app/services/order_service.py:143 | Every step of a part is possible in the whole; only a commit with its outbox row and a delivery with its record are taken together |
| Pipeline.PartsAreRuns | app/workers/notification_consumer.py:30-58 | The projections of a run of the whole are runs of the three machines, and pass through the part of each of its states at an index that only grows |
| Projection.Origin | app/workers/notification_consumer.py:30-58 | Every step of a part is a step of the whole, at the matching place |
| Projection.VisitedAt | app/workers/notification_consumer.py:30-58 | Every state of the whole is met by the part, in the same order |
| PipelineTheorems.Serializable | app/services/order_service.py:56-144 | In the whole pipeline too, the committed database is the sequential specification over the commits in their order |
| PipelineTheorems.Linearizable | app/services/order_service.py:56-103 | A call of the pipeline returned what the specification gives on the committed database at some moment between its begin and its end |
| PipelineTheorems.RejectedOnlyByItself | app/services/order_service.py:120-125 | A rejected call of the pipeline holds its key, no order under it committed up to then and no twin holding it |
| PipelineTheorems.RowsMoveForward | app/services/outbox_publisher.py:88-114 | Over any stretch of a pipeline run a row keeps its message, a settled row never changes, attempts and available_at never go back |
| PipelineTheorems.FinitelyManyCycles | app/workers/outbox_publisher.py:43-52 | While no order commits, the cycles that settle anything are at most as many as the retry budget of the table |
| PipelineTheorems.NoStarvation | app/repositories/outbox_repository.py:19-30 | With one publisher in the pipeline a due row is passed over in at most floor(budget of the smaller pending rows / B) committed cycles |
| PipelineTheorems.NothingLost | app/repositories/notification_repository.py:24-36 | Over any stretch of a pipeline run no record, notification or dead letter changes or disappears |
| PipelineTheorems.NotifiedForGood | app/repositories/notification_repository.py:24-36 | An order once notified stays notified, with the same notification |
| Pipeline.RecordsAnnounceOrders | app/services/outbox_publisher.py:61-71 | Every record consumers can read is the event of a committed order |
| Pipeline.NotificationsAreTrue | app/services/notification_consumer.py:105-111 | Every notification is about a committed order, and its payload reads back as that order, the total being the sum of its lines |
| Pipeline.AtMostOneNotification | app/repositories/notification_repository.py:24-36 | An order is notified at most once however often its event was sent, read or retried |
| Pipeline.OnlyExhaustedIsDeadLettered | app/services/notification_consumer.py:71-80 | An own event reaches the dead-letter topic only after the last allowed failure, never as unreadable, with the key of its order and its body |
| Pipeline.NoSilentLoss | app/workers/notification_consumer.py:52-58 | Each committed order has one outbox row; once that row is settled and the topic is read to its end, the order is notified, or a record of its event is dead-lettered, or the row is FAILED after the last attempt |

## Left out

- Routers, dependency wiring, error-to-status mapping, settings, logging, signals and health checks: plumbing.
- Order and product listing, get_order, product creation: easy members; product insertion is only a step of the machine.
- The walk through wrapped driver exceptions in _violated_constraint: a unique violation is taken to be recognised.
- Every request the machine begins has passed validation, and its stamp (order id, event id) is new: uuid4 collisions are assumed away, and database limits on key and hash length are not modelled.
- SHA-256 is any function from text to text; lemmas about stored hashes assume it has no collisions, those about the hashed text do not.
- What pydantic coerces leniently (other uuid spellings, numeric strings, floats such as 1.0 for a version) reads as malformed here; the service never writes such values. Bytes are characters, so bodies that are not UTF-8 are not modelled.
- jsonb may reorder keys and drop duplicates: the pipeline keeps the payload as built; OwnEventIsDeliverable covers any order of its top-level keys.
- Decimal rounding: prices have two places in the database, so sums and products of cents are exact integers. The 12-digit column limit is modelled as the outcome AmountTooLarge, the exception it raises as a rejected call.
- Publisher.PowerNeverOverflowsIff: is about the power of two only; with a base and cap so large that now plus the delay passes the year 9999 the source raises as well, which the model leaves out.
- Backoff is over reals; float rounding is not modelled, the overflow of the power of two is. NoStarvation and RowsMoveForward need the settings they state (batch size at least one, base and cap not negative), which the settings class does not enforce; a negative batch size is left out.
- ConsumerLoop.NotificationConsumer.SendDeadLetter: leaves out the headers x-original-topic, which is the same for every message, and x-failed-at, which is a clock reading.
- OrderService.OrderService.LockByIds: says which rows it returns, not that they are locked in id order; the locks and their order are the steps of OrderMachine.
- OutboxWorker.OutboxPublisher.PublishOutbox: its cycles, with what each meets, are given as a list; the stop event is looked at between cycles only, as in the source.
- The idempotent producer of the broker and the order of events across partitions are not relied on; per-order event order is not claimed, each order has one event.
- Wall-clock time and fairness: drain and progress theorems bound the number of steps, not their duration.
- OrderService.OrderService.CreateOrder: lets other sessions commit only between the lookup and the flush, because a method runs alone; arbitrary interleaving is the subject of OrderMachine.
- ConsumerWorker.Worker.ConsumeNotifications: one worker that keeps its assignment; rebalances and concurrent members are the subject of ConsumerMachine.
