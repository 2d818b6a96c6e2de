# Order saga: a verified model

A trading platform of three services (Portfolio, Market and Audit) that resolve market orders by
exchanging Kafka events over one PostgreSQL database each. This project models what the services do to
tables, topics and offsets, and proves what the design relies on: interleaved transactions behave as
if run one at a time, money and asset are conserved under duplicate deliveries and crashes, the saga
comes to rest with every order resolved but for failures that are described exactly, and messages and
outcomes are lost only in these ways.

`dafny verify dfyconfig.toml` checks everything. The layers, from the bottom:

| module | what it holds |
|---|---|
| `Money`, `Pricing`, `Domain` | fixed-point arithmetic and its two roundings, the price engine, symbols and rows |
| `Transactions` | the database as a value; each transaction as a plan of writes and a reply |
| `Repo` | the same transactions as methods that update tables in place, statement by statement |
| `Ledger`, `Balances`, `Replay` | a far simpler ledger the service refines; balances from the orders table; duplicate events |
| `Interleaving`, `Serial`, `Serializability`, `Deadlocks` | the statements of many transactions interleaved under row locks |
| `Events`, `Kafka`, `Audit` | topics and partitions, the consumer loop and its offsets, the audit log |
| `Saga`, `SagaProperties`, `Reasons`, `Quiescence`, `Outcomes` | the choreography as a step system with crashes and redelivery |
| `Trace`, `Composition`, `Converse` | the saga with its transactions taken apart into interleaved statements |
| `Delivery`, `Rest`, `Recovery` | the saga over real consumers, with partitions, commits and restarts: the cluster |
| `Chronicle`, `Platform`, `Coverage` | both at once: interleaved statements over real consumers reach exactly what the cluster reaches |
| `Services`, `Consumers` | the handlers and the consumer loop as code over a database and a broker, doing exactly what the step systems say |

Units: prices are integers in 10^-2, stored cash and quantities in 10^-10 (`NUMERIC(38, 10)`), values in
10^-12, requested quantities in 10^-28. Identifiers are naturals.

## Where the code and its documentation differ

- "On `Err` the message is left uncommitted and will be redelivered" (`shared/src/kafka.rs:123-125`)
  holds of a message exactly while the committed offset has not passed it
  (`Kafka.RedeliveredExactly`); a success behind the failure takes the offset past it, and three steps are
  enough (`Kafka.FailureSwallowed`). Nor does the loop "retry" (`shared/src/kafka.rs:153-157`) before a
  restart: a message it has gone past is not handled again (`Kafka.RetriedOnlyAfterRestart`). What does
  hold is `Kafka.CommittedWasHandled`, and for the whole saga `Delivery.NoOrderForgotten`,
  `Platform.NoneForgotten` and `Recovery.RestartRecovers`.
- The audit log holds exactly the events whose handler has returned Ok (`Audit.RecordedExactly`). It shows
  a prefix of a partition exactly while nothing was recorded past an unrecorded offset
  (`Audit.PrefixExactly`); one failure and one success behind it leave a gap (`Audit.PrefixBroken`).
- "Exact decimal money" (`README.md:140`) is exact for holdings. A trade moves cash by exactly its value
  if and only if price times quantity is a whole number of 10^-10 (`Balances.FillIsExact`), and a user's
  cash stays exact throughout if and only if that is so of every trade (`Balances.ExactRun`), as it is
  when quantities have at most eight decimals (`Balances.CoarseIsWhole`). A purchase of 10^-10 at 1.50 is
  the smallest that is not exact (`Balances.InexactPurchase`). Cash drifts by at most half of 10^-10 a
  trade (`Balances.CashDrift`).
- Row locks prevent double-spending (`README.md:145-147`), as `Serializability.Serializable` proves,
  though neither in commit order (`Deadlocks.CommitOrderIsNotSerial`) nor without deadlocks
  (`Deadlocks.DeadlockArises`).
- `NewOrder::validate` looks at the text as sent, so a symbol of blanks passes and becomes empty
  (`Transactions.ValidatedSymbol`, `Transactions.BlankSymbolPasses`); and a positive quantity below half
  of 10^-10 passes validation and is refused by the column's CHECK (`Transactions.StoredQuantity`,
  `Transactions.TinyQuantityRefused`).
- A quote is documented as within 2% of its base. After rounding to cents that is so of every draw exactly
  for bases that satisfy `Pricing.BandSafe`, which ADA's does not (`Pricing.BandExact`,
  `Pricing.DefaultCatalog`).
- An outcome event dropped between commit and send (`README.md:152-154`) is not merely late: no later run
  publishes it (`Outcomes.DroppedIsLost`), and every accepted order for a listed symbol can lose its
  outcome so (`Outcomes.LossArises`).
- `seed_demo` is called safe to run on every startup (`portfolio-service/src/repo.rs:368-369`). Once
  completed it changes nothing again (`Repo.SeedAgainIsIdle`); but where it has not completed before the
  first trade, balances depend on when it does, not on the orders alone (`Balances.DeterminedIffSeeded`,
  `Balances.SeedAfterBuying`).

## Assumptions

PostgreSQL runs at READ COMMITTED; a locking read or an insert of an uncommitted key waits and then sees
the latest committed row; assignment to NUMERIC rounds half away from zero. Event and order ids are
fresh. The engine's catalogue and failing set do not change while the services run. Values fit `Decimal`
and NUMERIC. Initially there are no orders and no processed events (`Saga.FreshDatabase`).

A message is not acknowledged while a transaction for it is in flight, and a handler's transaction
commits only while its message is unacknowledged: in `Composition` commits do not pass such a message,
in `Platform` the handler keeps its consumer at it, and in `Saga` a transaction needs an open message. So
a consumer that has lost its partition in a rebalance, and whose handler commits after another consumer
has taken the committed offset past the message, makes no move of these models.

## Model

| member | source | states |
|---|---|---|
| Serializability.Serializable | portfolio-service/src/repo.rs:174-336 | any statement-level interleaving of any number of the two saga transactions, POST inserts and seeds, with aborts anywhere, leaves the tables and the replies of its returned transactions run one at a time in the order of their times |
| Serializability.CommitPlaces | portfolio-service/src/repo.rs:187-200 | where a commit stands in that order: last, unless a locking read found no row, and then exactly at that read, before everything later than it |
| Serializability.ChecksNeverFire | portfolio-service/migrations/0001_init.sql:10-32 | in no interleaving can any statement of a saga transaction hit a missing portfolio row or a CHECK, in spite of rounding after the affordability check |
| Serializability.InterleavingsBalance | portfolio-service/src/repo.rs:207-304 | in every committed state of every interleaving each balance is its opening plus what the orders table says; once the demo seed has completed the openings are those of the start |
| Serializability.InterleavingsAgree | portfolio-service/src/repo.rs:207-304 | so two interleavings that reach equal orders tables reach equal balances |
| Deadlocks.ReachableCycles | portfolio-service/src/repo.rs:212-279 | every wait-for cycle has exactly two members: a BUY holding the portfolio row and a SELL holding the holding row of the same user and symbol, each wanting the other's; no waiter for an event key or an order row is in one |
| Deadlocks.DeadlockArises | portfolio-service/src/repo.rs:210-279 | any covered BUY and covered SELL of one user and symbol, on different events, can reach such a cycle |
| Deadlocks.CommitOrderIsNotSerial | portfolio-service/src/repo.rs:255-262 | a SELL that found no holding, overtaken by a BUY that creates it, commits last and is refused, while behind that BUY it would have been filled |
| Repo.Database.ApplyPriceQuoted | portfolio-service/src/repo.rs:174-304 | the in-place statements, with rollback on error, leave exactly the tables of the transaction's plan and return its reply |
| Repo.Database.ApplyOrderRejected | portfolio-service/src/repo.rs:310-336 | marks a CREATED order rejected once, and otherwise touches the event ledger at most |
| Repo.Database.MarkProcessed | portfolio-service/src/repo.rs:153-163 | the event is in the ledger afterwards, and the answer says whether it was new |
| Repo.Database.MarkExecuted | portfolio-service/src/repo.rs:338-351 | exactly one row changes, in status and price |
| Repo.Database.MarkRejected | portfolio-service/src/repo.rs:353-366 | exactly one row changes, in status and reason |
| Repo.Database.CreateOrder | portfolio-service/src/repo.rs:114-130 | inserts one CREATED row with the request's user, symbol and side and the rounded quantity, exactly when the id is new, the user exists and at least half a column unit is asked for; otherwise nothing |
| Repo.Database.SeedDemo | portfolio-service/src/repo.rs:370-400 | always succeeds; afterwards the demo user is there, with 100 000 of cash and one BTC unless those rows were there, and nothing else has changed |
| Repo.SeedAgainIsIdle | portfolio-service/src/repo.rs:368-400 | once it has completed, running it again changes nothing, whatever ran in between |
| Repo.Database.GetPortfolio | portfolio-service/src/repo.rs:25-57 | nothing exactly without a portfolio row; otherwise the stored cash and exactly the holdings above zero |
| Transactions.SettleFills | portfolio-service/src/repo.rs:218-287 | a covered quote executes its order and moves one balance by the half-down or half-up rounded value and one holding by the quantity, and nothing else |
| Transactions.BuyMeaning | portfolio-service/src/repo.rs:207-252 | a new quote for a CREATED BUY executes exactly when the cash covers price times quantity; then cash falls by the value to the nearest unit, ties down, the holding of the normalised symbol rises by the quantity, the row gets status and price, and the reply says so; otherwise the row is rejected for that value and that cash, and nothing else moves |
| Transactions.SellMeaning | portfolio-service/src/repo.rs:253-304 | a new quote for a CREATED SELL executes exactly when the holding covers the quantity; then the holding falls by it, cash rises by the value to the nearest unit, ties up, and the row gets status and price; otherwise the row is rejected for that holding |
| Transactions.PlaceMeaning | portfolio-service/src/repo.rs:114-130 | an insert commits exactly when the id is new, the user exists and at least half a column unit is asked for, and stores the requested user, symbol and side, the quantity to the nearest unit, CREATED, no price and no reason |
| Transactions.SettleRefuses | portfolio-service/src/repo.rs:245-252 | an uncovered quote rejects its order for a true shortage, the detail naming what was needed and what there was, and moves no balance |
| Transactions.SettledIsIdle | portfolio-service/src/repo.rs:182-205 | a duplicate event, and one whose order is unknown or terminal, changes the event ledger at most |
| Transactions.ApplyKeepsWellFormed | portfolio-service/migrations/0001_init.sql:10-36 | every transaction keeps: a price exactly when EXECUTED, a reason exactly when REJECTED, never PRICED, normalised holding symbols, and a portfolio row for every order's user, without which a SELL's credit would vanish |
| Transactions.ApplyOnward | portfolio-service/src/repo.rs:182-205 | no transaction changes a terminal row, a request once stored, or forgets an event |
| Transactions.StoredQuantity | shared/src/domain.rs:186-194 | the stored quantity is within half a column unit of the requested one, and the column refuses a validated request exactly when it asks for less than half a unit |
| Transactions.TinyQuantityRefused | portfolio-service/migrations/0001_init.sql:30 | the smallest positive quantity passes validation, is stored as zero and refused by the column, whatever the tables |
| Transactions.ValidatedSymbol | shared/src/domain.rs:186-194 | validation lets an empty symbol through exactly when the text is all blanks |
| Transactions.BlankSymbolPasses | shared/src/domain.rs:186-194 | an order for a symbol of one blank passes validation and its row's symbol is empty |
| Domain.NormalizeFixedPoint | shared/src/domain.rs:24-27 | trimming and upper-casing is idempotent, and its fixed points are exactly the strings without outer blanks and lower-case letters |
| Domain.TrimmedMeaning | shared/src/domain.rs:24-27 | trimming leaves exactly the stretch between the outer blanks |
| Domain.NormalizeMeaning | shared/src/domain.rs:24-27 | of that stretch, letter by letter, a lower-case letter becomes the capital at its place in the alphabet and every other character stays |
| Domain.SameHolding | portfolio-service/migrations/0001_init.sql:18-23 | two orders share a holdings row if and only if they are of one user and their symbols, trimmed, are equal up to case |
| Ledger.Refines | portfolio-service/src/repo.rs:153-205 | every transaction is one posting that a simple ledger allows: open a ticket, resolve an open one once, and move money and asset only when filling |
| Ledger.RunRefines | portfolio-service/src/saga.rs:16-61 | any run with duplicate events, several quotes for an order and late rejections is a run of that ledger |
| Ledger.ResolvedOnce | portfolio-service/src/repo.rs:323-366 | in any run each order is resolved at most once |
| Balances.BalancesOverRun | portfolio-service/src/repo.rs:207-304 | after any run each holding is its opening plus bought minus sold quantities exactly, and each cash balance its opening minus half-down-rounded purchases plus half-up-rounded sales |
| Balances.WeightMeaning | portfolio-service/src/repo.rs:207-304 | what each row adds to those sums: nothing unless EXECUTED; a purchase its value in cash units, to the nearest with ties down, and its quantity; a sale likewise with ties up; and only for its own user and its own symbol |
| Balances.BalancesFromOrders | portfolio-service/src/repo.rs:207-304 | equal openings and orders tables give equal balances, in whatever order trades executed |
| Balances.DeterminedIffSeeded | portfolio-service/src/repo.rs:368-400 | from given tables, any two runs that end with equal orders tables end with equal balances if and only if the demo seed has completed before |
| Balances.SeedAfterBuying | portfolio-service/src/repo.rs:388-396 | a purchase of the demo asset before its holding is seeded loses the seeded quantity: equal orders, different holdings |
| Balances.CashDrift | portfolio-service/migrations/0001_init.sql:12 | stored cash is within half a unit a trade of exact decimal cash |
| Balances.FillIsExact | portfolio-service/src/repo.rs:218-279 | one trade moves stored cash by exactly its value if and only if the value is a whole number of cash units |
| Balances.ExactRun | portfolio-service/migrations/0001_init.sql:12 | from the first order on, a user's cash is exact after every transaction if and only if each of the user's executed trades has a whole value |
| Balances.InexactPurchase | portfolio-service/src/repo.rs:218-226 | a purchase of 10^-10 at 1.50 takes one unit of cash for a value of one and a half |
| Balances.BuyThenSell | portfolio-service/src/repo.rs:207-279 | buying and selling back at one price restores the holding and returns the cash, plus one unit exactly when the value falls on a rounding tie, and touches no other balance |
| Balances.SplitOrders | portfolio-service/src/repo.rs:207-304 | one order, or k orders of the same total quantity executed at the same price: equal holdings, cash at most (k+1)/2 units apart, and no other balance differs |
| Money.RoundHalfAwayMeaning | portfolio-service/migrations/0001_init.sql:12 | the column's rounding yields a number if and only if it is nearest, ties away from zero |
| Money.RoundHalfEvenMeaning | market-service/src/price.rs:97 | `round_dp` yields a number if and only if it is nearest, ties to even |
| Money.RoundTrip | portfolio-service/src/repo.rs:219-276 | a debit followed by the same credit returns the balance, plus one exactly on a tie |
| Money.SplitDrift | portfolio-service/migrations/0001_init.sql:12 | rounding the parts of a sum instead of the sum, half down or half up, changes the total by at most (k+1)/2 units for k parts |
| Replay.RepeatsChangeNothing | portfolio-service/src/repo.rs:151-205 | any delivered stream with arbitrary repeats leaves the tables and the published outcomes of its first deliveries alone |
| Replay.FirstsAreDistinct | portfolio-service/migrations/0002_processed_events.sql:1-7 | those first deliveries hold every delivered event exactly once |
| Pricing.QuotePositiveAndClose | market-service/src/price.rs:92-98 | every quote is at least a cent and within half a cent of the exact jittered price |
| Pricing.QuoteMonotone | market-service/src/price.rs:92-98 | quotes never fall when base or draw rises |
| Pricing.BandExact | market-service/src/price.rs:92-98 | every quote of a base lies in the 2% band if and only if the base is band-safe |
| Pricing.BandMissedByHalfACent | market-service/src/price.rs:92-98 | no quote misses the band by more than half a cent |
| Pricing.DefaultCatalog | market-service/src/price.rs:101-113 | the listed symbols are normal and have these prices, and all but ADA are band-safe |
| Kafka.CommittedWasHandled | shared/src/kafka.rs:126-162 | over any receives, failures, lost commits and restarts, every offset below the committed one had its handler run, and had it return Ok unless a later success overtook its failure |
| Kafka.RedeliveredExactly | shared/src/kafka.rs:123-159 | a message not yet handled can still be handled if and only if the committed offset has not passed it |
| Kafka.RetriedOnlyAfterRestart | shared/src/kafka.rs:147-158 | without a restart, a message is ever handled with Ok if and only if it has been or the loop has not gone past it |
| Kafka.FailureSwallowed | shared/src/kafka.rs:123-159 | one failure, one success behind it and one commit lose the failed message for ever |
| Audit.RecordedExactly | audit-service/src/repo.rs:23-43 | over any failures, lost commits, restarts and replays, the log holds the event at an offset exactly when its handler has returned Ok, each event once, and nothing that was not published |
| Audit.PrefixExactly | audit-service/src/main.rs:74-106 | over all such runs, the log restricted to a partition is a prefix of it, in order, if and only if nothing was ever recorded past an unrecorded offset |
| Audit.PrefixBroken | audit-service/src/main.rs:74-106 | one failure and the success behind it leave the later event recorded and the earlier one not |
| Audit.PartitionPrefix | audit-service/src/repo.rs:23-43 | with handlers succeeding on a partition, after any lost commits, restarts and replays, the log restricted to it is exactly the prefix received, in order, and each event occurs in it once |
| Audit.ListingCommutes | audit-service/src/repo.rs:46-55 | an order's listing of the deduplicated stream is the deduplication of its own stream |
| Audit.ListingInTopicOrder | audit-service/src/repo.rs:45-55 | where nothing was recorded past an unrecorded offset of the partition, an order's listing shows its recorded events of one topic in the order they were published |
| Audit.AuditLog.Record | audit-service/src/main.rs:74-106 | appends a row, with the label of the event's topic, exactly when no row has the id |
| Audit.AuditLog.ListForOrder | audit-service/src/repo.rs:46-55 | the loop over rows returns exactly the order's rows, in the order they were recorded |
| Saga.NextKeepsInv | portfolio-service/src/saga.rs:16-69 | every step of the saga, crash and redelivery included, keeps its invariant: events true of their rows, distinct ids, one outcome an order, processed events terminal, handled messages answered |
| SagaProperties.WorldRefinesLedger | portfolio-service/src/saga.rs:16-69 | the saga with duplicate deliveries, several quotes an order and crashes anywhere leaves a database that the simple ledger allows |
| SagaProperties.WorldBalances | portfolio-service/src/repo.rs:207-304 | in every reachable world each balance is its opening plus what the orders table says; once the demo seed has completed the openings are those of the start |
| SagaProperties.WorldsAgree | portfolio-service/src/repo.rs:207-304 | so two worlds with equal orders tables have equal balances, whatever was delivered how often |
| SagaProperties.EventsAreTrue | portfolio-service/src/main.rs:137-150 | every event on any topic names an order already committed and is true of its row: creations copy it, quotes are of its symbol, which is listed and not failing, at a price some draw gives its base; executions agree with it field by field, rejections give the cause by catalogue and failing set, or the stored reason of a real shortage; event and holding symbols are normalised |
| Saga.AnswerMeaning | market-service/src/price.rs:60-98 | Market's answer rejects a failing symbol, listed or not, quotes a listed one within half a cent of its base moved by the draw and at least a cent, and rejects any other as unknown |
| Reasons.ReasonIsTrue | portfolio-service/src/repo.rs:353-366 | the stored reason of every REJECTED order in every reachable world is true: a symbol in neither the catalogue nor the failing set, a failing one, or a shortage, on the order's side and for a symbol Market quotes, of cash for its quantity at a price some draw gives or of its quantity of the asset |
| Reasons.ReasonWasTold | portfolio-service/src/saga.rs:44-69 | over any run that reason is the detail of a rejection of the order that has been published, is being sent, or was dropped between commit and send |
| SagaProperties.ExecutedNearBase | market-service/src/price.rs:60-98 | every executed order is for a symbol that is listed and not failing, and was executed at a positive price that misses the 2% band around the listed base by half a cent at most |
| SagaProperties.RowsAndLedger | portfolio-service/migrations/0002_processed_events.sql:4-7 | every processed event belongs to a terminal order; every row is CREATED, EXECUTED or REJECTED, with a price exactly when EXECUTED and a reason exactly when REJECTED, and is terminal exactly in those two |
| SagaProperties.AtMostOneOutcome | portfolio-service/src/saga.rs:22-59 | Portfolio publishes at most one outcome an order over any run |
| SagaProperties.NeverBoth | market-service/src/price.rs:60-69 | no order has both an execution and a rejection published, however often Market answered it |
| SagaProperties.ExecutionIsForEver | portfolio-service/src/saga.rs:22-43 | a published execution agrees field by field with its row, now and after any further run |
| SagaProperties.OwnRejectionIsIdle | portfolio-service/src/main.rs:49-52 | Portfolio consuming its own rejection changes the event ledger at most, and the stored reason is the published one |
| SagaProperties.CreatedHasToken | portfolio-service/src/main.rs:137-150 | every CREATED order has a POST still to send or an unacknowledged message, unless its POST died unsent or a message was passed over unhandled |
| SagaProperties.TokenResolves | market-service/src/main.rs:89-133 | with delivery in any order, a CREATED order can still be resolved by some run if and only if it has such a token |
| SagaProperties.NothingOutstanding | portfolio-service/src/main.rs:137-150 | when nothing is outstanding, every order not given up is terminal |
| SagaProperties.OutcomePublishable | portfolio-service/src/saga.rs:22-59 | the outcome of a terminal order can be published by some run if and only if it has been, or its handler is still between commit and send |
| Quiescence.QuietFalls | portfolio-service/src/saga.rs:16-69 | with delivery in any order, a weighted count of outstanding sends and messages falls with every successful step that is no new POST and handles no message handled with Ok before |
| Quiescence.Quiesces | portfolio-service/src/main.rs:79-89 | such a run takes at most that many steps, own rejections included, and where it cannot go on, no outcome waits to be sent and every order is terminal or had been given up |
| Quiescence.Drains | portfolio-service/src/saga.rs:16-69 | and from every reachable world such a run to rest exists |
| Outcomes.OutcomesAtRest | portfolio-service/src/saga.rs:22-59 | at rest exactly these orders have an outcome published: those that had one or were about to when the run began, and those a quote has settled during it |
| Outcomes.DroppedIsLost | README.md:152-154 | an outcome dropped between commit and send is published by no later run, and a run to rest without it exists |
| Outcomes.LossArises | portfolio-service/src/saga.rs:22-43 | such a loss is reachable for every accepted order of a listed symbol |
| Composition.WholeRefinesSaga | portfolio-service/src/repo.rs:174-336 | with transactions taken apart into statements that interleave with one another and with sends, deliveries, crashes and commits, the database, the log, what is unsent, being sent, handled, acknowledged and given up are those of a reachable world of the saga |
| Composition.BeginAllowed | portfolio-service/src/repo.rs:180 | after any such run a transaction may begin for every open message for Portfolio |
| Converse.SagaIsCovered | portfolio-service/src/repo.rs:174-336 | conversely every run of the saga is a run of statements, begun, run and committed one transaction at a time |
| Converse.SameWorlds | portfolio-service/src/repo.rs:174-336 | so the two reach exactly the same worlds, but for the list of transactions so far |
| Services.EventProducer.Send | shared/src/kafka.rs:60-78 | an accepted event is appended, under a fresh id, to the one partition of its key; a refused one changes nothing |
| Services.PortfolioService.CreateOrder | portfolio-service/src/main.rs:121-157 | refuses an empty symbol or a quantity not positive, then a user without a portfolio, then what the insert refuses, and changes nothing; otherwise stores the order as requested and, before it replies that it is placed, publishes one OrderCreated with the request's user, normalised symbol and side and the stored quantity; when that send fails, the row stays and nothing is published. These are the saga's moves for a POST |
| Services.PortfolioService.OnPriceQuoted | portfolio-service/src/saga.rs:16-61 | commits the transaction of this order, event and price, then publishes exactly what it returned, field by field; Ok exactly when the transaction did not fail and the outcome, if any, was accepted. These are the saga's moves for a quote |
| Services.PortfolioService.OnOrderRejected | portfolio-service/src/saga.rs:65-69 | rejects a CREATED order with the event's detail, publishes nothing, and is the saga's one move for a rejection |
| Services.PortfolioService.Dispatch | portfolio-service/src/main.rs:79-89 | routes by topic to those two; a message of another topic changes nothing |
| Services.MarketService.OnOrderCreated | market-service/src/main.rs:89-133 | when accepted, publishes one answer for the order per delivery: MarketUnavailable for a failing symbol, else a quote at the listed base moved by the given draw, else UnknownSymbol; Ok exactly when accepted. This is the saga's move |
| Consumers.EventConsumer.Handle | portfolio-service/src/main.rs:79-89 | calls the handler of the message's topic: an OrderCreated is answered by catalogue and failing set, a quote commits its transaction and publishes what that returned, a rejection is stored; each with Ok exactly when its work is done |
| Consumers.EventConsumer.Deliver | shared/src/kafka.rs:138-159 | the message at the consumer's position is handled so; the position moves on, and the commit of its offset is queued exactly when the handler returned Ok; without a message nothing happens |
| Consumers.EventConsumer.Run | shared/src/kafka.rs:126-162 | the loop over all that comes, with real handlers, leads from turn to turn as the next five rows say, and leaves database, topics and cursors where the corresponding story of the cluster has them |
| Consumers.MessageTurn | shared/src/kafka.rs:138-159 | a message's turn moves its cursor past it and queues its commit exactly when the answer was accepted, the quote's transaction did not fail and its outcome was accepted, or it was a rejection |
| Consumers.CreatedTurn | market-service/src/main.rs:89-133 | the turn of an OrderCreated publishes exactly Market's answer by catalogue, failing set and draw |
| Consumers.QuotedTurn | portfolio-service/src/saga.rs:16-61 | the turn of a quote leaves the tables of its transaction and publishes exactly its outcome |
| Consumers.RejectedTurn | portfolio-service/src/saga.rs:65-69 | the turn of a rejection leaves the tables of its transaction and publishes nothing |
| Consumers.OtherTurn | shared/src/kafka.rs:138-159 | a turn without a message changes nothing; a commit that lands becomes the committed offset, a lost one is forgotten |
| Consumers.EventConsumer.Resume | shared/src/kafka.rs:105-118 | a new process resumes every partition at its committed offset with no commit under way, which is where the cluster stands after a restart |
| Delivery.ClusterRefinesSaga | shared/src/kafka.rs:126-162 | every run over partitions, positions, commits, losses and restarts is a run of the saga, with exactly the messages below the committed offsets acknowledged |
| Delivery.AbandonedExactly | shared/src/kafka.rs:123-159 | the orders given up are exactly those whose POST died between insert and send, and those a message of which the committed offset passed though no delivery of it was handled |
| Delivery.NoOrderForgotten | shared/src/kafka.rs:123-159 | once every consumed message is committed and no POST is under way, an order is terminal unless it is one of those |
| Rest.ProgressFalls | shared/src/kafka.rs:126-162 | over the real consumers, a bound on the steps left falls with every successful step of a service, a consumer or the broker |
| Rest.ComesToRest | shared/src/kafka.rs:147-158 | without restarts such a run ends within that bound with nothing to send, commit or receive, and every order is then terminal, or its POST died, or the consumer has gone past a message of it that was never handled |
| Rest.StuckIffIdle | shared/src/kafka.rs:126-162 | the consumers can go on exactly while something is left to send, commit or receive |
| Recovery.RestartRecovers | shared/src/kafka.rs:105-118 | from any point, a restart of every consumer and successful steps commit every message and make every order terminal, except those whose POST had died and those a message of which the committed offset had passed unhandled before |
| Recovery.TokenRecovers | shared/src/kafka.rs:123-159 | with the real consumers, too, a CREATED order can still be resolved if and only if it has a live token |
| Platform.PlatformRefinesCluster | portfolio-service/src/repo.rs:174-336 | statements of any transactions, interleaved with one another and with sends, receives, returns, commits and restarts of the real consumers, lead to the database, topics, sends, progress of handlers and cursors of a story of the cluster with each transaction one step, in which the same POSTs die |
| Platform.BeginAllowed | portfolio-service/src/saga.rs:16-22 | after any such run a handler that has received a message for Portfolio and done nothing yet may begin its transaction |
| Platform.GivenUpExactly | shared/src/kafka.rs:123-159 | over all such runs an order is given up exactly when its POST dies, or the committed offset passes an unhandled message of it |
| Platform.NoneForgotten | shared/src/kafka.rs:123-159 | and once every consumed message is committed and no POST is under way, every other stored order is terminal |
| Coverage.ClusterIsCovered | portfolio-service/src/repo.rs:174-336 | conversely every story of the cluster is a run of statements, begun, run and committed one transaction at a time |
| Coverage.SameReached | portfolio-service/src/repo.rs:174-336 | so the two reach exactly the same, but for the list of transactions so far |

## Left out

- HTTP routing, status codes, health and readiness, telemetry, signals, environment and migrations running: plumbing.
- `get_order`, `symbols`, `price` and `all_prices`: reads that only add easy members.
- Repo.Database.GetPortfolio: returns the holdings as a map, because their order by symbol is the collation of the database, which the repository does not fix.
- Domain.NormalizeFixedPoint: knows ASCII blanks and letters only, because Unicode's tables are not in the repository.
- Domain.TrimmedMeaning: ASCII blanks only, for the same reason.
- Domain.NormalizeMeaning: ASCII letters only, for the same reason.
- Kafka and PostgreSQL themselves: partitions are logs with positions and commits, transactions are statements under row locks with an abort at any point. Deadlock detection is such an abort.
- Foreign-key share locks on `users`: no transaction of the services updates or deletes a user.
- The partition hash: any fixed function of topic and key would do; `order % 3` stands in for it.
- Several consumers of one partition at the same moment, as may happen during a rebalance: a `Delivery` partition has one consumer at a time, though its partitions may move with `Restarts`. `Saga` and `Composition` allow any number of deliveries of an unacknowledged message at once, so what holds of every reachable world covers such consumers within the assumption on acknowledged messages above.
- `Rest` and `Recovery` count a transaction as one step, so their bounds are on handlers' transactions, not on statements.
- Fairness: `Rest` and `Quiescence` speak of runs of successful steps and of where they end, not of when a scheduler takes them.
- `recv_event`: unused by the services.
- JSON, envelopes' version and time. An undecodable message, or an audit insert that fails, is a handler that returns Err without having done anything (`Returned(_, false)` in `Delivery`, `Fail` in `Audit`).
- Decimal's 96-bit mantissa, NUMERIC overflow, and decimals finer than 10^-28.
- The random generator: a draw is any whole number of basis points in the band, given to `Services.MarketService.OnOrderCreated`.
- Rejection details are kept as the values they are formatted from, and sides and statuses as constructors rather than strings.
- `reserved_cash`, timestamps and the `users` table beyond its keys carry no property.
- The order of events across topics, freedom from deadlock, guaranteed handling and guaranteed publication: the code does not provide them.
- Repo.Database.ApplyPriceQuoted: runs its transaction alone; interleaving is modelled in `Interleaving`, over the same plans.
- Consumers.EventConsumer.Run: one loop stands for the Portfolio and the Market consumers; Audit's is in `Audit`.
