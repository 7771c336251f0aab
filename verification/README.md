# Stock ledger and reservation engine, verified model

This project models the core of the inventory service in Dafny 4.11 and proves its safety properties:
the five tables (warehouses, balances, reservation headers, reservation lines, movement ledger), the six
commands that change them (Reserve, Release, Commit, ReceiveStock, AdjustOnHand, SetSafetyStock), the
encodings and loops those commands rest on, and the availability answers that must agree with Reserve.
`dafny verify dfyconfig.toml` checks everything.

## Layers

1. **Events** (`Tables`, `Posting`, `Invariants`, `Preservation`, `Ledger`, `Redeem`). A committed command is an
   event; `Legal` is what the schema and the statements demand of it, `Apply` the rows it writes. The invariant
   across the tables is proved for every run of legal events, and accounting, audit, lifecycle and
   redeemability are read off it.
2. **Commands** (`Commands`, `Columns`, `Outcomes`, `Idempotency`, `RedeliveryLimits`). `Decide` says which event, if
   any, a command commits on a state and what it answers; `Columns` reads cover, choice and shortage off the table
   columns, and `Outcomes` says, for each command and every state, what has changed and what is answered, in those
   terms. Idempotency and exactly-once delivery are theorems about whole runs of commands, and the two redeliveries
   they leave out have their exact conditions.
3. **Code** (`Aggregation`, `Canonical`, `Reservations`, `ReservationWrites`, `ReservationStore`, `StockCommands`,
   `Availability`, `Service`). The Go loops and methods in imperative form. The repository classes work on a pool
   holding the committed tables, keep a working copy as their transaction, and are proved to leave exactly the
   tables and the answer that `Decide` gives.
4. **Concurrency** (`Machine`, `Interleaving`, `Progress`, `Refinement`, `Concurrency`, `Answers`, `Deadlock`,
   `Alone`, `Steering`, `DeadlockLimits`, `RefusalLimits`). Each transaction is a program of statements with a private
   write set, held locks, waits, an abort possible at any point and an answer that may be lost. Every schedule is shown
   to be an atomic run in commit order, with every answer accounted for, and to deadlock only on a squatted ledger id;
   a transaction nobody disturbs is shown to do what layer 2 says. `Steering` builds schedules, with which the last two
   modules show what does go wrong, and exactly when: deadlocks on squatted ids, refusals beside available stock, holds
   above the lowest warehouse.

## What is assumed about Postgres

* READ COMMITTED: the service starts its transactions without naming a level. Each statement reads the latest
  committed rows and its own writes; a statement that had to wait reads after the wait.
* Row locks and inserted unique keys are held until the transaction ends. An insert that meets an uncommitted equal
  key waits; then it finds it committed, or free. `SELECT ... FOR UPDATE` with an `ORDER BY` locks row by row in that
  order, over the rows its own snapshot shows; an uncommitted row is not there to be locked.
* CHECKs, keys and column widths are enforced per statement, and a failing statement ends the transaction.
* `INSERT ... ON CONFLICT (id) DO NOTHING` is three steps: look for a conflicting id and wait out an uncommitted one;
  enter the id in the primary key; enter the order in its unique index. That is how a twin of the same request can die
  on the order index. A lost speculative entry blocks nobody, and a claim that meets a status update in progress may
  read either side of it (in Postgres it waits, holding nothing).
* Timeouts, serialization and deadlock aborts, cancellations and connections lost before COMMIT are one action: a
  transaction may be aborted at any statement. A connection lost while COMMIT succeeds is another: the effect stays
  and the caller gets an error.

## Where the comments and the code differ

The code is followed in each case.

* A command id reused with a different command is documented as a conflict. For SetSafetyStock a different quantity is
  a replay, because the ledger row does not carry it (`StockCommands.ReusedId` gives the exact condition).
* The order race is documented as either a twin (replay) or another id (conflict). A twin with a different request under
  the same id is a conflict too (`Idempotency.OrderRaceVerdict`).
* "No single active warehouse can fulfil" and "lowest-id fulfilling warehouse" hold on one state and for an undisturbed
  transaction. Under contention a booking re-checks only the warehouse its scan chose. So it may be refused while another
  warehouse would do (`RefusalLimits.RefusedBesideStock`), and may hold a higher warehouse than the lowest that would do
  at its commit (`RefusalLimits.BookedAboveLowest`), each for every id, order and SKU. Which of the two happens is decided
  under the locks (`Steering.RecheckRefusesIff`), and what is true under every schedule is proved in `Answers`: the
  warehouse held was the least that covered at the booking's scan, and a refusal has only two causes. The warehouse
  booked covers every line at commit in every case.
* The naming rule, admin command ids outside the `res:`, `rel:` and `cmt:` forms, is nowhere enforced. Redeemability,
  the agreement of check and Reserve, no failure while posting and deadlock freedom need it. Without it each has its
  condition: exact for redeemability (`Redeem.SettleableIff`), for the agreement (`Availability.FreshReserveIff` and
  `CheckAgreesWithReserve`), for posting (`Deadlock.PostingFailsIff`), and for the deadlock of two transactions, both
  where they stand (`Deadlock.StuckIff`) and before they begin (`DeadlockLimits.DeadlocksIff`); for a larger group a
  necessary one (`Deadlock.DeadlockNeedsSquatter`, and beforehand `Deadlock.DeadlockNeedsNamesake`). There are families
  of counterexamples (`Redeem.SquattedIdBlocksRelease`, `Availability.SquattedIdBlocksReserve`,
  `DeadlockLimits.SquattedIdDeadlocks`). Accounting, refinement and the truth of answers do not need the rule.

## Model

| member | source | states |
|---|---|---|
| `Preservation.EventKeepsInv` | internal/core/repository/reservations.go:286-311 | every committed Reserve, Release, Commit or stock command keeps the whole invariant: row CHECKs, unique orders, lines on existing rows, a ledger row for every line its status calls for and no other, balances equal to the ledger replay and to the open holds |
| `Preservation.RunKeepsInv` | internal/core/repository/reservations.go:414-462 | the same over any run of committed commands |
| `Ledger.HoldAccounting` | db/migrations/sql/000002_inventory_schema.up.sql:22-28 | in every reachable state, for every (sku, warehouse), reserved is exactly the sum of the lines of reservations in status reserved, 0 <= reserved <= on_hand, and the safety stock is not negative |
| `Ledger.LedgerReplay` | internal/core/repository/reservations.go:290-330 | in every reachable state on_hand, reserved and version are the sums of on_hand_delta, of reserved_delta and the number of ledger rows of that balance row |
| `Ledger.NoOversell` | internal/core/repository/reservations.go:394-411 | reserved plus committed units never exceed receipts plus adjustments, and on_hand is that total minus the committed units |
| `Ledger.StatusMatchesLedger` | internal/core/repository/reservations.go:305-308 | each line has exactly one RESERVE row, under res:<id>:<sku>; exactly one RELEASE row, under rel:<id>:<sku>, iff its reservation is released; exactly one SALE_COMMITTED row, under cmt:<id>:<sku>, iff it is committed; and never both |
| `Ledger.EveryRowHasItsLine` | internal/core/repository/reservations.go:313-330 | conversely, every reservation-driven ledger row belongs to a line of the reservation it references |
| `Ledger.EventEvolves` | internal/core/repository/reservations.go:414-462 | one commit never changes a stored order, hash or line, never rewrites a ledger row, and moves a status only from reserved to released or committed |
| `Ledger.RunEvolves` | internal/core/repository/reservations.go:414-462 | the lifecycle over whole runs: absent, reserved, then at most one of released and committed, for ever; expired is never entered |
| `Ledger.OncePerRun` | db/migrations/sql/000002_inventory_schema.up.sql:36-66 | in any run a reservation id is booked at most once, an order at most once, a reservation settled at most once and an admin command id applied at most once |
| `Ledger.TwoReadsMatch` | internal/core/repository/reservations.go:464-491 | GetReservation reads header and lines without a transaction: whatever commits in between, the lines are those of the header read |
| `Redeem.OpenIsSettleable` | internal/core/repository/reservations.go:355-372 | in any state reached under the naming rule, an open reservation can be released and can be committed: no CHECK, row count or command id stands in the way |
| `Redeem.OpenHoldsRedeemable` | internal/core/repository/reservations.go:394-411 | any batch of open reservations, settled in any order and any mix of Release and Commit, succeeds as a whole and touches no other reservation |
| `Redeem.FullSettlementFreesAll` | internal/core/repository/reservations.go:355-372 | once every open reservation has been settled, reserved is 0 on every row |
| `Redeem.SettleableIff` | internal/core/repository/reservations.go:364-371 | whatever ids admin commands use: an open reservation can be settled if and only if no admin row stands under one of the ledger ids the settlement needs |
| `Redeem.SquattedIdBlocksRelease` | internal/core/domain/inventory.go:59-75 | without the naming rule this is false, for every reservation id and SKU: a receipt whose command id is rel:<id>:<sku> leaves an open reservation that cannot be released |
| `Redeem.LedgerWidths` | db/migrations/sql/000002_inventory_schema.up.sql:63-77 | whatever has been committed, every ledger row fits its columns: command id 255, SKU 64, reason 64, actor 64, reference 255 |
| `CommandIds.CommandIdInjective` | internal/core/repository/reservations.go:305-306 | (operation, reservation id, SKU) determines the ledger command id and is determined by it, although ids may contain the separator |
| `CommandIds.LedgerIdsAre` | internal/core/repository/reservations.go:305-306 | the three forms of ledger ids and the forms the naming rule keeps admin commands out of, spelled out |
| `CommandIds.LengthCapIsTight` | internal/grpc/v1/validate.go:24-30 | the 186-character cap on ids is exact: at or below it every valid SKU fits VARCHAR(255), above it some valid SKU does not |
| `CommandIds.ColonInSkuCollides` | internal/grpc/v1/validate.go:22 | the SKU charset is needed: whenever a SKU contains a colon, another pair of id and SKU has the same command id |
| `Aggregation.AggregateLines` | internal/core/domain/reservation.go:136-148 | the index-map loop computes the fold whose properties the next rows state |
| `Aggregation.CheckItems` | internal/grpc/v1/server.go:113-138 | the separate validating loop of the availability handler accepts exactly the baskets reservationLines accepts and aggregates exactly as AggregateLines does |
| `Aggregation.ReservationLines` | internal/grpc/v1/reservations.go:162-181 | accepts exactly 1..100 lines with a valid SKU and a quantity in 1..10000, and returns them unchanged |
| `Aggregation.AggregateTotals` | internal/core/domain/reservation.go:133-135 | one line per SKU, and the units requested of every SKU are preserved |
| `Aggregation.AggregateOrder` | internal/core/domain/reservation.go:133-135 | lines come out in the order in which their SKUs were first seen |
| `Aggregation.AggregateIdempotent` | internal/logic/v1/reservations.go:34-43 | aggregating an aggregated basket changes nothing, so the transport and the repository digest the same lines |
| `Aggregation.AggregateBounds` | internal/grpc/v1/reservations.go:162-181 | for an admitted basket every aggregated quantity lies in 1..1000000, so int64 sums cannot overflow |
| `Aggregation.ReorderKeepsTotals` | internal/core/domain/reservation.go:150-153 | reordering the lines keeps every per-SKU total |
| `Aggregation.SplitKeepsTotals` | internal/core/domain/reservation.go:133-135 | splitting a quantity over two lines of one SKU keeps every per-SKU total |
| `Validate.CharsetsAre` | internal/grpc/v1/validate.go:22-41 | what the three checks let through: 1 to 64, 1 to 186 and 0 to 64 characters of the listed alphabets, letter by letter |
| `Canonical.CanonicalText` | internal/core/domain/reservation.go:154-171 | the builder loop over the sorted copy produces the encoding the next rows are about |
| `Canonical.DigestedText` | internal/core/domain/reservation.go:154-171 | what is digested, read from the left: the lines in bytewise order of their SKUs, each as SKU, colon, decimal quantity, bar, and then dest: and the region |
| `Text.DecDenotes` | internal/core/domain/reservation.go:163 | the quantity is printed as the decimal numeral of its value: no leading zero, a minus sign only below zero |
| `Text.LessIsBefore` | internal/core/domain/reservation.go:157 | the order the lines are sorted in is bytewise: at the first difference, or with the shorter first |
| `Canonical.EncodeInjective` | internal/core/domain/reservation.go:150-171 | for SKUs and regions without separators, two aggregated requests digest the same text iff they ask for the same units of the same SKUs and the same region |
| `Canonical.CanonicalInjective` | internal/grpc/v1/validate.go:36-41 | for the requests the edge admits: same digested text iff same per-SKU totals and same region, whatever the order or splitting of the lines |
| `Canonical.RegionCharsetMatters` | internal/grpc/v1/validate.go:36-41 | with separators allowed in the region, a basket with a SKU called dest digests the same text as the basket without it |
| `Commands.LoadedLines` | internal/core/repository/reservations.go:493-518 | the ordered line list holds exactly the stored lines, once each |
| `Commands.LoadedInOrder` | internal/core/repository/reservations.go:493-500 | they stand by warehouse and then bytewise by SKU |
| `Columns.FulfillsIff` | internal/core/repository/reservations.go:226-230 | in columns: a warehouse covers a basket iff for every line that asks for something it has a row with on_hand - reserved - safety_stock at least the quantity |
| `Columns.ChoiceIs` | internal/core/repository/reservations.go:181-187 | the scan chooses the least active warehouse that has every line in that sense, and none only if no active warehouse has |
| `Columns.ShortagesAre` | internal/core/repository/reservations.go:581-591 | the shortages are the lines whose quantity exceeds what the warehouse has beyond reserved and safety stock (0 where that is negative, or where there is no row or no warehouse), in request order, each with its SKU, its quantity and that number |
| `Columns.RefusalIs` | internal/core/repository/reservations.go:188-194 | when no active warehouse has the basket, the answer names the SKUs without a row anywhere, or else the lines the least active warehouse is short of |
| `Reservations.FulfillsLines` | internal/core/repository/reservations.go:529-537 | true iff every line is covered, an absent SKU counting as 0 |
| `Reservations.ShortagesAgainst` | internal/core/repository/reservations.go:581-591 | the short lines in request order, with the base ATP |
| `Reservations.ActiveAtpSnapshot` | internal/core/repository/reservations.go:213-253 | for every active warehouse the folded map answers, for every requested SKU, on_hand - reserved - safety_stock floored at 0, and has an entry iff the row exists |
| `Reservations.LockWarehouseAtp` | internal/core/repository/reservations.go:255-284 | the locked read answers on_hand - reserved - safety_stock floored at 0 of the chosen warehouse for every requested SKU |
| `Reservations.ClassifyFailure` | internal/core/repository/reservations.go:547-579 | unknown SKUs outrank shortages, and are exactly the requested SKUs without a row in any warehouse |
| `Reservations.AllocateReservation` | internal/core/repository/reservations.go:175-211 | undisturbed: the least active warehouse whose rows have every line beyond reserved and safety stock, and otherwise the unknown SKUs, or else what the least active warehouse is short of; the locked re-check never contradicts the scan |
| `ReservationWrites.ApplyReserve` | internal/core/repository/reservations.go:286-311 | the loop stops at the first failing statement and otherwise leaves the fold of all three statements per line |
| `ReservationWrites.ApplyLines` | internal/core/repository/reservations.go:441-452 | the settlement loop stops at the first failing statement (including any row count but one) and otherwise leaves the fold of its statements |
| `ReservationWrites.PostAllIs` | internal/core/repository/reservations.go:290-311 | the statement loop gets through iff each line alone would, and then has written exactly the closed-form rows of the whole reservation |
| `ReservationWrites.ReserveLegalIff` | internal/core/repository/reservations.go:95-104 | the line loop of a covered Reserve gets through iff the whole reservation is one the schema accepts |
| `ReservationWrites.SettleLegalIff` | internal/core/repository/reservations.go:441-461 | the line loop of a settlement gets through iff the whole settlement is one the schema accepts |
| `ReservationStore.ReservationRepository.Reserve` | internal/core/repository/reservations.go:57-110 | the new tables and the answer are those of the decision function; on any failure the tables are untouched |
| `ReservationStore.ReservationRepository.Transition` | internal/core/repository/reservations.go:418-462 | the shared settlement machinery leaves the tables and the answer of the decision function |
| `ReservationStore.ReservationRepository.Release` | internal/core/repository/reservations.go:336-373 | a missing or released reservation is a success without effect, a committed one is refused, a reserved one is released whole or not at all |
| `ReservationStore.ReservationRepository.Commit` | internal/core/repository/reservations.go:381-412 | a committed reservation is a success without effect, a missing or released one is refused, a reserved one is committed whole or not at all |
| `StockCommands.StockCommandRepository.Run` | internal/core/repository/stock_commands.go:77-104 | a failure after the claim drops the claimed ledger row with the rest |
| `StockCommands.StockCommandRepository.ReceiveStock` | internal/core/repository/stock_commands.go:116-137 | tables and answer of the decision function, creating the balance row on first receipt |
| `StockCommands.StockCommandRepository.AdjustOnHand` | internal/core/repository/stock_commands.go:139-160 | tables and answer of the decision function, refusing a missing row or an adjustment below zero or below reserved |
| `StockCommands.StockCommandRepository.SetSafetyStock` | internal/core/repository/stock_commands.go:162-187 | tables and answer of the decision function, refusing a missing row |
| `StockCommands.ReusedId` | internal/core/repository/stock_commands.go:30-35 | after a command has applied and any commands since, reusing its id changes nothing, and reports a replay iff nothing but the quantity of a safety stock differs; every other difference is a conflict |
| `Outcomes.ReserveOutcome` | internal/core/repository/reservations.go:57-110 | by what it finds: an order too wide for its column fails; a taken id is a replay, with the stored lines in order, iff order and hash agree, otherwise a conflict; a taken order is a conflict; otherwise, if some active warehouse has every line and no admin row stands under its ledger ids, the least such warehouse now holds exactly the requested units, still keeps its safety stock, each line has its RESERVE row under res:<id>:<sku>, and nothing else has moved; otherwise nothing has, and the answer names the unknown SKUs, or else what the least active warehouse is short of |
| `Outcomes.ReleaseOutcome` | internal/core/repository/reservations.go:336-373 | by the status found: a reserved reservation gives back exactly its own units and each line gets one RELEASE row under rel:<id>:<sku>, with the reason, and the ledger nothing else, unless an admin row stands under such an id, and then nothing moves; a missing or released one is a success without effect, a committed one is refused |
| `Outcomes.CommitOutcome` | internal/core/repository/reservations.go:381-412 | by the status found: the units of a reserved reservation leave hold and stock and each line gets one SALE_COMMITTED row under cmt:<id>:<sku>, and the ledger nothing else, unless an admin row stands under such an id; a committed one is a success without effect, a missing one is not found, a released one is refused |
| `Outcomes.StockOutcome` | internal/core/repository/stock_commands.go:116-187 | for every command: invalid iff one of its own fields breaks its rule; under a used id a replay iff exactly the row it would write stands there; a receipt applies wherever the warehouse exists, an adjustment of any sign iff the row exists and keeps at least what is reserved, a safety stock iff the row exists; then one balance row moves by the quantity (or takes it as safety stock) and one ledger row, with its kind, delta, actor and reason, is added; otherwise nothing changes and the answer names the cause |
| `Service.ReservationService.Reserve` | internal/logic/v1/reservations.go:35-56 | aggregation followed by the repository is exactly the Reserve command |
| `Service.Server.Reserve` | internal/grpc/v1/reservations.go:31-65 | rejects exactly the requests with a field outside its charset or bounds, those whose expires_at is not a time and those whose own hash differs, without effect; a hash that passed the drift check is the hash that is stored |
| `Idempotency.ExactlyOnceEffect` | internal/core/repository/reservations.go:336-353 | however many redeliveries of commands that took effect are interleaved, and wherever, the final state is that of the first deliveries alone and no other answer changes |
| `Idempotency.TookMeansApplied` | internal/core/repository/stock_commands.go:94-96 | every success that stands for an effect leaves a trace a redelivery can recognise |
| `Idempotency.ReserveIdempotent` | internal/core/repository/reservations.go:67-93 | once a Reserve was answered with a hold, then after any commands the same booking up to reordering and splitting is a replay with the same allocations as a multiset under the current status, any other request reusing its id or its order is a conflict, and neither changes anything |
| `Idempotency.OrderRaceVerdict` | internal/core/repository/reservations.go:67-87 | after 23505 on the order index, the later read in any later state is a replay iff the committed row carries this id, order and hash, and otherwise a conflict |
| `RedeliveryLimits.FailedReserveMayLandLater` | internal/core/repository/reservations.go:95-98 | redelivering a failed Reserve is not inert: for every id and SKU there is a run in which it books later |
| `RedeliveryLimits.MissingReleaseMayBiteLater` | internal/core/repository/reservations.go:340-347 | redelivering a Release of a missing id is not inert: for every id and SKU there is a run in which the second delivery releases a hold the first never saw |
| `RedeliveryLimits.ReserveActsIff` | internal/core/repository/reservations.go:95-98 | exactly when a redelivered Reserve that failed before acts now, its id and order still unused: some active warehouse covers the basket and no admin row stands under its ledger ids |
| `RedeliveryLimits.ReleaseActsIff` | internal/core/repository/reservations.go:340-347 | exactly when a redelivered Release acts: the reservation is reserved now and no admin row stands under its release ids |
| `Availability.BatchAtp` | internal/core/repository/availability.go:32-57 | a SKU is present iff some active warehouse has a row, and its value is the sum of the ATP floored per warehouse |
| `Availability.SummedIs` | internal/core/repository/availability.go:32-40 | that sum in columns: over the active rows of the SKU, on_hand - reserved - safety_stock where positive |
| `Availability.AnswerIs` | internal/logic/v1/availability.go:147-157 | the status: unknown iff no warehouse has a row, else out of stock iff the sum is 0, low iff it is 1 to 4, in stock iff it is 5 or more; a SKU without an active row has the sum 0 |
| `Availability.BatchGetAvailability` | internal/logic/v1/availability.go:105-145 | for every SKU the answer AnswerIs describes: looking up only the SKUs the first query did not return gives what looking up all of them would give |
| `Availability.ClassifyLines` | internal/logic/v1/availability.go:216-263 | looking up only the SKUs absent from the baseline splits the short lines exactly into known shortages and unknown SKUs |
| `Availability.CheckAvailability` | internal/logic/v1/availability.go:175-274 | a non-positive line is refused, naming the first; otherwise fulfillable iff some active warehouse has every line beyond reserved and safety stock, otherwise the known lines that the least active warehouse is short of, and the unknown SKUs, each in request order |
| `Availability.CheckAgreesWithReserve` | internal/logic/v1/availability.go:208-273 | on one state, for a fresh admitted booking: where the check says yes, Reserve takes the least active warehouse that has every line, and holds iff no admin row stands under one of its ledger ids; where it says no, Reserve fails with the same unknown SKUs, or else the same shortages line for line |
| `Availability.FreshReserveIff` | internal/core/repository/reservations.go:286-311 | a fresh admitted booking on an active warehouse that covers it gets through all its statements iff no admin row stands under one of its ledger ids |
| `Availability.SquattedIdBlocksReserve` | internal/core/repository/reservations.go:305-308 | without the naming rule the agreement breaks, for every id, order and SKU: a receipt under res:<id>:<sku> leaves a basket the check promises and Reserve cannot book |
| `Availability.FulfillableIsPromised` | internal/logic/v1/availability.go:208-214 | if a basket can be fulfilled, the summed view promises at least every line quantity and shows the SKU in stock |
| `Availability.UnavailableIsExact` | internal/logic/v1/availability.go:147-157 | OUT_OF_STOCK or UNKNOWN iff not even one unit of the SKU can be booked |
| `Availability.PromiseIsBookableIff` | internal/core/repository/availability.go:58-67 | every part of the summed promise of a SKU can be booked in one order iff at most one active warehouse has any of it available |
| `Availability.PromisedMayNotFulfill` | internal/core/repository/availability.go:58-67 | so the converse of the promise fails on every state with stock of the SKU in two active warehouses: the summed promise cannot be booked in one order |
| `Interleaving.TxStays` | internal/core/repository/reservations.go:196-210 | what a transaction relies on at any of its statements survives every commit by the others |
| `Progress.StepSound` | internal/core/repository/reservations.go:57-110 | whatever statement a transaction runs next, against whatever is committed then, it establishes what the following statement relies on |
| `Progress.CheckedIsCovered` | internal/core/repository/reservations.go:196-202 | after the locked re-check every line stands on a row that exists, is locked by this transaction and covers it |
| `Refinement.ReadyCommits` | internal/core/repository/reservations.go:99-104 | a transaction that has run all its statements may commit, and what it publishes is exactly its atomic event on the tables at that moment |
| `Refinement.CommitGuards` | internal/core/repository/reservations.go:255-284 | a commit changes nothing that another transaction holds |
| `Refinement.ReadyAtomic` | internal/core/repository/stock_commands.go:77-104 | the commit is the atomic command: the sequential decision for settlements and stock commands, and for a booking any active warehouse that covers every line at commit |
| `Machine.LockedInOrder` | internal/core/repository/reservations.go:259-265 | the rows of a booking are locked in one warehouse, bytewise by SKU |
| `Concurrency.EveryScheduleIsSerial` | internal/core/repository/reservations.go:57-110 | for any number of transactions, any schedule, aborts and lost answers anywhere, the committed tables are those of the atomic commands run in commit order, each with the answer its transaction gave or lost, none twice, and no reported new hold or applied command missing |
| `Concurrency.NothingTwice` | internal/core/repository/reservations.go:16-22 | however transactions race and abort, no two commits book the same id or order, settle the same reservation or apply the same command id |
| `Concurrency.AnswersStayTrue` | internal/core/repository/reservations.go:143-165 | a hold, replay, conflict, committed status, invalid transition or applied command, once answered, is true of the committed tables from then on, under every schedule; the other answers are explained in Answers |
| `Answers.SettlementsHaveCause` | internal/core/repository/reservations.go:418-462 | under every schedule a Release or Commit that answers done is in the log or found the reservation done, and it has that status ever after, or was a Release that found no such reservation; a Commit answers not found only if it found none |
| `Answers.DoneAtOnce` | internal/core/repository/reservations.go:437-462 | the statement that ends a settlement with done either commits its own event, or has read that status, or is a Release that has read no row |
| `Answers.RefusalsHaveCause` | internal/core/repository/reservations.go:175-202 | under every schedule: the SKUs answered as unknown had no row anywhere when that was read; the shortages are, in columns, those of the least active warehouse at a scan at which no active warehouse had the basket, or those of the chosen active warehouse while the booking held every row of the basket there |
| `Answers.HoldsHaveCause` | internal/core/repository/reservations.go:167-187 | under every schedule: a booking answered with a new hold has its whole basket in one warehouse, the one that was the least active warehouse to have the basket, in columns, at some earlier state of the schedule, that of its own scan |
| `Steering.RecheckRefusesIff` | internal/core/repository/reservations.go:196-202 | under its locks a booking is refused iff the warehouse it chose no longer covers the basket, whatever the others have; otherwise it goes on to post there |
| `RefusalLimits.LateCommitRefuses` | internal/core/repository/reservations.go:167-174 | from any state with nothing locked: a booking that has chosen a warehouse is refused with its shortages whenever any other command that takes away the cover there runs before its row locks |
| `RefusalLimits.RefusedBesideStock` | internal/core/repository/reservations.go:55-56 | so the comment fails under contention, for every id, order and SKU: a schedule ends with a booking refused for want of stock while an active warehouse covers it |
| `RefusalLimits.LateCommitBooks` | internal/core/repository/reservations.go:167-174 | from any state with nothing locked: a booking that has chosen a warehouse gets to its commit there whenever any other command that leaves the cover there, and its ledger ids free, runs before its row locks, whatever that command adds elsewhere |
| `RefusalLimits.BookedAboveLowest` | internal/core/repository/reservations.go:167-168 | so the lowest-id rule fails under contention, for every id, order and SKU: a schedule ends with a booking about to commit, and to answer with, a hold on warehouse 2 while the active warehouse 1 covers the basket |
| `Concurrency.LockedRecheckSuffices` | internal/core/repository/reservations.go:259-298 | although applyReserve checks no row counts, each of its updates hits one existing row locked by this transaction and passes its CHECK; at commit every line is still covered beyond reserved and safety stock, and what is published keeps reserved + safety_stock <= on_hand on every row booked |
| `Deadlock.PostingFailsIff` | internal/core/repository/reservations.go:290-330 | whatever ids admin commands use: once a hold has passed its re-check or a settlement has locked its header, a statement fails iff it is a ledger INSERT whose id an admin row carries |
| `Deadlock.PostingNeverFails` | internal/core/repository/reservations.go:364-371 | under the naming rule, once a hold has passed its re-check or a settlement has locked its header, no statement fails: no CHECK, no missing row, no command-id collision; a hold does not even wait |
| `Deadlock.RecordNeverWaits` | internal/core/repository/reservations.go:286-289 | under the naming rule ledger ids of reservations are never contended |
| `Deadlock.WaitsUp` | internal/core/repository/reservations.go:255-258 | a waiting transaction waits for something later in the order (reservation id, order reference, command id, balance rows by warehouse and SKU) than everything it holds, unless an admin command holds its next ledger id |
| `Deadlock.DeadlockNeedsSquatter` | internal/core/repository/reservations.go:441-447 | with any admin command ids and any number of transactions: a group that all wait for each other contains a hold or settlement about to write a ledger row, the stock command that holds this ledger id as its own, and the owner of the balance row this stock command waits for; there is no other way to deadlock |
| `Deadlock.DeadlockNeedsNamesake` | internal/core/repository/reservations.go:305-308 | so a caller can tell beforehand, for any number of transactions: a deadlock needs, among the works begun, a stock command whose id begins like the ledger ids of one of the holds or settlements |
| `Deadlock.StuckIff` | internal/core/repository/reservations.go:441-447 | two transactions, whatever they are, wait for each other iff one is a stock command that holds the ledger id the other is about to write and wants a balance row the other has locked |
| `Deadlock.NoDeadlock` | internal/core/repository/reservations.go:441-447 | in every state reached under the naming rule, every set of live transactions has a member not waiting for a member of the set |
| `DeadlockLimits.DeadlocksIff` | internal/core/repository/stock_commands.go:77-104 | from any state with nothing locked, for any hold or settlement and any stock command: some schedule of the two leaves each waiting for the other iff the command is admissible, its id is the ledger id of a line the other gets to (no admin row under the ids up to it), and its row is one the other has locked by then: any row of the basket for a hold, a line up to that one for a settlement |
| `DeadlockLimits.SquattedIdDeadlocks` | internal/core/repository/stock_commands.go:36-47 | so without the naming rule deadlock freedom is false: for every reservation id and SKU, for Reserve, Release and Commit and for all three stock commands, a schedule from the empty system ends with the two waiting for each other, the stock command carrying the ledger id of that line |
| `Alone.AloneIsSequential` | internal/core/repository/reservations.go:167-174 | a transaction that meets nobody else's locks and is left to itself ends, with the tables and the answer of the sequential command; so an undisturbed Reserve takes the lowest active warehouse id that covers every line |

## Left out

- SHA-256: the stored hash is the text before the digest, that is, the digest is taken to be injective.
- Timestamps, the stored `expires_at` and `updated_at`: observability only; nothing reads them back to change stock. Whether `expires_at` parses as an RFC 3339 time is a parameter of `Service.Server.Reserve`.
- 64-bit overflow of `on_hand` on receipts and positive adjustments: quantities are unbounded integers.
- Warehouse status changes: nothing in the service changes a warehouse's status, so it is fixed during a run.
- Seed rows and direct SQL: every run starts from empty tables, so balances exist only through receipts.
- `sort.Slice` and SQL `ORDER BY`: modelled by their result, the one ascending sequence of the rows; database collation is taken to be byte order, as Go's string order is.
- The batch lookups inside one availability call are taken on one state; a check racing a write is advisory by design.
- Backoffice listings (`admin_reads.go`), the HTTP router, error-to-status mapping, configuration, metrics and logging: one-branch or I/O code.
- Machine.Admitted: the concurrent layer takes bookings with one line per SKU and positive quantities, which the edge guarantees; the repository methods take any quantity.
- Machine.Act: foreign-key share locks are not modelled; the rows they would lock are never deleted, and warehouses are never written.
- Machine.Abort: every abort, and every answer lost at COMMIT, reads as the storage error that stands for all retryable failures.
- Deadlock.DeadlockNeedsSquatter: for groups of more than two transactions the condition is necessary, not sufficient; only pairs have an exact one.
- Redeem.Namespaced: a hypothesis about callers, not something the code checks.
- Redeem.Edged, Redeem.PlainLines: the exact conditions take stored reservations to be ones the edge admits (ids of at most 186 characters, SKUs without a colon); the repository alone does not check this.
