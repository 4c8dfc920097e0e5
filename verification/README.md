# Trading core: a verified model

The trading core turns a recorded risk decision into at most one broker order, books the fill into orders,
positions, the account and an outbox inside one optimistic transaction, and lets kill switches, mode changes,
paper resets and reconciliation race that work. This project models the part of it where something can go
wrong between two steps, and proves what holds in every committed state of every run.

Five connected parts, one module per file unless noted:

- **Execution and control protocol** (`Storage`, `Protocol`, `Invariants`, `Safety`, `Decisions`,
  `Resets`, `Undisturbed`). `Storage` holds the
  tables as a value, the statements as compare-and-set or unique-insert functions on it, and `Database`, the
  same statements in place with rollback. `Protocol` gives every use case a program counter and the snapshots
  it has read; each read, reservation, broker call and commit is a step of its own, and a run is any sequence
  of starts, steps, crashes and clock ticks of any number of processes. `Invariants` shows that each
  transaction keeps the tables sound; `Safety` lifts this to whole runs by rely/guarantee: a step changes a
  row only by moving it to a later version, so a snapshot that still carries the row's version *is* the row.
  `Decisions` traces rows and broker calls back to the decisions and commands behind them, `Resets` says what a
  reset does to every row, and `Undisturbed` gives the tables each use case leaves when nothing else writes.
- **Paper broker ledger** (`PaperBroker`, and `PaperBrokerObject` in `PaperBrokerClass.dfy`). The simulator as
  a mutable object, proved against ledger functions, and those against the plain account of the world: sums
  over every fill since the last reset. Averaging an entry divides, so the ledger carries the division and the
  equation holds up to what its roundings add up to, and with no error where it does not round.
- **Transactional outbox** (`Outbox`, `OutboxWorker`). The statements shared by any number of workers as a
  state machine, and one worker's drain as a program with a termination measure.
- **Risk** (`Sizing`, `Risk`). Sizing against a declarative optimum, with a division that may round by `eps`;
  the twelve rules, the composite policy and the recorded decision.
- **Aggregates** (`Orders`, `Positions`, `Accounts`, `Operation`). Each is a class whose methods are proved
  against a function of the old value, and the history properties are proved about that function.

`Reconciliation` holds the comparison pass of the reconciler; its forced retreat to CLOSE_ONLY is one of the
processes of `Protocol`. `Primitives` holds value objects, counting and summation.

## Where the code and its own documentation part

The model follows the code in each case.

- `docs/architecture.md:140-146` says an ambiguous broker failure leaves the order `Unknown`. UNKNOWN cannot
  be reached from PENDING (`internal/domain/order/status.go:43-46`), the refusal is dropped, and the save that
  follows cannot match; the row stays PENDING (`Safety.AmbiguityIsNotRecorded`), and no run ever stores an
  UNKNOWN order (`Safety.NoOrderIsEverUnknown`). `Safety.UnknownIsRecordedExactlyWhen` says when such a save
  would be recorded.
- `internal/application/usecase/reconcile_broker_state.go:16-19` says every critical divergence forces
  CLOSE_ONLY. A pass goes on to force it exactly when the broker account and all three local reads answered,
  and the broker's positions or orders did not, or a local position is missing there
  (`Reconciliation.Reconcile`). So an unreachable broker account, critical as it is, forces nothing, nor does a
  missing position followed by a failed read of the local orders (`Reconciliation.CriticalButNotForced`). The
  forced change itself then commits exactly when mode row and account row are still the ones it read, and is
  not tried again (`Safety.ModeCommitsExactlyWhen`); without a write in between it always restricts the mode
  (`Undisturbed.RetreatRestricts`).
- `internal/application/usecase/execute_approved_order.go:213-217` says a fill that comes later is picked up by
  reconciliation. An order turns FILLED exactly in the step in which its own executor books the answer it holds
  (`Safety.OrderFillsExactlyWhen`); once its executor has ended, it keeps its status for ever, but for a reset
  that may cancel it (`Safety.AbandonedOrdersWither`, and `Safety.LateFillIsNeverRecorded` for every unfilled
  answer).
- `internal/infrastructure/database/outbox/worker.go:11-13` speaks of retries up to a limit. An event is lost
  to them exactly when a worker crashes with it in its batch, the mark after its publication fails, or the
  fetch that claims it fails after the claim took effect (`Outbox.StrandedExactlyWhenLost`;
  `Outbox.CrashLosesEvent`, `Outbox.LostMarkLosesEvent` and `Outbox.FailedFetchLosesEvents` show all three). No
  statement takes a PROCESSING row back, so it is lost for good (`Outbox.StrandedForever`).
- `internal/domain/risk/position_sizing.go:76-77` says a full stop-out loses exactly the risk budget. With exact
  division it never loses more, and loses all of it exactly when the quantity that risks it all is on the step,
  within the leverage cap and above the minima (`Sizing.StopOutLosesBudgetExactlyWhen`,
  `Sizing.WholeBudgetFits`); `Sizing.StopOutMayLoseLess` is an input that loses 0.90 of a budget of 1.00. With a
  division off by up to `eps` it loses at most what `eps * (1 + step)` units lose beyond the budget
  (`Sizing.StopOutWithRounding`). In general the size is the largest one on the step within budget and leverage
  that meets the minima (`Sizing.SizingIsOptimal`).
- A failed margin reservation (`internal/application/usecase/execute_approved_order.go:231-233`) is only
  reported, and the transaction is attempted all the same. It can never commit, because a refused reservation
  does not move the account's version (`Safety.FillCommitsExactlyWhen`).

## Model

| member | source | states |
|---|---|---|
| Safety.MarginConservation | internal/application/usecase/execute_approved_order.go:220-259 | In every committed state of every run of racing executors, resets and mode changes, the unavailable part of the balance is exactly the notional of the OPEN positions, and the available balance is never negative |
| Safety.FillCommitsExactlyWhen | internal/application/usecase/execute_approved_order.go:213-259 | A fill is booked if and only if the answer reads FILLED with a price, the status admits it, order row and account row are still those the executor read, the margin is there and the symbol has no OPEN position; otherwise nothing at all changes |
| Safety.OrderFillsExactlyWhen | internal/application/usecase/execute_approved_order.go:213-272 | Over any run an order turns FILLED in a step if and only if that step is its own executor booking such an answer; no reset, reconciliation or other process records a fill |
| Safety.AbandonedOrdersWither | internal/application/usecase/execute_approved_order.go:213-217 | An order whose executor has ended or crashed keeps its status over every continuation, except that a paper reset may turn SUBMITTED into CANCELLED |
| Safety.LateFillIsNeverRecorded | internal/application/usecase/execute_approved_order.go:213-217 | For every decision and every acknowledged but unfilled answer, the order of that execution is SUBMITTED or CANCELLED for ever after, whatever happens |
| Safety.CachedModeAgrees | internal/application/usecase/change_operational_mode.go:60-71 | The mode cached on the account equals the mode row in every committed state of every run |
| Safety.EntriesOnlyWhileAllowed | internal/application/usecase/execute_approved_order.go:87-93 | Any step of any run that opens a position commits while the persisted mode allows entries, however stale the executor's own check is |
| Safety.AtMostOncePlacement | internal/application/usecase/execute_approved_order.go:98-160 | Per risk decision at most one order row ever exists and the broker's PlaceOrder is called at most once, by the very process that inserted that row, and no process inserts two, over any run with crashes, retries and lapsed reservations |
| Decisions.OrdersFollowDecisions | internal/application/usecase/execute_approved_order.go:74-134 | Over any run every order row, fill and position is on the terms of an allowed risk decision: its symbol, side and size, and an OPEN position holds that size at the fill price |
| Decisions.PlacementsFollowDecisions | internal/application/usecase/execute_approved_order.go:149-160 | Over any run every PlaceOrder call asks for the symbol, side and size of the allowed decision behind its order row, at the signal's entry as reference |
| Undisturbed.AnsweredExecution | internal/application/usecase/execute_approved_order.go:71-272 | With no write in between, an execution the broker answers, at once or when looked up after an error, ends with one order holding the broker's id and, if the answer reads FILLED with a price, the margin is there and the symbol free, with order, audit row, position, margin and the four events of a fill at that price; else SUBMITTED |
| Undisturbed.AbsentOrderFails | internal/application/usecase/execute_approved_order.go:161-169 | After a failed placement and a lookup that finds nothing the order is FAILED and nothing else happened |
| Undisturbed.AmbiguousOrderStays | internal/application/usecase/execute_approved_order.go:170-175 | After a failed placement and a failed lookup the order stays PENDING |
| Undisturbed.GateExactlyWhen | internal/application/usecase/execute_approved_order.go:74-93 | An execution goes on if and only if its decision exists and allows and the account's mode permits entries; otherwise it ends with no change |
| Undisturbed.RepeatExactlyWhen | internal/application/usecase/execute_approved_order.go:103-108 | It ends with no change if and only if an order exists for the decision |
| Safety.ReservationsAreSpaced | internal/infrastructure/database/idempotency/queries.go:3-9 | Two successful reservations for one decision lie more than ten minutes apart, and the stored expiry covers both |
| Safety.KeyIsGrantedExactlyWhen | internal/infrastructure/database/idempotency/queries.go:3-9 | A key is granted, for ten minutes, if and only if there is none or it has expired; otherwise the execution ends with no change |
| Safety.OutboxMatchesTables | internal/application/usecase/execute_approved_order.go:136-259 | In every committed state each order has exactly one created event, one submitted event iff it has a broker id and one filled event iff FILLED, each position one opened event; the totals agree with the FILLED orders, positions and audit rows; each audit row and position match their order |
| Safety.AmbiguityIsNotRecorded | internal/application/usecase/execute_approved_order.go:170-174 | An ambiguous broker failure changes no table: the order row stays as it was |
| Safety.UnknownIsRecordedExactlyWhen | internal/domain/order/status.go:43-66 | UNKNOWN reaches the order row if and only if the caller's order is SUBMITTED or PARTIALLY_FILLED and the row is still the one it read |
| Safety.NoOrderIsEverUnknown | internal/application/usecase/execute_approved_order.go:161-176 | In every committed state of every run each order is PENDING, SUBMITTED, FILLED, CANCELLED or FAILED; none is ever UNKNOWN, PARTIALLY_FILLED or REJECTED |
| Safety.CommittedModesAreSafe | internal/infrastructure/database/operation/repository.go:39-52 | Under racing controllers, REAL was only committed with the exact token, and PAUSED was committed between a restricted mode and any later entry-allowing one |
| Safety.ForcedRetreatHappened | internal/application/usecase/reconcile_broker_state.go:190-212 | A forced retreat that ended without error saw CLOSE_ONLY or KILL_SWITCH in force at some moment since it began |
| Safety.ModeCommitsExactlyWhen | internal/application/usecase/reconcile_broker_state.go:205-211 | A mode change commits if and only if mode row and account row are still those the controller read; then both are in KILL_SWITCH for a kill switch, in the requested mode for a change and in CLOSE_ONLY for a retreat; otherwise nothing changes and the process ends |
| Undisturbed.KillSwitchKills | internal/application/usecase/activate_kill_switch.go:46-98 | With actor, origin and reason and no write in between, a kill switch takes every mode to KILL_SWITCH in mode row and account, recording the three and exactly one event; with one of them missing it changes nothing |
| Undisturbed.ChangeEntersItsTarget | internal/application/usecase/change_operational_mode.go:39-73 | With no write in between, a mode change enters exactly its target in both rows if the mode it starts from may be left for it, with the exact token for REAL, and actor and reason are given; otherwise it changes nothing |
| Undisturbed.RetreatRestricts | internal/application/usecase/reconcile_broker_state.go:190-212 | With no write in between, a forced retreat leaves CLOSE_ONLY and KILL_SWITCH as they are and takes every other mode to CLOSE_ONLY |
| Decisions.KillsAreAnnounced | internal/application/usecase/activate_kill_switch.go:85-95 | Over any run the outbox holds exactly one kill-switch event per kill switch that committed |
| Safety.RunIsSafe | internal/infrastructure/database/transaction/manager.go:30-46 | The inductive invariant: in every reachable state the tables are sound and every process's snapshots are still worth what it relies on |
| Safety.Stable | internal/infrastructure/database/account/repository.go:49-63 | Rely: no versioned write of another process can invalidate what a process relies on between two of its steps |
| Safety.AdvanceIsSafe | internal/application/usecase/execute_approved_order.go:71-201 | Guarantee: each step of each process keeps the tables sound, only moves rows to later versions and leaves the process with valid snapshots |
| Safety.AdvanceIsFramed | internal/application/usecase/execute_approved_order.go:71-272 | What each step leaves alone: mode row, keys, number of orders and positions change only at the one step meant to change them, and PlaceOrder is called only right after the PENDING row committed |
| Invariants.FillWins | internal/application/usecase/execute_approved_order.go:230-259 | A committed fill won every race it was in: its order and account snapshots are the current rows, and the margin was available |
| Invariants.FillIsSound | internal/application/usecase/execute_approved_order.go:235-259 | The fill transaction keeps every table invariant, from snapshots of any age |
| Invariants.PendingIsSound | internal/application/usecase/execute_approved_order.go:136-147 | Inserting the PENDING order with its event keeps every table invariant |
| Invariants.SubmitIsSound | internal/application/usecase/execute_approved_order.go:178-193 | Recording the broker's acknowledgement with its event keeps every table invariant and stores exactly the submitted order |
| Invariants.QuietUpdateIsSound | internal/infrastructure/database/order/repository.go:83-110 | A FAILED, CANCELLED or UNKNOWN save moves one order row one version and leaves fills, events and other rows in place |
| Invariants.ModeIsSound | internal/application/usecase/activate_kill_switch.go:75-98 | A committed mode change was computed from the current mode row and account row, and keeps every table invariant |
| Invariants.ResetIsSound | internal/application/usecase/reset_paper_state.go:83-105 | A committed reset keeps every table invariant, leaves no OPEN position and a fully available starting balance, although it worked from lists read earlier |
| Invariants.ClosingClosesTheListed | internal/application/usecase/reset_paper_state.go:84-92 | Closing a list of OPEN rows closes exactly those and touches nothing else |
| Invariants.OpenPositionsIsComplete | internal/infrastructure/database/position/repository.go:50-66 | The listing holds each OPEN row as stored, once, and misses none |
| Invariants.OpenOrdersIsComplete | internal/infrastructure/database/order/queries.go:14-16 | The listing holds each order that is PENDING, SUBMITTED, PARTIALLY_FILLED or UNKNOWN as stored, once, and no other |
| Invariants.CancellingIsSound | internal/application/usecase/reset_paper_state.go:93-101 | The best-effort cancellation of possibly stale orders keeps the records and only moves rows to later versions |
| Resets.CancellingIs | internal/application/usecase/reset_paper_state.go:93-101 | The cancellation loop fails if and only if a listed order that may be cancelled has moved, and otherwise cancels exactly those and touches no other row |
| Resets.ResetCommitsExactlyWhen | internal/application/usecase/reset_paper_state.go:76-105 | A reset commits if and only if the starting balance is positive, the account row is the one it read and no order it has to cancel has moved; then every OPEN position is closed at its last price, exactly those orders are cancelled and the account starts over; otherwise nothing changes |
| Resets.UndisturbedReset | internal/application/usecase/reset_paper_state.go:51-105 | With no write in between, in PAPER every SUBMITTED, PARTIALLY_FILLED or UNKNOWN order is cancelled, every other order stays, every OPEN position is closed at its last price and the account starts over; in any other mode nothing changes |
| Storage.Database.CommitFill | internal/application/usecase/execute_approved_order.go:235-259 | The writes in place equal the transaction as one step: all of them, or after any lost race none |
| Storage.Database.CommitReset | internal/application/usecase/reset_paper_state.go:83-105 | Both loops and the account save in place equal the transaction as one step, rolled back at the first lost race |
| Storage.Database.CommitMode | internal/application/usecase/activate_kill_switch.go:75-98 | Mode row and account row change together or not at all |
| Storage.Database.CommitPending | internal/application/usecase/execute_approved_order.go:136-147 | The order row and its event appear together unless the client order id is taken |
| Storage.Database.CommitSubmitted | internal/application/usecase/execute_approved_order.go:182-193 | The submitted row and its event appear together unless the version race was lost |
| Storage.Database.WriteAccount | internal/infrastructure/database/account/repository.go:49-63 | Save succeeds exactly when the row still carries the previous version |
| Storage.Database.WriteMode | internal/infrastructure/database/operation/repository.go:39-52 | Save of the singleton row succeeds exactly when it still carries the previous version |
| Storage.Database.WriteOrder | internal/infrastructure/database/order/repository.go:83-110 | Save keeps the immutable columns, and adds one audit row exactly for a fill with a price |
| Storage.Database.AddPosition | internal/infrastructure/database/migrations/000004_create_positions.up.sql:19 | A second OPEN position on a symbol is refused |
| Storage.Database.WritePosition | internal/infrastructure/database/position/repository.go:68-83 | Save of a known position succeeds exactly when it still carries the previous version |
| Storage.Database.TakeKey | internal/infrastructure/database/idempotency/queries.go:3-9 | A key is taken when it is new or has lapsed, and then for ten minutes; otherwise nothing changes |
| PaperBroker.LedgerEqualsFillHistory | internal/infrastructure/external/broker/paper/broker.go:66-157 | With exact division, after any calls and at any mark prices, balance plus book equals starting balance minus all fees plus every fill since the last reset valued at the marks |
| PaperBroker.LedgerWithRounding | internal/infrastructure/external/broker/paper/broker.go:229-287 | With a division off by up to eps the same equation is off by a drift that no mark changes, at most eps per unit of each position averaged into since the last reset, or the price gap times the added quantity where the average rounded to nothing |
| PaperBroker.NetExposureEqualsFills | internal/infrastructure/external/broker/paper/broker.go:229-287 | After any calls a symbol's signed position is the signed sum of its fills, is stored with a positive quantity, and is absent exactly when that sum is zero |
| PaperBroker.FoldConservesValue | internal/infrastructure/external/broker/paper/broker.go:229-287 | Opening, averaging in, reducing, closing and flipping each move realized plus marked value by exactly the fill and, for averaging in, what the stored average is off in notional, at any mark |
| PaperBroker.AverageIsBetween | internal/infrastructure/external/broker/paper/broker.go:240-243 | The true average carries the summed notional, is positive and lies between the two prices |
| PaperBroker.AverageWithRounding | internal/infrastructure/external/broker/paper/broker.go:240-246 | The stored entry lies between the two prices up to the division error, and never falls back to the old entry while both prices exceed that error |
| PaperBroker.NotionalWithRounding | internal/infrastructure/external/broker/paper/broker.go:240-246 | The stored entry carries the summed notional up to the allowance |
| PaperBroker.PlacementIsIdempotent | internal/infrastructure/external/broker/paper/broker.go:119-121 | A client id once on record keeps its broker id and order across any calls but a reset, and placing it again as order or stop returns that order and changes nothing |
| PaperBroker.PlacementFillsAt | internal/infrastructure/external/broker/paper/broker.go:122-156 | A placement under a new id is refused, changing nothing, if and only if the reference price is missing, the slipped price is not positive or the balance is short of notional plus fee; otherwise its whole quantity fills, on its side and symbol, at reference times (1 + slippage) for a buy and (1 - slippage) for a sell |
| PaperBroker.SlippageIsAdverse | internal/infrastructure/external/broker/paper/broker.go:289-298 | With a slippage that is not negative a buy never fills below its reference and a sell never above it |
| PaperBroker.MarkIsFillPrice | internal/infrastructure/external/broker/paper/broker.go:229-287 | Every fill leaves its price as the mark of what is held |
| PaperBroker.StopRests | internal/infrastructure/external/broker/paper/broker.go:170-187 | A new stop is recorded NEW and unfilled at its stop price, and balance and positions stay |
| PaperBroker.CancelRelabels | internal/infrastructure/external/broker/paper/broker.go:194-200 | Cancelling succeeds exactly for recorded orders and changes the status of that one alone |
| PaperBroker.ResetClears | internal/infrastructure/external/broker/paper/broker.go:49-55 | A reset restores the starting balance and forgets positions, orders, client ids and counter |
| PaperBroker.InsertKeepsIndex | internal/infrastructure/external/broker/paper/broker.go:136-155 | Recording an order keeps client ids and orders in one-to-one correspondence, numbered by the counter, under an id not used before |
| PaperBroker.ApplyIsValid | internal/infrastructure/external/broker/paper/broker.go:115-201 | Every call keeps the correspondence and the positive quantities, and never touches starting balance, fee rate or division |
| PaperBroker.CancelKeepsSums | internal/infrastructure/external/broker/paper/broker.go:190-201 | Cancelling, even of a FILLED order, changes neither the ledger equation nor any exposure |
| PaperBroker.ClosingAgrees | internal/domain/position/position.go:95-116 | Any sequence of closing fills leaves position aggregate and simulator with the same quantity, entry and side, and the same realized amount up to eps per fill, since only the aggregate divides |
| PaperBrokerObject.Broker.PlaceOrder | internal/infrastructure/external/broker/paper/broker.go:115-157 | The method in place is the ledger function: stored order, refusal, or fill with fee, position and index all updated |
| PaperBrokerObject.Broker.ApplyFill | internal/infrastructure/external/broker/paper/broker.go:229-287 | The folding in place changes one symbol's position and adds the realized P&L, as the function proved conservative says |
| PaperBrokerObject.Broker.PlaceRestingStop | internal/infrastructure/external/broker/paper/broker.go:162-188 | A stop rests unfilled under its client id, or the stored order is returned and nothing changes |
| PaperBrokerObject.Broker.CancelOrder | internal/infrastructure/external/broker/paper/broker.go:190-201 | Only the status of a known order changes; an unknown id is reported |
| PaperBrokerObject.Broker.ResetAll | internal/infrastructure/external/broker/paper/broker.go:49-64 | Everything is back at the starting balance and empty |
| PaperBrokerObject.Broker.FindOrderByClientOrderId | internal/infrastructure/external/broker/paper/broker.go:214-223 | Found exactly when some stored order carries the id, and then that order |
| PaperBrokerObject.Broker.GetAccount | internal/infrastructure/external/broker/paper/broker.go:66-84 | The reported equity is balance plus the whole book at each symbol's last price, in whatever order the map is walked |
| PaperBrokerObject.ReportedEquity | internal/infrastructure/external/broker/paper/broker.go:66-84 | What GetAccount reports after any calls equals the account from the fill history at the last prices, up to the allowance of the rounded averages |
| Outbox.ExclusiveAndBounded | internal/infrastructure/database/outbox/queries.go:13-40 | Under any interleaving of workers, crashes and lost marks: a held row is PROCESSING and held once, is FAILED exactly at five attempts, is published at most five times and successfully at most once; PROCESSED means published, FAILED means never |
| Outbox.RowsStay | internal/infrastructure/database/outbox/queries.go:3-6 | No step deletes or re-dates a row, and a new row is PENDING, untried and dated as inserted |
| Outbox.NothingAfterSuccess | internal/infrastructure/database/outbox/worker.go:48-58 | After a successful publish no step publishes that event again, even when its mark was lost |
| Outbox.ClaimsAreBounded | internal/infrastructure/database/outbox/repository.go:13-57 | However many workers drain, a run makes at most five claims per inserted event |
| Outbox.WorkIsBudgeted | internal/infrastructure/database/outbox/queries.go:34-40 | Claims made plus claims still possible never exceed five per inserted event |
| Outbox.StrandedForever | internal/infrastructure/database/outbox/queries.go:14-28 | A PROCESSING row no worker holds stays as it is for ever and is never published again |
| Outbox.StrandedExactlyWhen | internal/infrastructure/database/outbox/worker.go:42-60 | From any state that keeps the invariant a step leaves a row PROCESSING with no holder if and only if it was so before, or its worker crashes with it in the batch, or the mark after its publication is lost, or the step is a fetch that claims it and then fails |
| Outbox.StrandedExactlyWhenLost | internal/infrastructure/database/outbox/worker.go:42-60 | Over any run a row is so stranded if and only if some action of the run was such a crash, lost mark or failed fetch |
| Outbox.CrashLosesEvent | internal/infrastructure/database/outbox/worker.go:42-48 | From any reachable state with a PENDING row, a claim followed by a crash of its worker strands that row |
| Outbox.LostMarkLosesEvent | internal/infrastructure/database/outbox/worker.go:49-58 | So does a claim whose publication, failed or not, is followed by a lost mark |
| Outbox.FailedFetchLosesEvents | internal/infrastructure/database/outbox/repository.go:31-47 | So does a fetch that fails after its claim took effect, for every row of the batch, with no worker ever holding it |
| OutboxWorker.Worker.DrainOnce | internal/infrastructure/database/outbox/worker.go:42-60 | A drain that fetches from a non-empty pending set lowers the sum of (5 - attempts) over PENDING rows by at least one per event, whatever the publisher does |
| OutboxWorker.Worker.Run | internal/infrastructure/database/outbox/worker.go:27-38 | With no new events, as many successful fetches as there are retries left leave no PENDING row |
| OutboxWorker.Worker.HandleBatch | internal/infrastructure/database/outbox/worker.go:48-59 | Every event of a batch gives back at least one retry less than it took, marked or not |
| OutboxWorker.Worker.HandleEvent | internal/infrastructure/database/outbox/worker.go:49-58 | A published event is marked PROCESSED, an unpublished one has its failure counted, and a lost mark changes nothing |
| OutboxWorker.Repository.FetchPendingBatch | internal/infrastructure/database/outbox/repository.go:31-47 | Claims distinct PENDING rows up to the limit, none passed over for a younger one, at least one if there is one, and may fail after having claimed them |
| OutboxWorker.Repository.OldestPending | internal/infrastructure/database/outbox/queries.go:14-20 | The selection holds the oldest PENDING rows up to the limit, each once |
| OutboxWorker.Repository.StoreProcessed | internal/infrastructure/database/outbox/repository.go:49-52 | Marks the row, or fails and changes nothing |
| OutboxWorker.Repository.StoreFailed | internal/infrastructure/database/outbox/repository.go:54-57 | Counts the attempt and parks the row at the fifth, or fails and changes nothing |
| OutboxWorker.Repository.InsertEvent | internal/infrastructure/database/outbox/repository.go:26-29 | A new event is PENDING with no attempts; a known id is reported as an error and changes nothing |
| OutboxWorker.ClaimRemovesWeight | internal/infrastructure/database/outbox/queries.go:13-28 | A claim takes exactly the retries of the claimed rows out of the pending weight |
| Sizing.SizingIsOptimal | internal/domain/risk/position_sizing.go:40-94 | With exact division, with or without a step, a size is approved if and only if some quantity on the step keeps both upper bounds and all minima, and it is the largest such quantity |
| Sizing.SizingWithRounding | internal/domain/risk/position_sizing.go:40-94 | With division rounded by up to eps, with or without a step, the bounds hold up to eps times (1 + step), the minima exactly, and no quantity on the step that leaves that slack is rejected or beaten |
| Sizing.BothSizersAreOptimal | internal/domain/risk/position_sizing.go:82-124 | With division rounded by up to eps both strategies are that optimum, up to the slack, at their own stop distance, the ATR one also for a negative distance, and approve nothing without balance or distance |
| Sizing.StopOutLosesBudgetExactlyWhen | internal/domain/risk/position_sizing.go:76-94 | With exact division a full stop-out of an approved size never loses more than the risk budget, and loses all of it if and only if the quantity that risks it all is feasible |
| Sizing.StopOutWithRounding | internal/domain/risk/position_sizing.go:76-94 | With division rounded by up to eps a full stop-out loses at most the budget plus what eps times (1 + step) units lose |
| Sizing.WholeBudgetFits | internal/domain/risk/position_sizing.go:48-74 | That quantity is feasible if and only if it is on the step, within the leverage cap and above both minima |
| Sizing.StopOutMayLoseLess | internal/domain/risk/position_sizing.go:82-94 | An input whose size is 0.3 and whose stop-out loses 0.9 of a budget of 1.0, with exact division |
| Sizing.StepIsGreatest | internal/domain/risk/position_sizing.go:40-46 | Rounding down yields a multiple of the step, and the greatest one not above the raw quantity, up to the division error |
| Sizing.DistancesAre | internal/domain/risk/position_sizing.go:109-116 | The distance is entry to stop, or a given ATR that is not zero times its multiplier, 1.5 when unset |
| Sizing.RejectionReasons | internal/domain/risk/position_sizing.go:60-90 | With exact division each rejection reason holds exactly when it names the first thing wrong: no balance, no distance, or the largest quantity within both bounds is not positive, below the minimum quantity or below the minimum notional |
| Risk.DecisionCharacterised | internal/domain/risk/decision.go:26-54 | Allowed iff the mode permits, all twelve rules hold and sizing approves; iff there are no reasons; iff the approved size is positive; a refusal's reasons are the mode code or the violated rules' codes in policy order, then INSUFFICIENT_BALANCE; with a step that is not negative every approved size keeps the risk and leverage bounds up to the division's slack, and the minima |
| Risk.EvaluationWrittenOut | internal/application/usecase/evaluate_risk.go:104-157 | From the inputs alone: a decision allows iff the mode is PAPER, TESTNET or REAL, the broker answers, data and signal are fresh, the stop is off the entry, no critical event is live on the symbol, drawdown, daily and weekly loss and positions are within limits, balance is available, the price is near the entry and sizing approves, and then for that size; otherwise its reasons are the mode code or the codes of what fails in order, then INSUFFICIENT_BALANCE |
| Risk.PolicyWrittenOut | internal/domain/risk/composite_policy.go:5-20 | The default policy reports the twelve findings, each under its own code, in its own order |
| Risk.RulesWrittenOut | internal/domain/risk/specifications.go:5-188 | Each of the twelve rules is violated exactly when the condition named for it on account, signal, events, price and limits fails |
| Risk.FailureIsReported | internal/domain/risk/composite_policy.go:47-58 | A code is among the reasons reported if and only if a finding with that code fails |
| Risk.CodesFollowThePolicy | internal/domain/risk/composite_policy.go:47-58 | The reason codes are those of exactly the violated rules, in policy order |
| Risk.NoCodesWhenNoneViolated | internal/domain/risk/composite_policy.go:47-58 | There are no reason codes if and only if no rule is violated |
| Risk.Evaluate | internal/domain/risk/composite_policy.go:47-58 | The loop allows exactly when no rule is violated, reports the violated rules' codes and applies every rule without stopping early |
| Risk.EvaluateRisk | internal/application/usecase/evaluate_risk.go:111-157 | Gate, policy, sizing and decision in sequence record the decision that the characterisation describes |
| Positions.PnLOverAnyRun | internal/domain/position/position.go:71-121 | After any marks and reductions realized P&L is the sum of side times (exit - entry) times quantity over the reductions, computed from the calls alone and off by at most eps per reduction; the last price is that of the latest mark or reduction short of closing; the version counts the calls that took effect; unrealized is its formula at the last price, and OPEN iff something is held |
| Positions.SplitReduction | internal/domain/position/position.go:92-116 | Two reductions at a price book what one does; only version, on closing the last price, and what three divisions round differ |
| Positions.ReduceBooks | internal/domain/position/position.go:95-116 | Any reduction up to the held quantity is accepted and books its own exit P&L up to eps |
| Positions.PositionAggregate.ReduceBy | internal/domain/position/position.go:95-116 | The method in place is the reduction, keeps the aggregate valid and changes nothing when it refuses |
| Positions.PositionAggregate.Mark | internal/domain/position/position.go:81-90 | Marking an open position revalues it; a closed one is refused unchanged |
| Positions.PositionAggregate.constructor | internal/domain/position/position.go:38-67 | A new position is open and valid |
| Accounts.AccountTotals | internal/domain/account/account.go:48-108 | After any calls balance is start plus realized P&L, available is balance minus net outstanding margin, and the daily and weekly totals are sums since their last reset |
| Accounts.NewAccountExactlyWhen | internal/domain/account/account.go:29-46 | A new account is refused exactly for a starting balance that is not positive |
| Accounts.AccountEquity | internal/domain/account/account.go:48-116 | After any calls equity is start plus realized P&L plus the latest valuation, the mode is the last one set, and the version is one plus the calls that took effect |
| Accounts.PeakIsMaximum | internal/domain/account/account.go:56-59 | Peak equity bounds every equity ever held and was one of them |
| Accounts.AccountDrawdown | internal/domain/account/account.go:84-94 | After any calls drawdown is the clipped loss from the peak and lies in [0, 1] |
| Accounts.DrawdownBounds | internal/domain/shared/drawdown.go:28-38 | For any two values the ratio lies in [0, 1] if and only if the peak is not negative or is reached, is zero at or above the peak and at a zero peak, the exact fraction below it while equity is not negative, and 1 below zero |
| Accounts.AccountAggregate.Handle | internal/domain/account/account.go:48-116 | Each mutator in place is its function; only a reservation beyond the available balance is refused, and then not even the version moves |
| Accounts.AccountAggregate.constructor | internal/domain/account/account.go:29-46 | A new account is fully available at its starting balance, in PAPER |
| Orders.LifecycleOverAnyCalls | internal/domain/order/order.go:83-160 | Over any calls: filled never exceeds quantity, FILLED means full with a price, every status but PENDING and FAILED has a broker id, and version is one plus the accepted calls |
| Orders.TerminalAbsorbs | internal/domain/order/status.go:32-39 | From a terminal status every later call is refused and nothing changes |
| Orders.TerminalExactlyWhenStuck | internal/domain/order/status.go:32-67 | A status is terminal, FILLED, CANCELLED, REJECTED or FAILED, if and only if no call leads out of it |
| Orders.AcceptsExactlyWhen | internal/domain/order/status.go:42-67 | For each call the statuses it is accepted from, and the arguments it demands, both ways |
| Orders.CallEffects | internal/domain/order/order.go:94-160 | An accepted call sets its status, the fields it reports and one version more, and nothing else |
| Orders.NewPendingExactlyWhen | internal/domain/order/order.go:56-80 | A new order is refused exactly for a zero quantity or a missing strategy, and otherwise carries its terms, PENDING and unfilled |
| Orders.AcknowledgedWasSubmitted | internal/domain/order/order.go:94-103 | A broker id on an order goes back to one accepted Submit that carried it |
| Orders.OrderAggregate.Handle | internal/domain/order/order.go:94-160 | Each transition method in place is its function, and a refused call changes nothing |
| Orders.OrderAggregate.Move | internal/domain/order/order.go:83-91 | The status moves exactly when the table admits it, with one version step |
| Orders.OrderAggregate.constructor | internal/domain/order/order.go:38-81 | A new order is PENDING at version 1 with nothing filled |
| Operation.ModeSafety | internal/domain/operation/mode.go:38-82 | Over any requests REAL carried the exact token, and PAUSED lies between a restricted mode and any later entry-allowing one |
| Operation.TransitionExactlyWhen | internal/domain/operation/state.go:49-71 | For each target the modes it may be entered from, with the exact token for REAL and actor and reason given, both ways; the new row records the request, one version on |
| Operation.RecoveryPassesThroughPaused | internal/domain/operation/mode.go:42-49 | The same for any log the transition table admits |
| Operation.RunsAreValid | internal/domain/operation/state.go:49-71 | Every run yields an admissible log that ends in the row's mode and has one entry per version |
| Operation.State.TransitionTo | internal/domain/operation/state.go:49-71 | The method in place is the transition; a refusal for table, token, actor or reason changes nothing |
| Operation.State.constructor | internal/domain/operation/state.go:22-31 | The system starts in PAPER at version 1 |
| Reconciliation.Reconcile | internal/application/usecase/reconcile_broker_state.go:54-150 | The report carries exactly the expected lines up to the read that ended the pass, counted, critical iff one of them is; the pass fails iff a local read does after the broker account answered; it goes on to force CLOSE_ONLY iff the account and all local reads answered and the broker's positions or orders did not or lack a local position |
| Reconciliation.CriticalExactlyWhen | internal/application/usecase/reconcile_broker_state.go:85-119 | A pass that no failed read ends is critical iff the broker's positions or orders are unreachable or a local position is missing |
| Reconciliation.CriticalButNotForced | internal/application/usecase/reconcile_broker_state.go:95-114 | A reachable account, a missing position and a failed read of the local orders make a critical report after which nothing is forced |
| Reconciliation.ReportCountIsExact | internal/application/usecase/reconcile_broker_state.go:72-131 | With every read succeeding the count is the balance and equity mismatches, the missing positions, the pairs out of tolerance and the lost acknowledged orders |
| Reconciliation.ReportSaysWhatIsSo | internal/application/usecase/reconcile_broker_state.go:72-131 | With every read succeeding a line is reported if and only if what it says is so: of balance, equity, this local position, its quantity here and there, or this acknowledged order |
| Reconciliation.CriticalMeansPositionMissing | internal/application/usecase/reconcile_broker_state.go:95-101 | With every read succeeding a pass is critical iff some local position is unknown to the broker |
| Reconciliation.DivergesIsOutOfBand | internal/application/usecase/reconcile_broker_state.go:152-159 | Two figures diverge iff they differ by more than the tolerance times the local one, and any difference counts against a local zero |
| Reconciliation.ComparePositions | internal/application/usecase/reconcile_broker_state.go:91-108 | The nested loops add the lines of missing positions and of pairs out of tolerance, in order |
| Reconciliation.ComparePairs | internal/application/usecase/reconcile_broker_state.go:102-107 | The inner loop adds one line per same-symbol pair out of tolerance |
| Reconciliation.CompareOrders | internal/application/usecase/reconcile_broker_state.go:121-130 | Adds one line per acknowledged local order whose broker id the broker does not list |
| Reconciliation.CompareFunds | internal/application/usecase/reconcile_broker_state.go:72-79 | Balance and equity are compared independently |

## Left out

- Binance broker and feeds, Gemini, Telegram, Redis, RSS, storage: network clients; a broker answer is any success, error or not-found.
- HTTP, presenters, configuration, wiring, logging, metrics, bootstrap: the bootstrapped account and mode row are the initial state.
- SQL text, JSON payloads, timestamps and actor columns of rows: a statement is its effect on the tables.
- Decimal internals and NUMERIC(24,8) column rounding: amounts are exact reals, except that sizing, the simulator and position reductions take a division off by up to `eps`; the drawdown and tolerance ratios are those of exact division.
- Sizing.SizingIsOptimal: for a step that is not negative; a negative one, which no configuration means, is not covered.
- Broker requests with quantity zero: the only caller refuses them when it builds the order (`internal/domain/order/order.go:56-58`).
- Broker order ids are `Order(n)` and `Stop(n)` for their two rendered prefixes; that the renderings differ is taken from the format strings.
- Protective stops in the protocol: PlaceStop after a booked fill writes no table; stop and target prices are not carried, nor is the shortened client id of a stop, so clashes between shortened ids are not examined.
- Incidents, notifications and the divergence event: the incident tables and the event bus are not part of this model, except that an incident without an origin stops a kill switch.
- Text of a recorded broker failure: a constant in the protocol, since nothing depends on it.
- Row ids are places in a table, as rows are never deleted; the random UUIDs never collide.
- Clocks: all processes share one monotonic clock for reservations; wall-clock skew is not modelled.
- Order of claims among concurrent outbox workers: in the state machine any PENDING rows may be claimed, since rows locked by a claim in flight are skipped; one claim on its own takes the oldest.
- Agreement of the outbox state machine with the outbox table of `Storage`, which records the emitted events only.
- OutboxWorker.Worker.Run: a given number of ticks stands for the loop until cancellation.
- Applied-rule names of a mode-blocked decision and the recorded event restrictions: they gate nothing.
- GetPositions, GetOpenOrders, GetOrder of the simulator: plain listings.
- Market-event processing, the quant engine, candle and signal constructors, parsing of mode names, migrations: single-pass checks.
- Agreement between simulator book and local tables across a paper reset, liveness of execution, and a system-wide cap on open positions under concurrent decisions: the code does not promise them.
