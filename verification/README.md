# Verified model of the EDGE execution, timing and delivery core

EDGE plans option trades on NIFTY, watches breakouts of the opening range and reports what it sees. This project models
the parts that keep state over time, and proves what they promise about every run, not only about single calls.

**The sandbox executor.** One record of orders and trades is changed by small guarded steps: plan, claim, submit,
reconcile, protect, cancel, leave, book, archive. `SandboxSpec` gives each step as a function on values; `Sandboxes.Sandbox`
is the same engine with its fields updated in place, each method proved to do what its function says.
`SandboxInvariant` and `SandboxSteps` hold the inductive invariant. `SandboxWorld` and `SandboxRuns` put any number of
processes, the owner and a broker around the stored record, in any interleaving: processes crash, keep going after their
lease was taken, lose replies; the broker is arbitrary, except that fills only grow, finished rows never change, and what
it reports of our orders was true at some time. `NoOversell`, `NoRequeue`, `SandboxHistory`, `CapitalBound` and
`LossBound` are the results on those runs; `SandboxResolved` keeps account of the trades the owner resolved by hand, which the record no
longer follows; `LossExample` is a day without the loss bound's condition; `SandboxDecisions`, `SandboxManaging`, `SandboxReconciling`,
`SandboxClaiming`, `SandboxOwner` and `SandboxTicks` say what each decision is, both ways, on the record, the quotes and the clock alone,
without the functions that compute it.
`SandboxStores` and `SandboxWorkers` are the transactions and one process's tick.

**The paper broker.** `PaperSpec` and the class in `PaperBrokers` model the simulated book. `PaperAgreement`, `PaperRuns` and
`PaperSafety` compose it with the executor: one process at a time, restarted at will, whose calls may land late or lose
their acknowledgement, and whose reads may fill orders after a new process took over. Its moves are moves of the general
world, so safety carries over, and it is proved exactly when reconciling goes through. `PaperExample` is a day on which it
does not. `PaperAnswers` says when a row fills, and when a placement or a cancel is taken.

**The V3 breakout tracker.** `BreakoutSpec` defines breakouts declaratively over the settled closes; `BreakoutTrackers` is the
tracker with its maps and loops, proved to compute them. `BreakoutSittings` and `BreakoutEntries` reason about every
sequence of evaluations of a session. `BreakoutAnswers` says exactly when a close settles, a breakout is confirmed, the data are
trusted and an entry is offered.

**The archive loader** (`ArchiveLoader`, `ArchiveLoaderProofs`, `ArchiveReader`), **the CSV tokenizer** (`InstrumentCsv`), **the FIFO
tradebook** (`Tradebook`, `TradebookEpisodes`, `TradebookImports`), **the Telegram outbox and reducer** (`TelegramOutbox`,
`TelegramDelivery`, `TelegramEpisodes`, `TelegramEpisodeRuns`) and **the shadow event recorder** (`ShadowEvents`, `ShadowEventRuns`)
follow the same plan: values and functions for what happens, methods with loops for how, lemmas over all runs, and in
`ArchiveAnswers`, `TelegramAnswers`, `OutboxAnswers` and `ShadowAnswers` exactly when each thing happens.

Conventions: money of the executor is in whole paise, times are whole milliseconds, `Day(t)` is the IST calendar day. Hashed
identities are the tuples hashed. A thrown error is an `Err` or `Fault`; the store then keeps the record it had.

## What turned out not to hold as the source's comments say

- A breakout built on a revised candle does not always leave CONFIRMED: when the same or an earlier response contradicts the
  frozen range, the merge is skipped for good. `BreakoutEntries.RevisedNeverConfirmed` gives the exact condition and
  `BreakoutExample.RevisedYetConfirmed` a sitting. Such a breakout is still never offered for entry (`BreakoutEntries.EntrySound`).
- The loader's count test can pass although a cached row was deleted, if another row with a lower sequence number committed
  late. `ArchiveLoaderProofs.LoadExactIff` is the exact condition, `ArchiveLoaderProofs.CountCoincidence` the case.
- The loader's last full read can be reached: after the whole-archive scan, exactly when a cached key was written again
  beyond the cursor or the cache holds a key twice among what it keeps (`ArchiveLoaderProofs.FallbackIff`). Runs of loads
  from an empty cache reach it either way: `ArchiveLoaderProofs.RewrittenFallsBack` and `ArchiveLoaderProofs.DuplicateFallsBack`.
- A CSV field that itself ends in a carriage return loses it, except as the last field of a CRLF record; a last record that is
  one empty field and has no line end is not seen (`InstrumentCsv.RoundTripIff`, `InstrumentCsv.UnendedIff`).
- An exit is priced at the bid, so the daily loss limit bounds nothing on its own: `LossExample.LimitBroken` is a day on
  which every fill honours its limit and one trade, planned within the limit, loses more than twice the limit, because
  the bid fell through the stop before the stop was sent. The bound holds while no exit of the day's trades is priced below
  its stop limit (`LossBound.DailyLossBound`). For each trade `LossBound.ExitFillExact` says exactly when a working exit can still
  make it lose more than planned, and `LossBound.ExitLimitExact` that after a full entry this is so if and only if the
  exit is priced below the stop limit.
- The paper broker's positions reflect the fills of the book read before them within one process only
  (`PaperSafety.OneProcessAgrees`). A read begun by a process that was since replaced may fill orders between the two, and
  then the tick fails with a position mismatch, exactly when some instrument's net moved (`PaperSafety.PaperNeverDisagrees`,
  `PaperSafety.CrossedExactly`); `PaperExample.ReadsCrossed` is such a day.

## Model

| member | source | states |
|---|---|---|
| NoOversell.NeverOversold | src/execution/sandboxEngine.js:182-279 | On every run of any number of processes, the owner and an honest broker, and for every trade ever planned, in the record or archived, resolved by hand or not, the broker's own rows never show more sold than bought |
| SandboxResolved.RunSettled | src/execution/sandboxEngine.js:49-69 | In every state of every run: of each trade the owner resolved, what its SELL orders have sold or may still sell, counting an expired order that was or is about to be sent in full, is within what was bought; and what the record says of any order, resolved or not, is not beyond the broker's row |
| SandboxResolved.StepSettled | src/execution/sandboxService.js:94-155 | Every event keeps that bound: nothing is sent for a resolved trade any more, and its orders rest |
| SandboxResolved.NewlyBounded | src/execution/sandboxEngine.js:57-66 | Resolving, which expires working orders without asking the broker, starts within the bound, because the record counted them in full |
| NoOversell.PlacedAtMostOnce | src/execution/sandboxEngine.js:280-306 | On every run, over takeovers, crashes and lost replies: no order id is placed twice, an order that was placed is never queued again, and at most one submission is in doubt |
| NoRequeue.NeverQueuedAgain | src/execution/sandboxEngine.js:280-306 | On every run an order that left the queue never returns to it, in the record or the archive |
| SandboxHistory.HistoryLasts | src/execution/sandboxEngine.js:83-96 | From any moment of any run to any later one the archive only grows, row by row unchanged, every trade is still known with its plan, and a closed trade is there without any change |
| SandboxHistory.HistoryCounted | src/execution/sandboxEngine.js:82-96 | In every state of every run each trade ever planned is in exactly one place, record or archive, and the total behind the capital ceiling is the sum of the results of every trade that ever filled and closed |
| SandboxHistory.StepLasts | src/execution/sandboxService.js:94-155 | No event loses or alters a closed trade, and the booked total moves only with the rows archived |
| CapitalBound.WithinCapital | src/execution/sandboxEngine.js:157-167 | At every moment of every run, what the open trade's entry costs at its limit, with the cost reserve, is within the capital less the losses of every trade that ever filled and closed, archived ones included |
| CapitalBound.StepCapital | src/execution/sandboxService.js:94-155 | Every event keeps an open position within that ceiling: the one open trade that closes leaves none open, and nothing else moves the total |
| SandboxRuns.RunStructure | src/execution/sandboxEngine.js:160-180 | In every state of every run: one open trade at most, working orders only in it, one ENTRY, at most one STOP and three EXITs per trade, never a STOP and an EXIT working together, at most three cancel requests per order, the daily trade limit, one trade per breakout, and what is sold or may still be sold was bought |
| SandboxRuns.StepSafe | src/execution/sandboxService.js:94-155 | Each store step, broker call, crash and owner command keeps the record, the archive, the calls in flight and the broker's rows consistent |
| SandboxRuns.RunSafe | src/execution/sandboxService.js:87-178 | Every state of every run satisfies the whole invariant, policy check included |
| SandboxRuns.PrepareSafe | src/execution/sandboxService.js:129-141 | The main transaction keeps the invariant, and fails only where reconciling does |
| LossBound.DailyLossBound | src/execution/sandboxEngine.js:226-231 | On a day begun flat, with an unchanged policy, and for the trades of that day a broker that honours limits and no exit below its stop limit: every trade closed that day nets at least minus its planned risk and the realised result of the day never falls below minus the daily loss limit, at any moment |
| LossBound.TradeLossBound | src/execution/sandboxEngine.js:165-166 | A flat trade whose exits were not priced below its stop limit nets at least minus its planned risk |
| LossBound.ExitFillExact | src/execution/sandboxEngine.js:272-274 | Of a trade whose last exit is working, for all it holds: some fill that honours the exit's limit nets below minus the planned risk if and only if selling at that very limit does |
| LossBound.ExitLimitExact | src/execution/sandboxEngine.js:272-274 | Of a trade whose entry filled in full at its limit and of which nothing was sold: some fill of its working exit that honours the limit nets below minus the planned risk if and only if the exit is priced below the stop limit |
| LossExample.LimitBroken | src/execution/sandboxEngine.js:252-276 | A concrete day from a flat armed record, through plan, entry, fill, fallen bid, exit at the bid and booking, with every limit honoured, that ends more than twice the daily loss limit down |
| PaperSafety.PaperNeverDisagrees | src/execution/sandboxEngine.js:182-241 | On every day on the paper broker, with restarts, late landings, late reads and lost acknowledgements: whenever a tick prepares, reconciling and the transaction go through if and only if the positions read are those of the book read, as they are unless a former process's read filled orders in between; otherwise the one error is a position mismatch; and when they go through every order of the day has the id, fill and state of its row as read |
| PaperSafety.OneProcessAgrees | src/execution/paperBroker.js:100-122 | While one process runs and no read of an earlier one is on its way, reconciling and the transaction always go through |
| PaperSafety.CrossedExactly | src/execution/paperBroker.js:100-128 | Reading the positions now gives those of the book read before if and only if no instrument's net has moved since |
| PaperExample.ReadsCrossed | src/execution/paperBroker.js:100-128 | A concrete day from a flat armed record: plan, send, acknowledge, a read begun, a restart and take-over, the new process's book read, the old read filling the entry, the positions read; the lease holder's tick then fails with a position mismatch |
| PaperSafety.PaperStepOk | src/execution/paperBroker.js:65-128 | Every move of the process, the paper broker and the owner keeps record and book in step: terms equal, fills no further than the book, finished orders exactly as their rows |
| PaperSafety.AsEventEnabled | src/execution/paperBroker.js:51-128 | Every move on the paper broker is a move of the executor beside an arbitrary honest broker, so that world's safety applies |
| PaperLoss.PaperLossBound | src/execution/paperBroker.js:55-57 | The daily loss bound holds on the paper broker, whose fills honour limits |
| SandboxManaging.ManageReason | src/execution/sandboxEngine.js:244-262 | An open trade without a reason leaves if and only if trading was stopped, the day or 15:15 is over, the realised and marked result reaches the loss limit, the bid is at or below the stop or at or above the target, or its stop was rejected or ended; the reason given is the first of these in that order, and nothing but a fresh quote on something held counts |
| SandboxManaging.ManageLocks | src/execution/sandboxEngine.js:252-256 | Managing locks the day exactly when something is held and the result marked at a fresh bid reaches the limit; no trade changes but for the reason of this one, and a reason once given stays |
| SandboxManaging.ManageUnsent | src/execution/sandboxEngine.js:249 | A queued entry that is late or no longer wanted expires, and nothing else happens |
| SandboxManaging.ManageOrders | src/execution/sandboxEngine.js:250-277 | What managing does to every order of the record: the entry is frozen once something filled or its time is over; a leaving trade's entry and stop expire or are to be cancelled, the stop only with a live quote; exits are chased after fifteen seconds once the guards are over; all others stay as they are |
| SandboxManaging.ManageAdds | src/execution/sandboxEngine.js:251-276 | Exactly when one order is added and which: an exit for all that is held at the highest tick not above the bid, or a stop for all that is held at the planned prices; and exactly when managing halts, for a position without a fresh quote or after three exits |
| SandboxReconciling.ReconcileIff | src/execution/sandboxEngine.js:182-241 | For every record, book and positions: reconciling goes through if and only if no prior-day trade is open beside a derived book, row ids are present and distinct, every order that must be heard is shown once by a row of its own terms (or, where positions are read, not once), every other row is finished, no trade sold more than it bought, and on every instrument the positions are what is expected; then every order is what its row says, every flat trade is booked and the day locked as the results demand |
| SandboxReconciling.ReconcileHalts | src/execution/sandboxEngine.js:194-216 | After a reconciliation entries are halted and disarmed if and only if some order that had to be heard has no row or several, or a cancel past its third attempt is fifteen seconds old; otherwise arming and halt are as before |
| SandboxClaiming.ClaimIff | src/execution/sandboxEngine.js:280-293 | What is sent, both ways: with a reconciliation of the last ten seconds and nothing in flight, the cancel of the first order due for one, else the first queued stop, else the first queued exit, else the first entry that may be sent, the blocked ones before it expired; nothing is sent only if none of these is there |
| SandboxDecisions.PlannedIff | src/execution/sandboxEngine.js:136-181 | An entry is queued if and only if a fresh candidate with fitting metadata is offered and some plan on the tick for it is within every limit; otherwise the record is untouched |
| PaperAnswers.ReadIff | src/execution/paperBroker.js:51-120 | Every row after a read of the book: filled whole at the ask or the bid if and only if it was working today, the session is open at both ends of the read, the quote is usable, a pending stop's trigger is at or above the bid and the limit is met; only opened if the trigger alone is reached; else unchanged |
| BreakoutAnswers.EntryIff | src/engine/shadowTimingV3.js:212-238 | An evaluation offers the entry if and only if the last breakout of its direction is confirmed and at most ten minutes old, the data are trusted, the four gates are open, the newest close that must be there is past the level, and so is the spot, by at most half the range |
| Tradebook.ByTimeIs | src/trading/kiteTradebook.js:62 | The fills are matched in one order: the same fills, none before an earlier one by time, then order, then trade, and ties as they were |
| TradebookEpisodes.EpisodesAre | src/trading/kiteTradebook.js:63-88 | Each fill adds an episode if and only if it sells the last unit held; the episode reaches from the buy after which something was held ever since, with what was bought, paid and received in between |
| BreakoutEntries.EntrySound | src/engine/shadowTimingV3.js:179-239 | Whenever an evaluation offers an entry: the crossing candle and its predecessor are settled and no read ever went against either, the predecessor closed not beyond the level, and every candle from the crossing through the newest that must have been confirmed is settled and closed beyond it; `BreakoutAnswers.EntryIff` says exactly when it is offered |
| BreakoutEntries.RevisedNeverConfirmed | src/engine/shadowTimingV3.js:81-97 | In every sitting, no confirmed breakout rests on a revised close exactly as long as no evaluation overlooked one: a read against a confirmed breakout's candles in a response that contradicts the frozen range, or after one |
| BreakoutExample.RevisedYetConfirmed | src/engine/shadowTimingV3.js:187 | A concrete sitting of three evaluations in which the merge is skipped and a breakout stays confirmed on a revised crossing candle |
| ArchiveLoaderProofs.GrowingLoadsExact | src/research/opportunitySource.js:50-87 | Over any sequence of loads of an archive that only grows, whatever sequence numbers commit late, each load returns exactly the full read in its one order |
| ArchiveLoaderProofs.LoadExactIff | src/research/opportunitySource.js:50-87 | For every cache and snapshot: the load equals a full read if and only if no cached row it carries over was deleted or replaced |
| ArchiveLoaderProofs.CountCoincidence | src/research/opportunitySource.js:56 | A concrete case in which the counts agree although the cached row was deleted, and the load returns the stale row |
| InstrumentCsv.RoundTripIff | src/execution/instrumentCatalog.js:5-14 | Printing records (every field quoted, LF or CRLF ends) and reading them returns the records if and only if no field ends in a carriage return that is taken for a line end's |
| Tradebook.FirstInFirstOut | src/trading/kiteTradebook.js:61-90 | The k-th unit that found a match was sold against the k-th unit bought, what is held is what was bought last, and all gains are the gains of these pairs |
| TelegramDelivery.SentAgainOnlyWhenLimited | src/notifications/telegramStore.js:59-98 | On every run of any number of senders, with crashes and expired leases: at most four sends per event, and a send is repeated only when every earlier one was answered with a rate limit |
| TelegramEpisodeRuns.EndsOnce | src/notifications/telegramEvents.js:79-112 | Over any stream no episode ends twice, and every alert that ended had been announced |
| TelegramEpisodeRuns.CountersEqualEvents | src/notifications/telegramEvents.js:65-112 | The day's readyAlerts and invalidations equal the events emitted since that day's record was begun |
| ShadowEventRuns.RecordedOnce | src/evidence/shadowEvents.js:41-127 | Over any replay: no crossing is recorded twice even after its event left the pending list, best and worst bound every sample, and a finished event is confirmed no more and has all horizons decided |
| ShadowEventRuns.RecordsGoOn | src/evidence/shadowEvents.js:79-125 | A status that left CONFIRMED never returns to it, a decided horizon is never written again, samples are only added, and a finished event never changes |
| Sandboxes.Sandbox.Halt | src/execution/sandboxEngine.js:97 | The reason is kept and new entries are disarmed; nothing else changes |
| Sandboxes.Sandbox.Control | src/execution/sandboxEngine.js:114-126 | STOP and ARM, and a repeated request id, leave the record the specification gives; a refused command leaves it untouched |
| Sandboxes.Sandbox.GiveReasons | src/execution/sandboxEngine.js:118 | Every open trade, and no closed one, gets the reason |
| Sandboxes.Sandbox.ConfigurePolicy | src/execution/sandboxEngine.js:25-45 | The new policy and the loss lock it may imply, or the refusal, as specified; a refusal leaves the record untouched |
| Sandboxes.Sandbox.ResolveTrade | src/execution/sandboxEngine.js:49-69 | A prior-day trade is booked on its own day with unsold quantity at zero and its working orders expired; refusals leave the record untouched |
| Sandboxes.Sandbox.ExpireOrders | src/execution/sandboxEngine.js:62 | Exactly the trade's working orders expire |
| Sandboxes.Sandbox.RequestModelExit | src/execution/sandboxEngine.js:72-75 | Only an open trade of today without a reason gets the model's |
| Sandboxes.Sandbox.Recover | src/execution/sandboxEngine.js:127-135 | A new process disarms, kills, distrusts the last reconciliation and marks interrupted calls uncertain; the same process changes nothing |
| Sandboxes.Sandbox.Interrupt | src/execution/sandboxEngine.js:130-133 | Exactly the calls being made become uncertain |
| Sandboxes.Sandbox.Streak | src/execution/sandboxEngine.js:77-80 | The loop counts the losing trades at the end of today's closed trades |
| Sandboxes.Sandbox.PlanEntry | src/execution/sandboxEngine.js:136-181 | The verdict and the planned trade with its entry order, or the unchanged record |
| Sandboxes.Sandbox.Budget | src/execution/sandboxEngine.js:154-173 | The limits are asked in order and the first that fails is the verdict |
| Sandboxes.Sandbox.CheckBook | src/execution/sandboxEngine.js:188-193 | The loop accepts exactly the books whose ids are present and distinct |
| Sandboxes.Sandbox.HearOrder | src/execution/sandboxEngine.js:194-216 | One order takes over what its one row says, or the mismatch, regression or halt the row calls for; `SandboxReconciling.OrdersHeard` says which |
| Sandboxes.Sandbox.HearOrders | src/execution/sandboxEngine.js:194-216 | The loop over the orders, to the first fault |
| Sandboxes.Sandbox.SettleTrade | src/execution/sandboxEngine.js:221-232 | A flat trade with all orders finished is booked and may lock the day; an oversold one is a fault |
| Sandboxes.Sandbox.SettleTrades | src/execution/sandboxEngine.js:221-232 | The loop over the trades, to the first fault |
| Sandboxes.Sandbox.Reconcile | src/execution/sandboxEngine.js:182-241 | The whole reconciliation, faults included, in both position modes |
| Sandboxes.Sandbox.WithdrawGuards | src/execution/sandboxEngine.js:264-268 | The trade's queued entry and stop expire and its working ones are to be cancelled, the stop only with a live quote; nothing else changes |
| Sandboxes.Sandbox.Chase | src/execution/sandboxEngine.js:277 | Exits of the trade sent long enough ago are to be cancelled |
| Sandboxes.Sandbox.Leave | src/execution/sandboxEngine.js:263-277 | Leaving: withdraw, wait, then one exit for what is held, or the halt after three |
| Sandboxes.Sandbox.Protect | src/execution/sandboxEngine.js:276-277 | Staying: one protective stop once the entry is finished |
| Sandboxes.Sandbox.Mark | src/execution/sandboxEngine.js:254-259 | Marking the position to the bid gives the loss, stop and target reasons in order, and locks the day when the limit is gone; `SandboxManaging.ManageReason` and `SandboxManaging.ManageLocks` say exactly when |
| Sandboxes.Sandbox.LookAt | src/execution/sandboxEngine.js:252-262 | The reasons to leave that quote and stop give, in order, and the day lock |
| Sandboxes.Sandbox.PrepareTrade | src/execution/sandboxEngine.js:250-262 | Freezing the entry, the stale-quote halt and the look at the quote |
| Sandboxes.Sandbox.ManageTrade | src/execution/sandboxEngine.js:244-278 | One trade managed |
| Sandboxes.Sandbox.Manage | src/execution/sandboxEngine.js:242-279 | The loop over the trades |
| Sandboxes.Sandbox.Claim | src/execution/sandboxEngine.js:280-293 | The one action claimed, by urgency, and the record with it marked; `SandboxClaiming.ClaimIff` says exactly which |
| Sandboxes.Sandbox.ClaimQueued | src/execution/sandboxEngine.js:285-291 | The first queued order of a kind is marked as being submitted |
| Sandboxes.Sandbox.ClaimEntry | src/execution/sandboxEngine.js:286-291 | Blocked entries expire until the first that may be sent |
| Sandboxes.Sandbox.Finish | src/execution/sandboxEngine.js:294-306 | The reply moves the one order on, or the transition is refused and nothing changes |
| Sandboxes.Sandbox.ClaimEmergencyCancel | src/execution/sandboxEngine.js:322-330 | After a stop or halt the first live entry with cancel budget is claimed for cancelling |
| Sandboxes.Sandbox.ArchiveClosed | src/execution/sandboxEngine.js:83-96 | The loop moves closed prior-day trades with finished orders out, up to the batch size |
| SandboxDecisions.PlannedMeans | src/execution/sandboxEngine.js:136-181 | A queued entry is within every limit and priced as planned; exactly one open trade with the planned limits and one matching order are added, and the entry may be sent for fifteen seconds but never past the candidate's own deadline |
| SandboxDecisions.PricesAreThePlan | src/execution/sandboxEngine.js:151-165 | The plan is the only one on the tick: the least price not below the ask, the highest stop limit a tick and half a percent below the stop, and the risk between them |
| SandboxDecisions.StopLimitIs | src/execution/sandboxEngine.js:152-154 | The stop limit is the highest tick at least one tick and half a percent below the stop |
| SandboxDecisions.CeilToIs | src/execution/sandboxEngine.js:152-153 | Rounding up gives the least tick not below the price |
| SandboxDecisions.FloorToIs | src/execution/sandboxEngine.js:152 | Rounding down gives the greatest tick not above the price |
| SandboxDecisions.ResultOfOne | src/execution/sandboxEngine.js:155-157 | Which results count for a day: those of trades closed on it that filled, those of all trades closed on it, or those of trades that opened on it; and which count for the ceiling |
| SandboxDecisions.ResultsAdd | src/execution/sandboxEngine.js:155-157 | Results of two lists of trades are those of both together, which with the one before fixes every sum of results |
| SandboxDecisions.TotalOfOne | src/execution/sandboxEngine.js:98-105 | An entry adds its fill to what was bought, any other order to what was sold, each at its average price |
| SandboxDecisions.TotalsAdd | src/execution/sandboxEngine.js:98-105 | Totals of two lists of orders are those of both together, which with the one before fixes every total |
| SandboxDecisions.ClaimMeans | src/execution/sandboxEngine.js:280-293 | Nothing is claimed beside a call in flight or on a stale reconciliation; cancels go first, then stops, exits and entries; an entry needs arming, no halt, the window and the recheck; `SandboxClaiming.ClaimIff` gives the other direction |
| SandboxClaiming.EmergencyIff | src/execution/sandboxEngine.js:322-330 | Once trading is stopped or halted, the first live entry with cancels left is cancelled, whatever else is in flight; otherwise nothing happens |
| SandboxClaiming.FinishIff | src/execution/sandboxEngine.js:294-306 | Only the order being sent or cancelled takes a reply; each reply moves it to its own state, and a reply that leaves the outcome open halts |
| SandboxDecisions.ExitMeans | src/execution/sandboxEngine.js:269-275 | A new exit sells exactly what is held at the bid rounded down, with a live quote, once every other order of the trade is finished |
| SandboxDecisions.StopMeans | src/execution/sandboxEngine.js:276 | A new stop covers exactly what is held at the planned prices and is the only one |
| SandboxDecisions.StreakMeans | src/execution/sandboxEngine.js:77-80 | There is one list of today's filled and closed trades in closing order, those that closed together in the record's order, and the streak is the longest run of losses at its end |
| SandboxDecisions.OneToday | src/execution/sandboxEngine.js:78 | That list is the only one: what closed at each instant and the closing order fix it |
| SandboxSteps.ControlSound | src/execution/sandboxEngine.js:114-126 | Owner control keeps the record sound and touches no order |
| SandboxOwner.ArmIff | src/execution/sandboxEngine.js:119-123 | Entries are armed if and only if the record is flat, reconciled in the last ten seconds and has room for the command |
| SandboxOwner.StopIff | src/execution/sandboxEngine.js:118 | A stop with a valid request id is always taken: disarmed, killed, every open trade leaves |
| SandboxOwner.CommandOnce | src/execution/sandboxEngine.js:117 | A command is taken once; another under its id is refused |
| SandboxOwner.RecoverIff | src/execution/sandboxEngine.js:127-135 | A new process finds nothing armed, every open trade leaving and every call under way in doubt |
| SandboxOwner.ResolveIff | src/execution/sandboxEngine.js:49-69 | A trade is resolved if and only if it is open and of an earlier day with trading stopped; it is booked at the close of its own day and its working orders expire |
| SandboxSteps.ConfigureSound | src/execution/sandboxEngine.js:25-45 | A policy change keeps the record sound and its own validity |
| SandboxSteps.RecoverSound | src/execution/sandboxEngine.js:127-135 | Recovery keeps the record sound and no broker-given fact changes |
| SandboxSteps.ModelExitSound | src/execution/sandboxEngine.js:72-75 | A model exit keeps the record sound |
| SandboxSteps.ResolveSound | src/execution/sandboxEngine.js:49-69 | Resolving a trade by hand keeps the record sound |
| SandboxSteps.PlanSound | src/execution/sandboxEngine.js:136-181 | Planning keeps the record sound and changes no existing order |
| SandboxSteps.ReconcileOrdersSound | src/execution/sandboxEngine.js:194-216 | Hearing from an honest book keeps the record sound, each order changing only as its row says |
| SandboxSteps.ReconcileSound | src/execution/sandboxEngine.js:182-241 | Reconciling keeps the record sound |
| SandboxReconciling.OrdersHeard | src/execution/sandboxEngine.js:194-216 | The orders are heard one by one: the loop fails exactly at an order that cannot be, and tells each what its one row says |
| SandboxReconciling.TradesSettle | src/execution/sandboxEngine.js:221-232 | Exactly the flat open trades with all orders finished are booked, and the day is locked exactly when the results with one just booked reach the limit |
| SandboxReconciling.AgreeEverywhere | src/execution/sandboxEngine.js:220-239 | Comparing the instruments that occur is comparing all of them |
| SandboxSteps.ManageTradeSound | src/execution/sandboxEngine.js:244-278 | Managing one trade keeps the record sound, partial fills and cancel races included |
| SandboxSteps.ManageSound | src/execution/sandboxEngine.js:242-279 | Managing all trades keeps the record sound |
| SandboxSteps.ClaimSound | src/execution/sandboxEngine.js:280-293 | Claiming keeps the record sound and starts a submission only when none is in doubt |
| SandboxSteps.FinishSound | src/execution/sandboxEngine.js:294-306 | A reply keeps the record sound and moves one order only |
| SandboxSteps.EmergencySound | src/execution/sandboxEngine.js:322-330 | An emergency cancel keeps the record sound, cancel budget included |
| SandboxSteps.GiveUpSound | src/execution/sandboxService.js:146-150 | Giving an entry up keeps the record sound |
| SandboxInvariant.OrderStepsKeep | src/execution/sandboxEngine.js:98-105 | Orders that only move towards their end keep every trade's totals within what was bought |
| SandboxInvariant.AddKeeps | src/execution/sandboxEngine.js:106-113 | A new sell order of at most what is held, added when nothing of the trade works, keeps every trade's totals within what was bought |
| SandboxArchive.ArchiveConserves | src/execution/sandboxEngine.js:83-96 | Archiving keeps the record sound and loses no trade, no order and none of the result that sets the capital ceiling |
| SandboxTicks.ArchiveIff | src/execution/sandboxEngine.js:83-96 | The trades archived are exactly the first ones ripe for it, as many as a batch takes, in the order of the record |
| SandboxWorld.ReconcileSafe | src/execution/sandboxEngine.js:182-241 | What reconciling adopts from an honest book agrees with the broker's rows |
| SandboxWorld.ClaimSafe | src/execution/sandboxEngine.js:280-293 | A claimed submission was never sent before and is held by one process |
| SandboxWorld.SendSafe | src/execution/sandboxService.js:154 | A placeOrder call, landed or not, answered or not, keeps record and broker consistent |
| SandboxWorld.RecordSafe | src/execution/sandboxService.js:155 | Recording a reply, or not owning the lease any more, keeps record and broker consistent |
| SandboxWorld.GiveUpSafe | src/execution/sandboxService.js:146-150 | An entry given up was never sent and no process may send it |
| SandboxWorld.AcquireSafe | src/execution/sandboxService.js:95-98 | Taking over a lease keeps record and broker consistent |
| SandboxRuns.FailSafe | src/execution/sandboxService.js:165-169 | The failure path keeps record and broker consistent |
| SandboxTicks.AcquireIff | src/execution/sandboxService.js:95-98 | The lease is taken if and only if it is free, ran out or is one's own, and then lasts thirty seconds |
| SandboxTicks.RecheckIff | src/execution/sandboxService.js:146-150 | An entry goes out only while armed, allowed and under the lease; otherwise its order expires |
| SandboxTicks.FailIff | src/execution/sandboxService.js:165-169 | After a failure the lease's owner halts, distrusts the reconciliation and cancels the first live entry with cancels left, unless flat within the grace period |
| SandboxStores.SandboxStore.Mutate | src/execution/sandboxStore.js:15-31 | Record and archive rows are committed together or both stay as they were |
| SandboxStores.SandboxStore.Save | src/execution/sandboxStore.js:22-30 | A database failure after any number of inserted rows puts everything back |
| SandboxStores.ArchivingKeepsHistory | src/execution/sandboxStore.js:24-29 | Every trade is in exactly one of record and archive before and after a committed archiving step, and the rule that skips known rows skips none |
| SandboxWorkers.SandboxWorker.AcquireLease | src/execution/sandboxService.js:95-98 | The lease is taken exactly when it is free, expired or already held, with recovery |
| SandboxWorkers.SandboxWorker.Prepare | src/execution/sandboxService.js:129-141 | The main transaction as a whole or not at all, under a valid lease only |
| SandboxWorkers.SandboxWorker.PrepareRecord | src/execution/sandboxService.js:131-140 | The engine's steps in order on one copy of the record |
| SandboxWorkers.SandboxWorker.RecheckEntry | src/execution/sandboxService.js:146-150 | An entry whose conditions lapsed is expired in the store before it is sent |
| SandboxWorkers.SandboxWorker.RecordReply | src/execution/sandboxService.js:155 | A reply is recorded by the lease owner only; a refused transition changes nothing |
| SandboxWorkers.SandboxWorker.HandleFailure | src/execution/sandboxService.js:158-175 | Halt, distrust and the emergency cancel, or nothing when flat within the grace period |
| PaperBrokers.PaperBroker.PlaceOrder | src/execution/paperBroker.js:65-88 | One row per tag and day: refused outside the session, answered with the existing row, or added, with rows older than a week dropped |
| PaperBrokers.PaperBroker.DropBefore | src/execution/paperBroker.js:84 | Exactly the rows before the cutoff go |
| PaperBrokers.PaperBroker.Cancel | src/execution/paperBroker.js:89-98 | A working row is cancelled and nothing else changes; anything else is refused |
| PaperBrokers.PaperBroker.Read | src/execution/paperBroker.js:103-120 | Today's working rows fill at most as the live quotes allow, then today's rows are shown; rows only grow |
| PaperBrokers.PaperBroker.FillRow | src/execution/paperBroker.js:51-58 | One fill decision on one row; `PaperAnswers.ReadIff` says exactly when a row fills |
| PaperBrokers.PaperBroker.GetPositions | src/execution/paperBroker.js:121-128 | Per instrument the positions hold what today's rows bought less what they sold |
| PaperSpec.FillGrows | src/execution/paperBroker.js:51-58 | A fill is whole and within the limit, a finished row never changes, a triggered stop stays open |
| PaperSpec.PlaceKeeps | src/execution/paperBroker.js:73-86 | A placement keeps ids unique and one row per tag and day, and shows at most one new row |
| PaperSpec.PlaceAgain | src/execution/paperBroker.js:77-79 | A repeated placement answers as the first did and changes nothing |
| PaperAnswers.PlaceIff | src/execution/paperBroker.js:65-88 | When a placement is refused, rejected, answered with the row that is there, or written with the terms asked for, and which rows are kept |
| PaperAnswers.CancelIff | src/execution/paperBroker.js:89-98 | A cancel is acknowledged if and only if the row is known and still works, and changes that row only |
| PaperSpec.PositionsAreNet | src/execution/paperBroker.js:121-128 | Positions summed per instrument equal the signed fills of the rows |
| PaperAgreement.JudgeAgrees | src/execution/sandboxEngine.js:194-216 | Judging a tracked order by the paper book never fails and settles it |
| PaperAgreement.ExpectedIsBookNet | src/execution/sandboxEngine.js:220-224 | What the settled record expects to hold of an instrument is what the rows net to |
| PaperAgreement.ReconcileAgrees | src/execution/sandboxEngine.js:182-241 | Reconciling an agreeing record with the paper broker's rows and any intraday positions succeeds exactly when the positions are the rows' nets, fails with a position mismatch otherwise, and if it succeeds settles every order of the day |
| PaperRuns.Carry | src/execution/sandboxEngine.js:242-293 | Between two readings, whatever the executor does to its orders keeps them tracking the book |
| PaperSafety.TickReconciles | src/execution/sandboxService.js:129-131 | Reconciling with what was read, though calls and fills landed since, goes through exactly when the two reads match, and leaves the record in step with the book as it is now |
| BreakoutSafety.BuiltWellFormed | src/engine/shadowTiming.js:15-36 | An available source has its candles strictly in time order on the five-minute grid of the session with a proper range, and every usable bar is among them |
| BreakoutAnswers.RangeOfBars | src/engine/shadowTiming.js:15-36 | There is a range if and only if 09:30 has passed, no time came twice, the three bars of the opening are there and it is not empty; it runs from their lowest low to their highest high |
| BreakoutSafety.NoOverlap | src/engine/shadowTimingV3.js:56-79 | The earlier of two breakouts of a direction ended before the later one crossed |
| BreakoutSafety.OneDirection | src/engine/shadowTimingV3.js:56-79 | An up and a down breakout never both last |
| BreakoutSafety.MergedConfirmed | src/engine/shadowTimingV3.js:81-97 | A breakout confirmed after a merge crosses in the settled closes, has not ended and rests on no revised close |
| BreakoutAnswers.MergeIff | src/engine/shadowTimingV3.js:56-97 | After a merge the breakouts are the known ones and all crossings of the settled closes; one is confirmed if and only if it crosses, every later close is past the level, neither close of the crossing was revised and it was not invalidated for that before |
| BreakoutAnswers.BreakoutIff | src/engine/shadowTimingV3.js:179-187 | The same of a whole evaluation, and that the breakouts stay as they are when it could not read or the range was contradicted |
| BreakoutSafety.MergedOneConfirmed | src/engine/shadowTimingV3.js:81-97 | After every merge at most one breakout of either direction is confirmed |
| BreakoutSafety.RevisedIff | src/engine/shadowTimingV3.js:136-145 | A response counts as a conflict exactly when one of its candles goes against a settled close |
| BreakoutSittings.AtMostOneConfirmed | src/engine/shadowTimingV3.js:81-97 | In every state of every sitting at most one breakout is confirmed |
| BreakoutSittings.FrozenRange | src/engine/shadowTimingV3.js:103-116 | Once frozen, the opening range never changes |
| BreakoutSittings.SettledTwice | src/engine/shadowTimingV3.js:148-157 | A close settles only after two agreeing reads at least a minute apart, the first a minute past its close, with every read between in agreement |
| BreakoutSittings.RangeFrozenTwice | src/engine/shadowTimingV3.js:117-127 | The range is frozen only by two equal readings at least a minute apart |
| BreakoutAnswers.CloseIff | src/engine/shadowTimingV3.js:130-158 | What one evaluation does to each candle, both ways: an agreeing read a minute after the first settles it, a differing one starts over, a settled close read differently is replaced and marked, and no other candle changes |
| BreakoutAnswers.RangeIff | src/engine/shadowTimingV3.js:103-128 | The range is frozen if and only if the same one waited for a minute; a frozen one is contradicted by any other |
| BreakoutAnswers.TrustedIff | src/engine/shadowTimingV3.js:160-177 | The data are trusted if and only if the market is open, the response is of the session and whole, the range was never contradicted, the newest candle that must be there is settled, and every dispute was cleared by a later candle read twice |
| BreakoutEntries.LatestIsNear | src/engine/shadowTimingV3.js:42-45 | While a settled breakout is fresh, the newest expected candle is the crossing candle or the next |
| BreakoutEntries.RevisedStep | src/engine/shadowTimingV3.js:186-187 | One evaluation keeps confirmed breakouts off revised closes exactly unless it overlooks one |
| BreakoutEntries.TrustNeedsLaterCandle | src/engine/shadowTimingV3.js:160-176 | After a read against a settled close the data is trusted again only once a candle that started later is confirmed and unrevised |
| BreakoutTrackers.BreakoutTracker.ReadRange | src/engine/shadowTimingV3.js:103-128 | One reading of the range: wait, restart the wait, freeze, or record the conflict |
| BreakoutTrackers.BreakoutTracker.ReadCandle | src/engine/shadowTimingV3.js:133-158 | One reading of one candle and whether it is a conflict |
| BreakoutTrackers.BreakoutTracker.ReadResponse | src/engine/shadowTimingV3.js:130-162 | The loop over a response and the time trust waits for |
| BreakoutTrackers.BreakoutTracker.SortedTimes | src/engine/shadowTimingV3.js:57 | All settled times, strictly in order |
| BreakoutTrackers.BreakoutTracker.Walk | src/engine/shadowTimingV3.js:60-77 | The walk over the settled closes finds each crossing of a direction once, with its end if it had one |
| BreakoutTrackers.BreakoutTracker.Derive | src/engine/shadowTimingV3.js:56-79 | On the five-minute grid the rebuilt list is exactly the declarative one: settled crossings with a settled predecessor not beyond, each ended at the first later close not beyond |
| BreakoutTrackers.BreakoutTracker.Merge | src/engine/shadowTimingV3.js:81-97 | Every derived breakout is updated and every other one marked, whatever the order of the loops |
| BreakoutTrackers.BreakoutTracker.CoversTo | src/engine/shadowTimingV3.js:47-53 | The loop accepts exactly the responses that hold every grid candle through the newest expected one |
| BreakoutTrackers.BreakoutTracker.DataStatusOf | src/engine/shadowTimingV3.js:164-177 | The status and the return of trust |
| BreakoutTrackers.BreakoutTracker.Evaluate | src/engine/shadowTimingV3.js:179-190 | One evaluation: read, rebuild, merge unless the range was contradicted, judge |
| ArchiveReader.LoadSource | src/research/opportunitySource.js:37-98 | The load as it runs returns what the specification does, limits included |
| ArchiveReader.Fetch | src/research/opportunitySource.js:53-73 | The queries and the path chosen by the counts |
| ArchiveReader.Count | src/research/opportunitySource.js:78-82 | The size limit is hit exactly when the new rows with what is kept exceed it |
| ArchiveReader.DropUnlisted | src/research/opportunitySource.js:63 | Exactly the entries whose key is gone leave the cache |
| ArchiveLoaderProofs.LoadKeepsCache | src/research/opportunitySource.js:74-96 | Every successful load leaves the entries in order without repeats, the cursor at or above every sequence number and the byte count equal to the summed sizes, whatever happened to the archive; the final count test never fails |
| ArchiveLoaderProofs.FallbackIff | src/research/opportunitySource.js:69-71 | For every cache the invariant allows: after the whole-archive scan the full read is reached exactly when a cached key was written again beyond the cursor or a key is held twice among the kept rows |
| ArchiveLoaderProofs.RewrittenFallsBack | src/research/opportunitySource.js:69-71 | Two loads from an empty cache, the second of which reaches the full read because the key was deleted and written again |
| ArchiveLoaderProofs.DuplicateFallsBack | src/research/opportunitySource.js:69-71 | Three loads from an empty cache that leave a key in the cache twice and then reach the full read though nothing was written beyond the cursor |
| ArchiveLoaderProofs.ScanCoversKeys | src/research/opportunitySource.js:62-66 | After the scan, kept and fetched keys together are the snapshot's keys |
| ArchiveLoaderProofs.NothingFetchedTwice | src/research/opportunitySource.js:55-71 | Over a growing archive no cached payload is downloaded again |
| ArchiveLoaderProofs.OneOrder | src/research/opportunitySource.js:36 | Rows with distinct keys have one order only |
| ArchiveAnswers.LoadedInOrder | src/research/opportunitySource.js:36 | The rows of every load are in order of time, and of the key when the time is the same |
| ArchiveAnswers.LoadFailsIff | src/research/opportunitySource.js:44-82 | A load that carries nothing stale over fails if and only if the archive has more than fifty thousand rows, or something was fetched and the rows take more than thirty-two megabytes |
| ArchiveLoaderProofs.JoinedIs | src/research/opportunitySource.js:84-85 | Appending or sorting again both give all rows in order |
| InstrumentCsv.ParseRows | src/execution/instrumentCatalog.js:5-14 | The loop computes what the character-by-character definition does |
| InstrumentCsv.ParsePrinted | src/execution/instrumentCatalog.js:5-14 | What reading printed records gives for every choice of line ends |
| InstrumentCsv.RoundTrip | src/execution/instrumentCatalog.js:5-14 | Fields not ending in a carriage return come back whole, with embedded commas, quotes and newlines |
| InstrumentCsv.UnendedIff | src/execution/instrumentCatalog.js:14 | A last record without a line end is read back exactly unless it is one empty field |
| InstrumentCsv.RefusedIff | src/execution/instrumentCatalog.js:7-12 | A text is refused if and only if its last quote stays open, that is, it has an odd number of quotes |
| Tradebook.MatchLots | src/trading/kiteTradebook.js:70-79 | The lot loop takes the same units and gains the same as matching unit by unit |
| Tradebook.ContractWalk.TakeBuy | src/trading/kiteTradebook.js:65-68 | A buy adds its units at the end of the queue |
| Tradebook.ContractWalk.TakeSell | src/trading/kiteTradebook.js:69-89 | A sell takes the oldest units, leaves the rest unmatched and closes an episode when nothing is held |
| Tradebook.WalkContract | src/trading/kiteTradebook.js:61-90 | The loop over a contract's fills ends with the unit-by-unit ledger |
| Tradebook.SummarizeContract | src/trading/kiteTradebook.js:58-92 | The walk over one contract's fills gives the totals and all episodes of the unit-by-unit ledger of these fills in trade order |
| Tradebook.EpisodesBalance | src/trading/kiteTradebook.js:63-88 | Each completed episode gained its sell value less its buy value |
| Tradebook.FifoConserves | src/trading/kiteTradebook.js:60-91 | Matched and held make up what was bought, matched and unmatched what was sold, and the episodes hold every bought unit but those in progress |
| Tradebook.OneTradeOrder | src/trading/kiteTradebook.js:62 | The order the fills are matched in is the only one with those properties |
| Tradebook.Summarize | src/trading/kiteTradebook.js:56-92 | Over all contracts nothing bought or sold is lost or counted twice, and the episodes are all those of the contracts' ledgers, in order, each balanced |
| Tradebook.BrokerBook.Select | src/trading/kiteTradebook.js:38-50 | The loop selects exactly the fills of the batch that are not known yet, or refuses it for one that contradicts a known fill |
| Tradebook.BrokerBook.ImportBatch | src/trading/kiteTradebook.js:32-55 | A batch is taken whole or not at all, known fills are skipped, a conflicting one refuses it |
| Tradebook.ImportTwice | src/trading/kiteTradebook.js:38-55 | One fill per key is kept, nothing is lost, and importing a batch again adds nothing |
| TradebookImports.ImportIff | src/trading/kiteTradebook.js:32-55 | A batch is taken if and only if it has one to a hundred and twenty fills of the same client, contradicts no fill of its own or known, and its new keys leave at most five thousand |
| TelegramOutbox.OutboxStore.Put | src/notifications/telegramStore.js:48-49 | An event already in the outbox is not put there again |
| TelegramOutbox.OutboxStore.InterruptExpired | src/notifications/telegramStore.js:65-66 | Exactly the sends whose lease ran out become uncertain |
| TelegramOutbox.OutboxStore.FindNext | src/notifications/telegramStore.js:69-72 | The query's choice among due rows |
| TelegramOutbox.OutboxStore.ClaimNext | src/notifications/telegramStore.js:59-81 | The claim with its lease, cooldown and spacing |
| TelegramOutbox.OutboxStore.FinishSend | src/notifications/telegramStore.js:82-99 | An outcome is recorded only on a row still being sent, and the cooldown never shrinks |
| TelegramOutbox.TelegramSender.Tick | src/notifications/edgeTelegram.js:88-149 | Claim, recheck, send and record in turn: an event no longer current expires unsent, a rate limit goes back to pending within the budget, a doubtful answer is never retried |
| TelegramDelivery.NextDueIsFirst | src/notifications/telegramStore.js:69-73 | The claimed row comes first among all due rows, and nothing is claimed only when nothing is due |
| OutboxAnswers.ClaimIff | src/notifications/telegramStore.js:59-81 | A row is claimed if and only if the recipient is not cooling down, the last attempt was a second and a half ago and a row waits; it is the first of those by time, priority and id, and sends whose time ran out are in doubt |
| OutboxAnswers.SettleIff | src/notifications/edgeTelegram.js:126-142 | Which outcome each answer records, and that a rate limit holds the whole recipient back and gives the event three more attempts at most |
| OutboxAnswers.EnqueueIff | src/notifications/telegramStore.js:48-49 | A new event waits at once, untried; a known one is left alone |
| TelegramDelivery.MoveOk | src/notifications/edgeTelegram.js:97-143 | Every claim, send, report, expiry and crash keeps each row's attempts at or above its sends and its pending rows answered with rate limits only |
| TelegramDelivery.FinalForGood | src/notifications/telegramStore.js:82-88 | A row with a final status never changes again |
| TelegramDelivery.RateLimitHonoured | src/notifications/telegramStore.js:92-95 | After a reported rate limit nothing is claimed before the time it named |
| TelegramEpisodes.Reducer.SummaryDue | src/notifications/telegramEvents.js:41-47 | The daily summary is pushed once, when due |
| TelegramEpisodes.Reducer.Tally | src/notifications/telegramEvents.js:64-77 | The day's record begins with its first observation and counts each poll |
| TelegramEpisodes.Reducer.Observe | src/notifications/telegramEvents.js:59-99 | One new observation: record, end, start |
| TelegramEpisodes.Reducer.Take | src/notifications/telegramEvents.js:50-116 | One whole call of the reducer |
| TelegramEpisodeRuns.AdvanceFollows | src/notifications/telegramEvents.js:79-112 | Each invalidation ends exactly the episode active at that point and no ready event comes while one is active |
| TelegramAnswers.EventsIff | src/notifications/telegramEvents.js:50-114 | A ready event is emitted if and only if an unbroken observation begins an episode; an invalidation exactly for the episode it ends, for another contract or for the gate, or that the market closes on; a warning exactly when observations stopped for ninety seconds and that was not said yet |
| TelegramAnswers.StateIff | src/notifications/telegramEvents.js:50-114 | What every call leaves active, latest and to be begun anew |
| TelegramAnswers.SummaryIff | src/notifications/telegramEvents.js:41-58 | Only due summaries are emitted, yesterday's before today's record begins, and none stays due |
| TelegramAnswers.PollsIff | src/notifications/telegramEvents.js:64-77 | Every new observation while the market is open is counted once, with its gap, in the record of its own day; nothing else moves these counters |
| TelegramEpisodeRuns.EndedNeverDelivered | src/notifications/telegramEvents.js:118-129 | The ready event of an episode that was invalidated is never deliverable again |
| ShadowEvents.AdvanceEvents | src/evidence/shadowEvents.js:41-127 | The loop over the events gives what the poll does to each |
| ShadowEvents.FollowEvent | src/evidence/shadowEvents.js:79-125 | One event followed, contract by contract |
| ShadowEvents.WatchContract | src/evidence/shadowEvents.js:101-122 | One contract: replacement, sample and the three horizons |
| ShadowEventRuns.WatchedContinues | src/evidence/shadowEvents.js:101-122 | Best and worst bound every sample, horizons are written once, and at the end of the window all three are decided |
| ShadowEventRuns.CursorMoves | src/evidence/shadowEvents.js:75-77 | Within a session the cursor's candle never goes back and sessions only advance |
| ShadowEventRuns.CrossingIsNew | src/evidence/shadowEvents.js:49-59 | A crossing found is one no recorded event has, finished or not |
| ShadowAnswers.CrossingIff | src/evidence/shadowEvents.js:37-55 | A poll shows a crossing if and only if the two candles were seen without a gap and the close left the range between them, upward or downward |
| ShadowAnswers.NewEventIff | src/evidence/shadowEvents.js:60-71 | A new event has the edge it crossed as its level, is followed for thirty minutes but not beyond 15:30, and begins one contract for each tier whose plan is of its side, with what that costs now |
| ShadowAnswers.CursorIff | src/evidence/shadowEvents.js:75-77 | Where the cursor stands after a poll, and that a poll that saw nothing cuts it off |
| ShadowAnswers.StatusIff | src/evidence/shadowEvents.js:82-124 | What becomes of a confirmed event: unknown when a candle is missed or changed, invalidated when a close is back through the level, expired when its window ends, else confirmed |
| ShadowAnswers.LongMark | src/evidence/shadowEvents.js:32-35 | A bought option costs the ask and is left at the bid |
| ShadowAnswers.SpreadMark | src/evidence/shadowEvents.js:32-35 | A spread costs the ask of what is bought less the bid of what is sold, is left the other way round, and has no mark when a quote is missing |
| ShadowAnswers.HorizonIff | src/evidence/shadowEvents.js:105-121 | When each horizon is decided, when it is observed and with which gain, and when it is missed |
| ShadowEventRuns.PollIsAdvance | src/evidence/shadowEvents.js:143-152 | Writing a poll's result back to the whole table loses and repeats nothing |

## Left out

- LossBound.DailyLossBound: assumes a day that begins flat and an unchanged policy; with open trades of an earlier day or a policy lowered meanwhile the engine promises no such bound.
- PaperSafety.PaperNeverDisagrees: covers the positions mode the paper broker serves, within one IST day begun without open trades, as books roll daily; the order-book-derived mode is covered by the safety results only.
- SandboxDecisions.PlannedMeans: the candidate selection is an arbitrary pick of leg, stop, target, breakout id and deadline.
- adoptBroker and the switch between brokers: it retires orders on an assumption about the other broker that no book can confirm.
- Floating point: amounts are whole paise, so the money rounding and the small epsilons in tick rounding do not appear; V3 prices are reals.
- dailyGoal, entryMode and the text, tier and rule fields of a trade: carried along without effect on the modelled decisions.
- The 30-character truncation of order tags and hash collisions: identities are the hashed tuples.
- Advice from the model, quotes, metadata and the recheck just before sending are inputs; the tick's alerts, idle skipping and status objects are not modelled.
- positionBasis, conflicts and candle logs, confirmation metadata, statusReason and coverageGaps: kept for reports only.
- The tracker's reset when it is switched off or a new session begins: it starts a new sitting, and a sitting is one session.
- The V3 plan structure checks and the entry plan's own gates: arbitrary answers of one plan per direction.
- shadowTiming's V2 rule and readiness view: per-tier timers superseded by V3.
- Gzip, JSON and record projection in the loader: a row carries its projected record, its size and its unpacked size; ledger and snapshot queries are separate reads.
- parseCsv's header mapping and fromCsv's field checks: simple filters after the tokenizer.
- normalizeFill's format checks, and the sorting and cutting of the episode list for display.
- The Telegram provider, message text, in-memory operational alerts and the freshness checks that decide to expire an event before sending: the decision is an arbitrary move.
- observationOf's whitelisting and the recorder's limit of 200 pending events, beyond which it refuses to run.
- HTTP routes, network clients, PostgreSQL itself, indicators and scores.
