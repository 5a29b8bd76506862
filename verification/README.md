# Protocols of the G2 bridge

A Dafny model of the state-keeping protocols of the Hermes G2 bridge, and proofs of what they promise
over every run: crashes at any point, retries, interleavings at `await` points, superseding connections.

## How the models are built

Each protocol is a state machine with a total, deterministic `Next(state, event)`. A coroutine or a
locked operation is cut at every place where something else can act; everything that is not decided by
the code - how a write ends, what the clock says, what the phone answers, when a task resumes - is in the
event. A run is a sequence of events, an event that is not enabled changes nothing, and "in every run" is
"for all sequences". Beside each machine stands the code in its own form: a class with the fields the
source updates, whose methods are proved to do exactly what the machine does, and a method `Serve` (for the
scheduler `RunDueOnce`) that works off a whole sequence of events on the object and carries the promise for
whole runs.

- **Kanban creation** (`KanbanProtocol`, `KanbanInvariant`, `KanbanRuns`, `KanbanTraces`, `KanbanFrame`,
  `KanbanSafety`, `KanbanRefinement`, `KanbanProgress`, `KanbanRecovery`, `KanbanAnswers`, `KanbanBoards`,
  `KanbanExecutor`): a durable ledger (absent, PREPARED, MUTATING, COMMITTED) around a separate board transaction, under one lock. An access to
  a store is done, fails without effect, or is done although an error is reported. Others may edit, move,
  delete and recreate boards at any time.
- **Reminder outbox** (`ReminderOutbox`, `ReminderStore`, `ReminderRuns`, `ReminderInvariant`,
  `ReminderSafety`, `ReminderUpdates`, `ReminderFairness`, `ReminderCapacity`, `ReminderOverflow`,
  `ReminderScheduler`): memory and file, where a failed write leaves memory old and the file old or new, and a phone that shows an
  operation id once and may receive a message late.
- **Turn tables** (`TurnProtocol`, `TurnInvariant`, `TurnSafety`, `TurnEffects`, `TurnAnswers`, `G2Adapter`): turn
  objects are told apart from turn ids, which the client may reuse; every coroutine is cut at its awaits and may
  also be cancelled there.
- **Capability relay** (`ReplayLedger`, `ReplayAdmission`, `WorkflowFence`, `WorkflowRelay`): the replay ledger over
  traces of claims, and the destination fence run together with the turn tables.
- **Host MCP server** (`HostLanes`, `HostLanesSafety`, `HostLanesAnswers`, `HostCockpit`, `HostCockpitSafety`,
  `HostCockpitCommands`, `HostSnapshot`, `HostServer`): the request lanes of one connection, the Cockpit sessions and
  their commands, and the loops that fit a snapshot into its size.
- **Request correlation** (`RequestCorrelation`, `McpClient`).

## What holds only under a condition

- The generation check of the Kanban protocol needs generations that are never reused: without that
  `KanbanProgress.ReuseDefeatsTheCheck` commits and acknowledges a card in a foreign database.
- The untyped `not_committed` answer is about its own attempt only (`KanbanProgress.ExpiredAfterTheCard`).
- `schedule` restores the limit of 768 delivered reminders, `_complete` does not: a restart succeeds exactly
  when at most 768 are delivered (`ReminderCapacity.RestartsExactlyWhen`), and 769 are reachable without any
  failure (`ReminderOverflow.TooManyDelivered`).
- The identity of deliveries lasts until the delivered record is evicted from the file; after that the
  operation id is free again.
- The replay ledger needs that from one claim of a capability to its next nothing purges it at or after the
  expiry of that capability; a clock that does not go back and claims evaluated before their expiry give that
  (`ReplayLedger.ForwardClockIsTimely`), and `ReplayLedger.StartsAnewExactlyWhen` is what happens without it
  (`ReplayLedger.ExpiryReadmits` and `ReplayLedger.ClockGoingBackReadmits` are such traces).
- A terminal Cockpit session stays terminal only if finished turns are asked nothing, which the adapter
  checks, and if the dispatcher does not suspend (`HostCockpitSafety.TerminalStaysExactlyWhen`,
  `HostCockpitSafety.FinishedStaysFinished`); `HostCockpitSafety.FinishedIsReopened` and
  `HostCockpitSafety.LateReceiptReopens` are runs without these checks.

## Assumptions

- SQLite transactions are atomic, the operation lock is exclusive and released by a crash, and replacing the
  store file is atomic but may succeed although an error is reported.
- SHA-256 digests are injective and nonces fresh: ids and fingerprints are modelled by what they hash.
  Reminder operation ids are numbered in the order of their digests.
- Only this protocol writes `g2-kanban:` keys, the session of a turn is fixed for that turn, and
  `handle_message` calls are serial on a connection.
- Instants and delays are whole milliseconds.
- The authority of a Kanban attempt is a flag that can only be revoked; `TurnSafety.StaleStaysStale` is why.

## Model

| member | source | states |
|---|---|---|
| KanbanSafety.AtMostOneCard | tools.py:969-1205 | in every run of attempts, crashes, retries and board changes an operation has at most one committed card, at most one card on any board carries its key, none exists while its row is absent or PREPARED, and the attempt that committed it had itself, in the same hold of the lock, moved the row from PREPARED to MUTATING |
| KanbanTraces.CreatorMovedItsRow | tools.py:1069-1139 | for each card of a run there are an event that turns the PREPARED row of its operation into a MUTATING one and a later event that commits the card, with the creating attempt in the lock from the first to the second |
| KanbanTraces.EntitledMoved | tools.py:1069-1139 | an attempt at a place where it may still create has moved its row itself, under the lock it holds |
| KanbanSafety.CommittedWherePinned | tools.py:1034-1181 | every committed card lies in the database pinned at PREPARED, committed by a transaction that saw that generation and passed both authority checks; its row is past PREPARED and keeps the pin |
| KanbanFrame.BoardsGainOneCardOrNothing | tools.py:1081-1176 | at every moment of every run the protocol either leaves every card of every board as it is, or adds one card under a new id to one database, parked as it was asked for and owned by the attempt in the lock, and leaves all other cards and databases alone |
| KanbanFrame.FailureChangesNothing | tools.py:1073-1145 | an attempt that fails inside its board transaction, or crashes there, leaves every store as it is and answers that the outcome is unknown; only a commit whose report was lost has gone through |
| KanbanSafety.CommitStatesAreTruthful | tools.py:1782-1858 | a typed `not_committed` answer means no card had been made for the operation, `committed` and success mean exactly one had, and the untyped `not_committed` means this attempt never makes one |
| KanbanSafety.CardsForCounts | tools.py:1110-1139 | the number of cards a history holds for an operation is 1 or 0 when no two commits share an operation |
| KanbanSafety.ReceiptsAgree | tools.py:948-966 | all success receipts of an operation carry the same task and board, and at most one of them says `acknowledged` |
| KanbanSafety.RowsOnlyAdvance | tools.py:722-780 | over any run a ledger row keeps its payload and pin, only advances PREPARED, MUTATING, COMMITTED, and never changes once COMMITTED |
| KanbanSafety.StrandedForever | tools.py:1065-1139 | a MUTATING row without a card, with nobody in the lock entitled to create, never gets a card in any continuation |
| KanbanSafety.RevokedMakesNothing | tools.py:1165-1176 | an attempt whose turn is revoked before its second authority check never creates a card |
| KanbanRefinement.NextRefines | tools.py:969-1205 | each event of the two-store protocol is a step, or no step, of a specification with one cell per operation |
| KanbanRefinement.RunsRefine | tools.py:969-1205 | every run of the protocol is a run of the one-cell specification, answers included |
| KanbanInvariant.StepKeeps | tools.py:985-1205 | any piece of the operation, at any place and however its store access ends, keeps the ledger, the boards and the history consistent, and an answer is backed by what was committed |
| KanbanRuns.RunKeeps | tools.py:969-1205 | the whole protocol invariant holds after every sequence of events from a state in which it holds |
| KanbanProgress.FirstAttemptAcknowledges | tools.py:985-1205 | an undisturbed first attempt on any active board commits exactly one card in the current generation, leaves a COMMITTED row and acknowledges that card |
| KanbanProgress.FirstAttemptInitializesDefault | tools.py:853-875 | when the default board has no database yet, the undisturbed first attempt makes it, pins it, commits its card there and acknowledges it |
| KanbanRecovery.RetryRecovers | tools.py:1034-1205 | with a MUTATING row, its generation current and its one verified card in the pinned database, an undisturbed retry makes no card, changes no board, commits the row with that card and answers with it without an acknowledgement |
| KanbanRecovery.RetryCompletesPrepared | tools.py:1034-1205 | with a PREPARED row of the same arguments and its generation current, an undisturbed retry makes the card in the pinned database, commits the row and acknowledges it |
| KanbanRecovery.RetryReadsTheReceipt | tools.py:995-1006 | with a COMMITTED row of the same arguments a retry changes nothing and answers with the card of the row, whatever has become of the board |
| KanbanProgress.ReuseDefeatsTheCheck | tools.py:878-905 | when a foreign database is put at the pinned path just before the board is opened and the pinned one comes back after, every check passes: the attempt commits its card in the foreign database and acknowledges it |
| KanbanProgress.ExpiredAfterTheCard | tools.py:1847-1852 | the untyped `not_committed` can follow an acknowledged card of the same operation, so it speaks only of its own attempt |
| KanbanAnswers.ConflictIsAnswered | tools.py:995-1003 | an undisturbed attempt with other arguments than those of the row leaves every store as it is and answers `operation_conflict`: not committed for a PREPARED row, unknown for a MUTATING one, committed for a COMMITTED one |
| KanbanAnswers.SuccessIsForTheseArguments | tools.py:948-966 | in every run a success is only ever given to an attempt whose arguments are those of the row, and names the task and the board of the row |
| KanbanAnswers.UnresolvedIsAnswered | tools.py:1007-1021 | an undisturbed attempt for a name that no board has, or more than one, is told which of the two and changes nothing |
| KanbanAnswers.UnpinnableIsAnswered | tools.py:1022-1033 | an undisturbed first attempt on an archived, unknown or database-less board writes nothing and reports an unknown outcome |
| KanbanAnswers.ChecksPassExactlyWhen | tools.py:791-850 | at each of its four generation checks an attempt goes on exactly when the board is active with the very file, directory and metadata that were pinned and the check could be made |
| KanbanAnswers.ChangedBoardIsAnswered | tools.py:1039-1064 | an undisturbed retry whose board has changed writes nothing: a PREPARED operation is told `board_generation_changed` and not committed, a MUTATING one is unknown |
| KanbanAnswers.MissingCardIsUnknown | tools.py:1100-1145 | an undisturbed retry of a MUTATING row whose board does not hold exactly the one parked card of the operation stays unknown and writes nothing |
| KanbanAnswers.UnstageableIsUnknown | tools.py:1110-1164 | an undisturbed retry of a PREPARED row whose new card is not the parked card asked for leaves the row MUTATING, without a card, and the outcome unknown |
| KanbanAnswers.RevokedStopsAtItsCheck | tools.py:985-1176 | in every run a revoked attempt stops at its next check of authority and changes no store: unknown once its row is MUTATING, otherwise not committed |
| KanbanAnswers.RevocationStopsTheAttempt | tools.py:985-1176 | in every run a revocation at any of these places stops the attempt with its next step, and no store changes |
| KanbanAnswers.WritesFollowAuthority | tools.py:985-1176 | the intent, the advance of the row and the board commit are each one step behind a check of authority that passed; a default database is made together with one, and only where there is none |
| KanbanAnswers.FailureEndsAttempt | tools.py:1782-1867 | in every run a failure without effect ends the attempt where it stands, changes no store and is answered by its cause before the row is there, by the state of the row at the first check, and as unknown after it |
| KanbanAnswers.LostWriteIsWritten | tools.py:722-780 | a write that goes through although an error is reported has its whole effect, and the attempt ends without telling |
| KanbanAnswers.EndsWithoutWriting | tools.py:1829-1858 | what ends before the lock, and a crash in it, changes no store; a lock timeout is unknown, an attempt turned away is not committed, a crash answers nobody |
| KanbanBoards.ChosenExactlyWhen | tools.py:457-476 | a board is chosen exactly when the request names boards of one single slug, and not found exactly when it names none |
| KanbanExecutor.Stores.Insert | tools.py:722-749 | the intent row is written only when the operation has none; the new ledger and how the operation goes on are those of the machine |
| KanbanExecutor.Stores.Mark | tools.py:752-766 | only a PREPARED row becomes MUTATING, otherwise nothing is written and the operation fails |
| KanbanExecutor.Stores.Finalize | tools.py:769-780 | only a MUTATING row becomes COMMITTED with the task, otherwise nothing is written and the operation fails |
| KanbanExecutor.Stores.InitDefaultBoard | tools.py:853-875 | only a missing default database is created, and only with authority |
| KanbanExecutor.Stores.Generation | tools.py:791-850 | the identity of an active board whose database file exists, or nothing |
| KanbanExecutor.Stores.Mutate | tools.py:1100-1164 | inside the board transaction: the single card of the operation is verified, a new one is staged only when allowed and verified, everything else is an unknown outcome |
| KanbanExecutor.Stores.Commit | tools.py:1081-1176 | the staged table becomes the table, and the commit is recorded exactly when a card was created |
| KanbanExecutor.Stores.Prepare | tools.py:985-1033 | each piece from the lock to the PREPARED row does to the stores exactly what the machine step does |
| KanbanExecutor.Stores.Work | tools.py:1034-1205 | each piece from the row check to the receipt does to the stores exactly what the machine step does |
| KanbanExecutor.Stores.Advance | tools.py:969-1205 | any piece of the operation, run on the stores in place, is the machine step |
| KanbanExecutor.Stores.Serve | tools.py:1782-1858 | any sequence of attempts, crashes and outside changes worked off on new stores is a run of the machine: the same stores and answers, and no two cards in the tables carry the same operation key |
| ReminderSafety.DeliveriesAgree | reminder_scheduler.py:726-844 | across ticks, failed writes, crashes and restarts, everything accepted or delivered for an operation is the same text and due time until its record is evicted from the file |
| ReminderSafety.DurableBeforeTheCall | reminder_scheduler.py:726-758 | a delivery is called only when the file already holds that very row in flight, due again only after the tick |
| ReminderSafety.AwaitedStaysInFlight | reminder_scheduler.py:817-844 | while a delivery is awaited its row stays in flight in memory and file whatever else is scheduled and however those writes end |
| ReminderSafety.MemoryIsDurable | reminder_scheduler.py:605-613 | every undelivered row in memory has a file row of the same operation and payload, and no operation has two rows in memory or file |
| ReminderSafety.NeverDropped | reminder_scheduler.py:605-709 | in every run everything accepted or sent is still in the file with its payload, live or as the record of a delivery that was called and acknowledged, or it has been evicted and then exactly that payload was called and acknowledged |
| ReminderSafety.EvictedWasDelivered | reminder_scheduler.py:666-709 | before an eviction a delivery of each operation that it takes was called with a text that the phone has acknowledged |
| ReminderSafety.ShownAsAccepted | reminder_scheduler.py:782-805 | for an operation never evicted the phone shows its own text or nothing, and has shown it once the outbox counts it as delivered |
| ReminderSafety.RetriesAnswerTheSame | reminder_scheduler.py:633-664 | while a row is retained a repeat of the same payload changes nothing and returns the original due time or receipt whatever the clock says, and any other payload conflicts without change |
| ReminderSafety.NeverEarly | reminder_scheduler.py:711-758 | no reminder is handed over at a tick before its due time |
| ReminderFairness.NoStarvation | reminder_scheduler.py:711-844 | a due reminder is handed over by the time 16 ticks have begun and ended, with confirmed claims and a clock that does not go back |
| ReminderFairness.PickedOrAhead | reminder_scheduler.py:711-720 | a due row is picked by a tick, or 16 distinct rows that come before it are |
| ReminderOutbox.DueIdsMeans | reminder_scheduler.py:711-720 | a tick picks only due rows, each once, and passes a due row over only for 16 others that come before it |
| ReminderOutbox.RetryDelayDoubles | reminder_scheduler.py:722-724 | the first delay is the base and each of the next 16 doubles it, capped by the maximum |
| ReminderOutbox.RetryDelayGrows | reminder_scheduler.py:722-724 | delays never shrink, never undercut 50 ms or exceed the maximum, and are constant from the 17th attempt on |
| ReminderOutbox.RowOfRetained | reminder_scheduler.py:674-681 | eviction removes only delivered rows and leaves every other row as it is |
| ReminderOutbox.OldestGoFirst | reminder_scheduler.py:674-681 | evicted rows completed no later than any delivered row that stays, and exactly as many go as needed |
| ReminderCapacity.OutboxIsBounded | reminder_scheduler.py:670-700 | in every run memory and file hold at most 256 undelivered and 1024 rows, the document stays below 671 kB, and no reply is a size refusal |
| ReminderStore.BoundedStoresFit | reminder_scheduler.py:382-391 | 256 live rows among at most 1024 rows of accepted fields never reach the store size limit |
| ReminderStore.RowSizeBound | reminder_scheduler.py:382-391 | the JSON of a live row and of a delivered row is bounded whatever its text escapes to |
| ReminderCapacity.TicksConserveRows | reminder_scheduler.py:726-805 | claims and deferrals keep every count, an outcome turns at most one live row into a delivered one and only on a receipt |
| ReminderCapacity.RestartsExactlyWhen | reminder_scheduler.py:464-480 | a restart accepts a reachable file exactly when it holds at most 768 delivered rows |
| ReminderCapacity.SchedulingRestoresTheLimit | reminder_scheduler.py:674-700 | after any confirmed new reminder the file is one that a restart accepts |
| ReminderOverflow.TooManyDelivered | reminder_scheduler.py:782-805 | a run without a single failure reaches 769 delivered rows, after which a crashed scheduler does not start |
| ReminderUpdates.ClaimsBackOff | reminder_scheduler.py:726-758 | in every run a confirmed claim of a due row writes to memory and file the same reminder with one attempt more (capped), claimed at the time of the tick; it waits the base at the first claim, twice the wait before at each of the next 16, never above the maximum, and the same from then on; every other row stays, and its delivery is called |
| ReminderUpdates.DeliversExactlyWhen | reminder_scheduler.py:817-844 | apart from a schedule call, the log grows exactly when a due row is claimed and the write is confirmed |
| ReminderUpdates.UnconfirmedClaimsAreSkipped | reminder_scheduler.py:807-822 | in every run a claim whose write is not confirmed calls no delivery and leaves memory as it is; the file is old or holds the claimed row, and the tick goes on |
| ReminderUpdates.OutcomesSettle | reminder_scheduler.py:760-805 | in every run the confirmed outcome of a delivery makes the awaited row delivered, when the phone that has shown it sent a receipt, and otherwise puts it back with its attempts and its wait as they were claimed; every other row stays |
| ReminderUpdates.NewRemindersAreAnswered | reminder_scheduler.py:633-709 | in every run a new reminder with clean input, a due time in the future within ten years and fewer than 256 waiting is written, pending and due when asked for, and answered once that is confirmed; any other is refused as invalid or full and changes nothing |
| ReminderUpdates.StartsWithinLimits | reminder_scheduler.py:417-480 | whatever file a start finds, what it installs has no operation twice, at most 256 undelivered and 768 delivered rows, plain texts within their limits, and at most 1 MiB |
| ReminderUpdates.StopsAndCrashes | reminder_scheduler.py:569-604 | a stop drops the tick and keeps what is held, a crash also empties memory, no tick begins while none may run, and a scheduler that has not loaded its file answers as inactive and writes nothing |
| ReminderScheduler.Scheduler.CommitRows | reminder_scheduler.py:605-613 | memory follows the file only on a confirmed write; a failed write leaves the old or the new file |
| ReminderScheduler.Scheduler.Schedule | reminder_scheduler.py:615-709 | the new memory, file and reply of a schedule call in every branch |
| ReminderScheduler.Scheduler.DueHashes | reminder_scheduler.py:711-720 | the ids in attempt order, equal to the specified list |
| ReminderScheduler.Scheduler.Claim | reminder_scheduler.py:726-758 | the new memory and file of a claim and whether it leads to a delivery |
| ReminderScheduler.Scheduler.Settle | reminder_scheduler.py:760-805 | the new memory and file after a deferral or completion |
| ReminderScheduler.Scheduler.Start | reminder_scheduler.py:569-576 | a start installs the file exactly when it is acceptable and the scheduler is not running |
| ReminderScheduler.Scheduler.RunDueOnce | reminder_scheduler.py:807-844 | a whole tick, with schedule calls during its awaits, is a run of the machine that begins with the tick and ends with no tick open |
| ReminderScheduler.Evict | reminder_scheduler.py:674-681 | the retained rows after room was made |
| ReminderScheduler.SortedDue | reminder_scheduler.py:711-720 | the due rows in attempt order |
| ReminderScheduler.FindOldest | reminder_scheduler.py:674-681 | the delivered row that completed first, the earlier of equals |
| TurnSafety.TablesAgree | adapter.py:961-1002 | always the active id is tabled and each tabled turn is an object of its own id whose event leads back to exactly that object |
| TurnSafety.ValidExactlyWhen | adapter.py:629-645 | an authorization is current exactly when the table holds its very object, active and unfinished |
| TurnSafety.AuthorizedExactlyWhen | adapter.py:1536-1561 | what is authorized is current, and what is current would be authorized again |
| TurnSafety.StaleStaysStale | adapter.py:629-645 | no ABA: an authorization of a generation already taken that is not current never becomes current again, even under a reused turn id |
| TurnSafety.CurrentIsTheSameTurn | adapter.py:629-645 | while a captured authorization is current the table holds the very object it was given for, and has at every moment since |
| TurnEffects.SupersededStep | adapter.py:1003-1067 | a coroutine resumed after its turn object lost its place sends nothing and touches no entry; at most it goes on to the start that waited behind it |
| TurnEffects.OthersAreSpared | adapter.py:1420-1509 | running any coroutine, also one with a start waiting behind it, leaves the entries of every turn object but its own alone and speaks for none of them; beyond that it at most goes on, from tables in which they are untouched, with the waiting start |
| TurnEffects.SupersededInEveryRun | adapter.py:951-1067 | once a turn object has lost its place nothing is ever dispatched or answered for it again |
| TurnEffects.AtMostOnce | adapter.py:1420-1471 | no turn object is dispatched twice or answered twice under any interleaving |
| TurnEffects.OnlyRightfulLeaves | adapter.py:1003-1046 | a dispatch leaves only for the active unfinished turn of the current phone, an answer only for a tabled finished turn, in its own words |
| TurnAnswers.LeavesExactlyWhen | adapter.py:1020-1046 | in every run an event answers a turn, for the first time and with its latest text, exactly when it resumes, other than by a cancellation, the coroutine that closed its Cockpit session while the turn is tabled for the connected phone; it dispatches a turn, for the first time, exactly when it resumes without an error the coroutine that opened its session while the turn is also active and unfinished; nothing else leaves |
| TurnAnswers.UndisturbedTurn | adapter.py:951-1155 | a call of the phone that nobody disturbs is dispatched, hears any text, is completed and answered with that text, and leaves the tables as they were but for the finished object |
| TurnAnswers.NewTurnSupersedes | adapter.py:951-1046 | a call while a turn is active finishes and answers that turn with what it heard so far, then opens and dispatches the new one |
| TurnAnswers.HostCancels | adapter.py:1069-1107 | a cancellation of the call of the active turn finishes and answers it, one of any other call changes nothing |
| TurnAnswers.DropForgets | adapter.py:1092-1107 | when the phone goes its turn is forgotten without an answer |
| TurnAnswers.FailedStartIsAborted | adapter.py:1047-1067 | a turn whose start fails before or after its dispatch is cancelled, discarded and forgotten, and nothing more leaves for it |
| TurnAnswers.EndedIsForgotten | adapter.py:1420-1471 | a coroutine of a turn that ends has forgotten the turn, unless the turn goes on with the gateway, another coroutine finishes it, or the coroutine was cancelled or failed before it did anything |
| TurnAnswers.WaitingTurnStarts | adapter.py:951-1002 | in every run the turn that waits behind another is opened exactly when that one was cancelled and needs no answer or has got it without an error, and the phone of the new turn is still connected |
| TurnAnswers.AbortsInOrder | adapter.py:1047-1067 | a start that fails while its turn is active, finished or not, first cancels the gateway session, then discards the Cockpit session, then forgets the turn, or forgets it as soon as it lost its place; only a cancelled clean-up leaves it behind |
| TurnAnswers.GonePhoneCancels | adapter.py:806-833 | in every run, once the connection of a phone that has gone is closed, the active turn is cancelled without an answer |
| TurnAnswers.CompletionFinishes | adapter.py:1395-1448 | in every run a completion that names an open turn and its generation finishes it, closing its Cockpit session first; without its phone the turn is forgotten; any other completion changes no table |
| TurnAnswers.FirstCandidateSpeaks | adapter.py:1109-1155 | in every run, while a phone is connected, a text becomes that of the open turn that the first fitting candidate names, and of no other |
| TurnAnswers.OthersAreNotHeard | adapter.py:1109-1155 | a text for no open turn, or without a phone, changes nothing |
| G2Adapter.Adapter.ForgetTurn | adapter.py:1498-1509 | only the expected object is forgotten, with its route and, if it was active, the active id |
| G2Adapter.Adapter.CreateTurn | adapter.py:961-1002 | a new turn object takes its id, its route and the active place, or nothing changes but the generation |
| G2Adapter.Adapter.CancelActive | adapter.py:1092-1107 | cancellation up to its await |
| G2Adapter.Adapter.FinishTurn | adapter.py:1420-1448 | finishing up to its first await: only the tabled unfinished object is marked, once |
| G2Adapter.Adapter.Resume | adapter.py:1020-1067 | any suspended coroutine, run in place with object references from its await to the next, is the machine step |
| G2Adapter.Adapter.Resolve | adapter.py:1397-1404 | an event id leads exactly to the turn object of the machine, finished or not |
| G2Adapter.Adapter.ResolveTurn | adapter.py:1109-1133 | the first candidate event that leads to an unfinished turn of the requested generation, or nothing |
| G2Adapter.Adapter.Say | adapter.py:1135-1155 | only the text of the resolved unfinished turn changes, and only while a phone is connected |
| G2Adapter.Adapter.Serve | adapter.py:951-1067 | any sequence of connections, turns, cancellations, texts and resumed coroutines worked off by a new adapter is a run of the machine: what leaves holds at most one dispatch and at most one answer for each turn object |
| G2Adapter.Adapter.IsCurrent | adapter.py:629-645 | the check at the send lock is the validity of the authorization |
| ReplayLedger.AdmittedAtMostTwice | workflow_relay.py:347-367 | over every timely trace a subcall of a capability is admitted at most twice, as attempts 1 and 2, with the same tool, arguments and workflow; timely means that from one claim of a capability to its next nothing purges the ledger at or after its expiry |
| ReplayLedger.ForwardClockIsTimely | workflow_relay.py:337-343 | a trace is timely when every claim is evaluated before its expiry by a clock that does not go back and a nonce stands for one expiry |
| ReplayLedger.StartsAnewExactlyWhen | workflow_relay.py:338-352 | after a timely trace a capability admitted before starts anew with its next claim precisely when the ledger was purged at or after its expiry by this claim or one since, the claim is a first subcall and there is room |
| ReplayLedger.AdmittedInOrder | workflow_relay.py:324-357 | subcalls are first admitted in the order 1, 2, ..., each with the tool at that place of its reviewed workflow, with at most 1024 live capabilities |
| ReplayLedger.ExpiryReadmits | workflow_relay.py:338-350 | a claim evaluated at the expiry of its capability is admitted again, so evaluation before expiry is needed |
| ReplayLedger.ClockGoingBackReadmits | workflow_relay.py:338-350 | with a clock that goes back an expired and forgotten capability is admitted again, so a nondecreasing clock is needed |
| ReplayAdmission.AdmittedExactlyWhen | workflow_relay.py:334-367 | after a timely trace a capability that was admitted and not purged since has a checked claim admitted exactly when expiry and workflow are the same and the subcall follows the last one and was never admitted, or was admitted once, as attempt 1 with the same tool and arguments, and this is attempt 2 |
| ReplayAdmission.NewBeginsExactlyWhen | workflow_relay.py:341-348 | a capability of which nothing was admitted begins exactly with its first subcall, whatever the attempt, while fewer than 1024 others are live |
| WorkflowRelay.Relay.Claim | workflow_relay.py:313-367 | the new ledger and the verdict of a claim in every branch |
| WorkflowRelay.Relay.Purge | workflow_relay.py:339-342 | exactly the expired capabilities are forgotten |
| WorkflowRelay.Relay.ClaimDestination | workflow_relay.py:391-413 | the new fence and the verdict of a destination claim |
| WorkflowRelay.Relay.ServeClaims | workflow_relay.py:313-367 | any trace of claims put to a new relay is a trace of the ledger; if it is timely, what is admitted again is attempt 2 of the same call after its attempt 1 |
| WorkflowRelay.Relay.Serve | workflow_relay.py:369-413 | any run of requests and turn changes at a new relay is a run of the machine: what is sent for one turn has one destination and the fence ends up with at most one turn |
| WorkflowFence.OneDestinationPerTurn | workflow_relay.py:369-413 | under every interleaving of requests and turn changes all task-board calls sent for one turn share one destination |
| WorkflowFence.ClaimsExactlyWhen | workflow_relay.py:369-413 | in every run an admitted request claims its destination exactly when it is not denied, its turn is the open active one of a connected phone, and everything that turn has claimed before is this very destination; otherwise it is closed and the fence stays |
| WorkflowFence.RequestsMoveOn | workflow_relay.py:415-520 | in every run a request moves on from authorization to the ledger and to its dispatch only by a positive verdict at each step, and any other verdict closes it |
| WorkflowFence.FenceHoldsOneTurn | workflow_relay.py:391-413 | in every run the fence holds at most one turn |
| WorkflowFence.ClearedNeverReturns | workflow_relay.py:404-412 | a turn whose key has left the fence is never authorized again |
| HostLanesSafety.LanesStayApart | host_mcp.py:768-798 | the lanes never share a request id, hold at most one voice call and one cue job, and at most 4098 ids are ever completed |
| HostLanesSafety.OneAnswerEach | host_mcp.py:1717-1773 | no request is answered twice |
| HostLanesSafety.AnsweredStaysUsed | host_mcp.py:770-779 | until the connection closes the id of every answered request stays used, and a message with that id is only told that it is a duplicate |
| HostLanesSafety.ExhaustedIsLast | host_mcp.py:780-792 | the -32005 answer is the last thing sent on a connection and never goes to a request that was answered, so besides its answer such a request can only get -32600 errors |
| HostLanesSafety.ExhaustedWasNotAdmitted | host_mcp.py:780-792 | while the -32005 is being sent its request is in no lane, not completed and not answered |
| HostLanesSafety.GenerationsIncrease | host_mcp.py:970-982 | voice calls are numbered in strictly increasing order |
| HostLanesSafety.LateCueSendsNothing | host_mcp.py:1019-1090 | a cue job that was superseded, cancelled or closed sends nothing ever after |
| HostLanesSafety.CancelledAtMostOnce | host_mcp.py:1775-1803 | however often the phone asks, a voice call is handed to the canceller at most once |
| HostLanesAnswers.PendingIsAnsweredExactlyWhen | host_mcp.py:1717-1741 | in every run a completed turn has its voice call answered exactly when that call is pending with this very generation, and a cue job that is done has its request answered exactly when it is pending for this very job; otherwise nothing changes |
| HostLanesAnswers.RequestsAreScreened | host_mcp.py:772-794 | in every run a request is told that it is malformed or repeated exactly when it is, ends the connection exactly when 4096 requests were answered, and is let in otherwise |
| HostLanesAnswers.VoiceStartsExactlyWhen | host_mcp.py:957-984 | a voice call that is let in starts exactly when the connection is initialized, the call well formed, no other pending and a generation left; otherwise it is answered at once |
| HostLanesAnswers.CueStartsExactlyWhen | host_mcp.py:995-1017 | a cue call that is let in begins at once when no job is pending, and otherwise has the pending one answered first |
| HostLanesAnswers.InitializesOnce | host_mcp.py:756-833 | in every run a connection is initialized once, by its first well-formed request and then the notice of the client |
| HostLanesAnswers.CancelsExactlyWhen | host_mcp.py:1775-1803 | in every run a cancellation reaches a pending voice call the first time, has a pending cue call answered, and is otherwise ignored |
| HostLanesAnswers.HandlerGoesOn | host_mcp.py:780-992 | in every run the handler that goes on after its await answers exactly the request it stands for: at once, as a duplicate, as exhausted, or as a voice turn that failed while still pending |
| HostLanesAnswers.UndisturbedVoiceCall | host_mcp.py:957-984 | on an initialized connection a voice call that nobody disturbs is started, answered when its turn is completed, used up, and its lane free again |
| HostServer.RequestLanes.CompleteTurn | host_mcp.py:1717-1741 | only the pending call with this very binding is taken, remembered and answered |
| HostServer.RequestLanes.TakeCue | host_mcp.py:1069-1077 | only the pending job itself is taken, remembered and answered |
| HostServer.RequestLanes.CueCall | host_mcp.py:995-1017 | a pending job is superseded first, then the new one begins |
| HostServer.RequestLanes.VoiceCall | host_mcp.py:962-983 | a voice call opens the empty voice lane with the next generation or is refused |
| HostServer.RequestLanes.CancelNotification | host_mcp.py:1775-1803 | a cancellation reaches a voice call once, or answers the cue job |
| HostServer.RequestLanes.Handle | host_mcp.py:742-798 | the lanes, the frame and what is sent after a message, in every branch up to its first await |
| HostServer.RequestLanes.Resume | host_mcp.py:780-833 | what the handler does after its await: an immediate answer is remembered once it was sent, a failed start is answered, a waiting cue job begins |
| HostServer.RequestLanes.Serve | host_mcp.py:742-798 | any sequence of messages, results and the close, worked off by a new server, is a run of the machine: no request is answered twice in what is sent, and the lanes end up disjoint and bounded |
| HostCockpitSafety.BackendsMatchPending | host_mcp.py:1340-1485 | in every reachable session the backends are exactly the pending requests, all different and at most 8, and a session that waits has something pending |
| HostCockpitSafety.DispatchedAtMostOnce | host_mcp.py:1577-1610 | each command id reaches the dispatcher at most once |
| HostCockpitSafety.DispatchedWithBackend | host_mcp.py:1592-1600 | every answer that reaches the dispatcher comes with the backend of its request, and a text answer only as text that can be reviewed unchanged |
| HostCockpitSafety.AcceptedAtMostOnce | host_mcp.py:1611-1627 | each request with its nonce is accepted at most once |
| HostCockpitSafety.AcceptedIsNotPending | host_mcp.py:1611-1627 | an interaction that was accepted is pending in no session |
| HostCockpitSafety.TerminalStaysExactlyWhen | host_mcp.py:1507-1555 | a terminal session leaves its state exactly when it is asked something anew or when a command validated before its end is accepted after it |
| HostCockpitSafety.TerminalInEveryRun | host_mcp.py:1652-1661 | from any moment after which no event of the run asks a finished turn or ends a command after its turn, a terminal session stays terminal |
| HostCockpitSafety.FinishedStaysFinished | adapter.py:1292-1345 | in every run in which no session is asked anything after it was finished and each receipt directly follows its command, as the adapter has it, a terminal session stays terminal |
| HostCockpitSafety.FinishedIsReopened | host_mcp.py:1340-1397 | a run from the start in which a finished session is asked again and waits for the wearer again |
| HostCockpitSafety.LateReceiptReopens | host_mcp.py:1611-1627 | a run from the start in which an interrupt accepted after the end makes a completed session interrupting |
| HostCockpitSafety.LiveSessionsStay | host_mcp.py:1294-1305 | room for a new session is made only by dropping terminal ones |
| HostCockpitCommands.DispatchedExactlyWhen | host_mcp.py:1577-1700 | in every run a new command on an idle open server with budget left is dispatched, an answer with the backend of its request, exactly when its session has a record of that generation that has not ended, a steer finds it running, an interrupt running or waiting, and an answer names a pending item by request, kind and nonce, in time, with a choice it offers or a text that can be reviewed; otherwise only its id is used up |
| HostCockpitCommands.ReceiptsSettle | host_mcp.py:1611-1627 | in every run a receipt ends its call; an accepted answer takes its one interaction and its backend out of the very record it was validated against, an accepted interrupt is under way, and nothing else changes |
| HostCockpitCommands.TurnsOwnTheirSession | host_mcp.py:1340-1555 | in every run what a turn asks, finishes or discards changes exactly its own bound session: a fitting interaction is appended with a fresh nonce and five minutes to live, the end leaves nothing pending and a state told by the stop reason |
| HostCockpitCommands.SnapshotsAge | host_mcp.py:1175-1195 | in every run a snapshot drops exactly the interactions whose time is over, with their backends, and a session that waited for nothing else runs on |
| HostCockpitCommands.OpensExactlyWhen | host_mcp.py:1279-1338 | in every run a turn opens its session exactly when the server is open, its call pending, its generation a safe integer and fewer than 8 sessions, or an ended one, are there; the oldest ended session gives way |
| HostCockpitCommands.ClosedIsEmpty | host_mcp.py:1844-1856 | in every run a close leaves no session, binding or command id, and nothing opens, asks or is dispatched after it |
| HostServer.CockpitRecords.OpenTurn | host_mcp.py:1279-1338 | the new sessions after room was made, and whether one was opened |
| HostServer.CockpitRecords.Ask | host_mcp.py:1340-1485 | the new record after a question, text question or permission |
| HostServer.CockpitRecords.Finish | host_mcp.py:1507-1555 | the record after its turn ended: nothing pending, no backend, a terminal state |
| HostServer.CockpitRecords.Discard | host_mcp.py:1495-1505 | the session and its binding are gone |
| HostServer.CockpitRecords.Expire | host_mcp.py:1175-1195 | expired interactions leave each record together with their backends |
| HostServer.CockpitRecords.BeginCommand | host_mcp.py:1577-1600 | every new command id is used up, and a valid command is handed over with its backend; an answer text that cannot be reviewed unchanged is not valid |
| HostServer.CockpitRecords.Serve | host_mcp.py:1577-1661 | any sequence of openings, questions, commands and receipts worked off by a new server is a run of the machine: each command id is dispatched at most once and every session ends up with the backends of its pending interactions |
| HostServer.CockpitRecords.EndCommand | host_mcp.py:1611-1627 | an accepted answer takes its request out of the very record it was validated against |
| HostSnapshot.BoundSnapshot | host_mcp.py:1219-1277 | for every size function the loops end within the limit if the empty document fits; timelines become suffixes, pending lists prefixes; rows go in session order, requests only when no row is left, sessions only when no request is left; the last thing dropped was the next to go and had to: what was left of the snapshot before it, trimmed in the same order, was too large |
| HostSnapshot.DropRows | host_mcp.py:1230-1242 | only timeline rows go, one at a time from the first session in order that has any; the last one went because the rows left before it made a document over the limit |
| HostSnapshot.HideRequests | host_mcp.py:1247-1259 | once no row is left, pending requests are hidden from the longest list, latest first; the last one went because the requests left before it made a document over the limit |
| HostSnapshot.DropSessions | host_mcp.py:1264-1276 | sessions go in order until the document fits or none is left; the last one went because the sessions left before it made a document over the limit |
| RequestCorrelation.PendingIsInFlight | mcp_client.py:50-111 | before the close the pending ids are exactly those of the requests in flight, after it there are none, and a new request gets an id no request had |
| RequestCorrelation.ReplyResolvesItsOwn | mcp_client.py:121-140 | a reply resolves the unresolved in-flight request of its own number and no other; otherwise it changes nothing |
| RequestCorrelation.SettledOnce | mcp_client.py:92-111 | a future is settled at most once in any run; later replies, also after timeout, cancellation or close, are inert |
| RequestCorrelation.ReturnsItsReply | mcp_client.py:76-83 | each request returns at most once, and what it returns is the reply that resolved it |
| RequestCorrelation.WakesWithItsReply | mcp_client.py:72-90 | in every run a caller that wakes returns the reply that resolved its request, or nothing after a close, and its id is forgotten |
| RequestCorrelation.CallersGiveUp | mcp_client.py:76-111 | in every run a timeout or a first cancellation tells the peer unless the transport is closed, and a failed send, a second cancellation or a cancellation while sending ends the request at once |
| RequestCorrelation.CloseFailsTheRest | mcp_client.py:219-230 | in every run the close fails exactly the open futures of requests in flight and admits no new request |
| RequestCorrelation.UndisturbedRequest | mcp_client.py:50-140 | a request that is sent and replied to returns that reply and leaves nothing pending |
| McpClient.Client.Begin | mcp_client.py:58-65 | a new id and a new open future become pending, unless closed |
| McpClient.Client.HandleReply | mcp_client.py:127-140 | only the pending future of the id changes, once |
| McpClient.Client.End | mcp_client.py:88-90 | the id is pending no more and its future is settled |
| McpClient.Client.Close | mcp_client.py:219-230 | every open pending future fails and nothing is pending |
| McpClient.Client.Serve | mcp_client.py:50-140 | any sequence of requests, replies, timeouts, cancellations and a close worked off by a new client is a run of the machine: no request returns twice |

## Left out

- KanbanProtocol: reading a malformed ledger row is one of the failures of a ledger access; the listing and sorting of boards offered to the wearer is not modelled.
- `_kanban_operation_lock`: its polling, timeout, cancellation and errors are events that answer without entering; the lock itself is an assumption.
- Unicode normalization, case folding, control characters and markup filters: a flag or a parameter of the models that need them, except the review filter of answer texts, which is modelled.
- `_read_store`: parsing of the JSON text; the model starts from the rows, checks their limits and uniqueness, and knows the document only by its size.
- ReminderStore.RowSizeBound: an operation id counts at its full 64 bytes, so the modelled size is an upper bound of the real one; the size limit is therefore tested at least as strictly.
- The wake-up timing of the reminder worker (`_seconds_until_next`, `_run`): when ticks start is up to the environment.
- `edit_message` and the message table of the adapter; `send` is modelled without the message ids it hands out.
- `_attach_phone` and `_drop_phone`: a connection is installed or dropped in one event, the cancellation after a drop is a separate task; sockets, frames and TLS are not part of this model.
- The wording policy of `authorize_workflow_capability` is a flag; capability verification is a check before the ledger.
- WorkflowFence.OneDestinationPerTurn: covers one lifetime of the relay; `stop` forgets the fence together with the server.
- WorkflowFence: a request that the wording policy denies is closed at once; in the source it first uses up its replay attempt.
- Fields of capability uses and pending records are values in a map that is reassigned, so aliasing between a record and the map is not captured.
- HostLanes: the contents of results and errors, and the order in which two sends reach the phone.
- HostCockpit: titles, timelines and revision counters of session documents; `_bound_cockpit_snapshot` works on copies, so the records themselves cannot change there.
- `HostSnapshot.FullestPending`: among equally long lists the order is stated for the choice of one request, not for the whole run of the loop.
- Proactive tool calls, whose authorization depends only on configured allow-lists.
- The tool cache, `initialize` and the negotiated identity of the MCP client.
- `public_web.py`, `weather_provider.py`, `device_voice_contract.py`, the receipt decoders and the remaining tool handlers: they would only add field checks and filters.
