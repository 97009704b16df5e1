# Verified models of Murage's qualification and turn machinery

This project models the parts of Murage whose correctness is a matter of protocol, state or arithmetic, and proves what
they are for. Each module follows one part of the program:

| module | what it models |
|---|---|
| `NativeBudget`, `Pricing`, `LedgerFile`, `SpendGuard`, `MeteredSpend`, `MeteredProgress` | spending real money at most once per reservation: the ledger's validity, the cents a case is settled at, the ledger rewrite, the guard in front of the provider, and the whole protocol of cohort owners and case processes over shared files, with crashes and reruns |
| `ToolSchemas`, `McpTools`, `WaitLoop`, `McpSession` | the MCP server: the schema validator, the tools' schemas, `wait_for_conversation`, and the dispatcher with its registry of cancellable calls |
| `ReplySetup`, `DeliveryLedger` | a live channel run: the poll that watches owner cards, and the record of everything ever sent |
| `ChildTables` | the rebuild of a legacy child table and the orphan sweep |
| `JsonPointers`, `LeaseEvidence` | receipt evidence: JSON pointers (RFC 6901) and the before/after comparison of charges |
| `ModelDownload` | the resumable, hash-checked model download |
| `ProcessTree` | the memory sample of a server and its descendants |
| `Cursors`, `AppCatalog` | base64url page cursors, and walks over the catalog broker's pages |
| `AdmittedTurn` | starting an admitted turn and giving its thread back |
| `Scoring` | retrieval scores and their summary |
| `AboutMe` | the owner's tagged profile block and its cache |
| `Outcomes`, `JsonValues`, `Decimals`, `Texts` | shared types, JSON trees, printed numbers and text operations |

Objects that the program updates in place are classes whose methods are proved against functions on values; the results
about whole runs are lemmas about those functions. Everything that comes from outside (file contents other processes
change, server answers, clock readings, throws, crashes) is an input, and the results hold for every such input.

Where the code does less than its own description, the model follows the code, shows the input, and proves exactly when
the promise holds:

- Objects with `additionalProperties: false` let two kinds of extra keys through: names every JavaScript object inherits,
  and any extra keys when the first of them is the empty one (`ToolSchemas.ClosedObjectsThatSlipThrough`,
  `ToolSchemas.ClosedDisagreement`); two calls of a tool show it (`McpTools.CallsThatSlipThrough`). For schemas whose
  candidates stand alone, as all nineteen tools' do, that is all the validator accepts beyond the draft
  (`ToolSchemas.DraftIsCodeWithoutExtras`, and for the tools as they are `McpTools.ServerArgumentsExact`).
- Beside a `oneOf` the validator reads only `const` and `enum`, where the draft applies every keyword
  (`ToolSchemas.KeywordsBesideSlipThrough`, `ToolSchemas.AgreementBesideCandidates`).
- `const` and `enum` compare by identity, so they never accept a list or an object (`ToolSchemas.ConstantAgreement`,
  `ToolSchemas.EnumAgreement`).
- `uniqueItems` compares printed items, so it tells objects with reordered fields apart (`ToolSchemas.ReorderedTwins`,
  `ToolSchemas.UniqueItemsAgreement`); with one order of fields it does what it should (`ToolSchemas.OneOrderAgrees`).
- An edit that lands between the ledger's comparison and its rename is overwritten, and one that
  lands earlier is noticed (`LedgerFile.EditSurvivesExactlyWhenEarly`, `LedgerFile.ReservationSurvivesExactlyWhenEarly`).
- A partial download of the right size and the wrong contents is refused by every later run without a request, and a
  server that once sends wrong bytes of the right length is enough (`ModelDownload.Directory.PrepareAsset`,
  `ModelDownload.Directory.PrepareAgain`).
- A background failure is not given back when the log line that announces it cannot be written
  (`AdmittedTurn.StartEnds`).
- A profile file whose stamp returns to the one that was cached is served from the cache, even though each write changed
  the stamp of the file before it (`AboutMe.FreshExactlyWhenNoticed`, `AboutMe.ReturningStampIsStale`).

## Model

| member | source | states |
|---|---|---|
| `NativeBudget.ValidateNativeBudget` | scripts/verify-memory-native.ts:26-47 | accepts exactly the valid ledgers and returns what is left; the loops over maps decide the declarative rules |
| `NativeBudget.ReserveEffect` | scripts/eval-memory-claude.ts:69 | a reservation takes exactly its cents off the remainder, and the new ledger is valid exactly when the id is new and the cents and turns fit |
| `NativeBudget.SettleEffect` | scripts/eval-memory-claude.ts:76 | settling gives back exactly the difference, and is valid exactly for an unsettled row and at most its maximum |
| `NativeBudget.OneOpenReservation` | scripts/verify-memory-native.ts:42-45 | a valid ledger holds at most one open 600-cent reservation |
| `Pricing.CostBelowUpper` | scripts/eval-memory-claude.ts:29-31 | the upper estimate covers the cost at any rates and geography up to the published ones |
| `Pricing.SettledCoversCost` | scripts/eval-memory-claude.ts:20-33 | an accepted proof is settled at 1 to 600 cents that cover the true cost and the reported estimate, and by less than one cent too many |
| `Pricing.OnlyTheEstimateExceeds` | scripts/eval-memory-claude.ts:31-33 | once the earlier checks pass, a proof is refused as too expensive exactly when its reported estimate is above six dollars |
| `Pricing.ModelCeiling` | scripts/verify-memory-claude.ts:91 | no request within the model's limits can cost more than the 600 cents a case reserves |
| `LedgerFile.File.Update` | scripts/eval-memory-claude.ts:57-60 | the rewrite takes effect exactly when both ledgers are valid and the file is as it was read; otherwise the file keeps what editors left |
| `LedgerFile.EditSurvivesExactlyWhenEarly` | scripts/eval-memory-claude.ts:57-60 | for any change and any edit that differs from the ledger and from the change: it stays, and stops the update, exactly when it lands before the comparison; otherwise the change alone is left |
| `LedgerFile.NothingOfALateEditIsLeft` | scripts/eval-memory-claude.ts:57-60 | an update that succeeds leaves exactly its change to the ledger it read, so an early edit left that ledger as it was and of a late one no row or settlement remains |
| `LedgerFile.ReservationSurvivesExactlyWhenEarly` | scripts/eval-memory-claude.ts:59 | a reservation someone else adds meanwhile survives, and is noticed, exactly when it lands before the comparison |
| `SpendGuard.Message.Clamp` | scripts/verify-memory-claude.ts:127-128 | the request's own limit and tier are rewritten in place and nothing else changes |
| `SpendGuard.Guard.Open` | scripts/verify-memory-claude.ts:112-117 | the opening checks, in order, and what they count |
| `SpendGuard.Guard.ReadBody` | scripts/verify-memory-claude.ts:118-119 | stopping at the first chunk over the limit refuses exactly the bodies that are too large |
| `SpendGuard.Guard.Deliver` | scripts/verify-memory-claude.ts:119-137 | the verdict on a body that has arrived, and the new counts, marker and sent bodies |
| `SpendGuard.OneAcceptableRequest` | scripts/verify-memory-claude.ts:112-141 | over every interleaving of requests at most one body is sent, and it is within what the reservation covers |
| `SpendGuard.EveryRequestIsCounted` | scripts/verify-memory-claude.ts:113-137 | every request that ends without an error is counted once, under one refusal or as forwarded |
| `MeteredSpend.CohortDoKeeps` | scripts/eval-memory-claude.ts:53-82 | each file operation of a cohort owner keeps the protocol's invariant |
| `MeteredSpend.CaseDoKeeps` | scripts/verify-memory-claude.ts:89-145 | each operation of a case process keeps the protocol's invariant |
| `MeteredSpend.ReadProofCovers` | scripts/eval-memory-claude.ts:72-75 | the cents read from a passed proof cover a request that was sent on that reservation |
| `MeteredSpend.RunKeepsInv` | scripts/eval-memory-claude.ts:53-82 | the invariant holds after every interleaving of any number of processes with crashes and reruns |
| `MeteredSpend.RunOnlyGrows` | scripts/eval-memory-claude.ts:57-76 | nothing reserved, settled, marked or sent is ever taken back |
| `MeteredSpend.AtMostOneEach` | scripts/verify-memory-claude.ts:93-137 | each reservation id causes at most one upstream request, and each frozen case is reserved at most once |
| `MeteredSpend.OneLockedCohort` | scripts/eval-memory-claude.ts:53-54 | at most one cohort owner works on the ledger at a time |
| `MeteredSpend.TrueCostWithinBudget` | scripts/verify-memory-native.ts:42-46 | in every reachable state the true cost of everything sent is at most the charged cents, which are at most 1000 |
| `MeteredSpend.UncertainAttemptStops` | scripts/eval-memory-claude.ts:65-69 | in every reachable state, a 600-cent row that is not settled is charged in full, and no other such row can be added |
| `MeteredProgress.UndisturbedCaseSettles` | scripts/eval-memory-claude.ts:63-78 | a case nobody disturbs is reserved, sent once and settled, and the budget is down by exactly the settled cents |
| `MeteredProgress.UndisturbedCaseRuns` | scripts/eval-memory-claude.ts:63-78 | from every reachable world in which a cohort is about to take a case, that case's actions lead to a reachable world in which it is settled, with one request more and the budget down by exactly the settled cents |
| `ToolSchemas.SchemaErrorExact` | scripts/mcp-server.ts:467-510 | the validator reports no error exactly when the value satisfies the declarative relation, with `oneOf` deciding alone after `const` and `enum` |
| `ToolSchemas.ReadingsAgree` | scripts/mcp-server.ts:467-510 | for supported schemas, in which candidates stand alone, the relation as coded is JSON Schema's own (sections 6.1, 6.2, 6.4 and 6.5.3 of the validation vocabulary, draft 2020-12) on every value in which no extra key of a closed object slips through, whatever its candidates |
| `ToolSchemas.DraftIsCodeWithoutExtras` | scripts/mcp-server.ts:467-510 | for every value: the draft accepts it exactly when the program does and no closed object in it has an undeclared key, for supported schemas when no value satisfies two candidates |
| `ToolSchemas.AgreementOnOneValue` | scripts/mcp-server.ts:467-510 | for the same schemas, the validator and the draft agree on a value exactly when it is refused or has no such key |
| `ToolSchemas.KeywordsBesideSlipThrough` | scripts/mcp-server.ts:470-473 | any number is accepted where the type beside the one candidate asks for text |
| `ToolSchemas.AgreementBesideCandidates` | scripts/mcp-server.ts:470-473 | with keywords beside the candidates, the validator and the draft agree on a value exactly when it is refused, or it has no undeclared key and the same schema without its candidates accepts it too |
| `ToolSchemas.ClosedDisagreement` | scripts/mcp-server.ts:499-502 | the key checks of one closed object agree exactly when its extra keys are noticed: the first that is neither declared nor inherited is not the empty one |
| `ToolSchemas.ConstantAgreement` | scripts/mcp-server.ts:468 | a constant is read alike for every value exactly when it is no list or object |
| `ToolSchemas.EnumAgreement` | scripts/mcp-server.ts:469 | an enumeration is read alike for every value exactly when none of its choices is a list or an object |
| `ToolSchemas.UniqueItemsAgreement` | scripts/mcp-server.ts:484-486 | a list passes exactly when no two items print alike, the draft asks that no two are equal, and the two agree exactly when two items print alike or none are equal with their fields reordered; what the draft accepts always passes |
| `ToolSchemas.ReorderedTwins` | scripts/mcp-server.ts:484-486 | any object and any reordering of its fields are equal and pass as two items |
| `ToolSchemas.OneOrderAgrees` | scripts/mcp-server.ts:484-486 | on lists whose objects all list their fields in one order, the comparison of printed items is the draft's |
| `ToolSchemas.ToolArgumentsExact` | scripts/mcp-server.ts:514-521 | for any tools, name and arguments: accepted exactly when the first tool of that name exists, the arguments are an object and satisfy its schema as coded |
| `ToolSchemas.DraftArgumentsExact` | scripts/mcp-server.ts:514-521 | for tools with supported schemas, they satisfy it as the draft reads it exactly when they are accepted without an undeclared key in a closed object |
| `McpTools.EveryToolIsExact` | scripts/mcp-server.ts:156-447 | the schemas of all nineteen tools are supported and their candidates exclude one another |
| `McpTools.ServerArgumentsExact` | scripts/mcp-server.ts:514-521 | for every name and all arguments, the server accepts what the draft accepts, and beyond that only undeclared keys |
| `McpTools.CallsThatSlipThrough` | scripts/mcp-server.ts:499-502 | `list_bots` is called with an inherited key, and with an extra key behind an empty one, which the draft refuses |
| `WaitLoop.DispatchFailedAfterLatestUser` | scripts/mcp-server.ts:717-736 | true exactly when the part after the last user message holds an error activity and no non-blank bot text |
| `WaitLoop.WaitForConversation` | scripts/mcp-server.ts:1071-1163 | for all snapshots, tails and clocks it stops within two polls a second and one more, on the first poll that answers, throws or is late, with that poll's answer |
| `WaitLoop.PollTime` | scripts/mcp-server.ts:1159-1160 | polls that go on are half a second apart, so the deadline bounds their number |
| `WaitLoop.NeedsUserMeansOpenCard` | scripts/mcp-server.ts:1097-1103 | the status is `needs-user` whenever the reported tail holds an open card, and otherwise only by a poll's own decision |
| `WaitLoop.ChannelSettlesOnlyWhenDone` | scripts/mcp-server.ts:1128-1156 | when an active channel may be called settled or failed |
| `WaitLoop.SettledBecomesFailed` | scripts/mcp-server.ts:1099-1142 | for a bot or a channel, the answer of a whole poll is failed exactly when no card is open and the speaker is dead, or settled was decided and the latest turn holds an error and no bot text; and when it is settled |
| `McpSession.Dispatcher.Process` | scripts/mcp-server.ts:1240-1352 | receiving one message, up to the start of its tool call |
| `McpSession.Dispatcher.Complete` | scripts/mcp-server.ts:1355-1396 | the end of one tool call: its entry, and only its, is removed, and its reply sent |
| `McpSession.RunKeepsRegistry` | scripts/mcp-server.ts:1350-1361 | over every interleaving each registered id leads to a running call of that id, the latest one |
| `McpSession.QuietSessionIsEmpty` | scripts/mcp-server.ts:1350-1361 | when every tool call that was started has a later end of its own, both collections are empty |
| `McpSession.FinishTouchesOnlyItself` | scripts/mcp-server.ts:1356-1361 | finishing one call never removes another's entry |
| `McpSession.RegisteredMeansLatest` | scripts/mcp-server.ts:1352 | an id is registered exactly while the call started last under it runs |
| `McpSession.CancelReachesLatest` | scripts/mcp-server.ts:1277-1285 | a cancel aborts the call started last under the id if it still runs, and nothing else |
| `McpSession.CloseReachesAll` | scripts/mcp-server.ts:1426-1429 | a call in flight when the input closes is aborted in every later state in which it still runs |
| `McpSession.EveryMessageAccounted` | scripts/mcp-server.ts:1240-1397 | after any run every message has the replies it is owed, or is still running |
| `McpSession.NotificationsGetNoReply` | scripts/mcp-server.ts:1262-1268 | a well-formed message without an id never gets a reply (section 4.1 of the JSON-RPC 2.0 specification) |
| `McpSession.RequestsGetOneReply` | scripts/mcp-server.ts:1276-1397 | one with a valid id and a string method gets exactly one reply, with that id, except for the two notifications |
| `ReplySetup.Watcher.HandleFixtureReplySetup` | scripts/channel-live-providers.ts:568-631 | one poll, step by step, against its specification on values |
| `ReplySetup.PollEffect` | scripts/channel-live-providers.ts:584-629 | everything a poll can do to the shared state: what it settles, adds, answers and never touches |
| `ReplySetup.SettledOnlyByItsOwner` | scripts/channel-live-providers.ts:584-595 | a poll settles an action only from the same run, thread and message with an owner's decision |
| `ReplySetup.PendingOwnerCardWaits` | scripts/channel-live-providers.ts:599-616 | a poll that inspects pending cards reports waiting exactly when one of them is an owner's, unless it stops |
| `ReplySetup.AnsweredAtMostOnce` | scripts/channel-live-providers.ts:622-625 | over any polls of any replies of a live run, with different earlier runs each, a folder-trust request is answered at most once |
| `ReplySetup.OnlyTrustIsAnswered` | scripts/channel-live-providers.ts:617-625 | over the same, only folder-trust cards without problems are ever answered |
| `ReplySetup.SettledNeverReverts` | scripts/channel-live-providers.ts:593 | a settled action stays settled and keeps its identity across replies |
| `ReplySetup.SettledAfterPending` | scripts/channel-live-providers.ts:583-595 | an action is settled only by a poll of its own run and thread, after it was seen pending there on that message in an earlier poll |
| `DeliveryLedger.OutboundIsEverOutbound` | scripts/channel-live-providers.ts:689-696 | the kept record holds exactly the ids ever seen outbound, although the file it reads is compacted |
| `DeliveryLedger.OutboundNeverShrinks` | scripts/channel-live-providers.ts:688-696 | the kept record never shrinks |
| `DeliveryLedger.LatestStateKept` | scripts/channel-live-providers.ts:690-693 | the state kept for an id is the latest one shown |
| `DeliveryLedger.LiveRun.ObserveLedger` | scripts/channel-live-providers.ts:689-696 | one observation returns the total, or stops when the outbound limit with the cards is exceeded |
| `DeliveryLedger.LiveRun.OwnerSends` | scripts/channel-live-providers.ts:717-727 | the baseline, the operator budget and the order in which they take effect |
| `DeliveryLedger.LiveRun.ExpectReplies` | scripts/channel-live-providers.ts:698-716 | passing means exactly the expected number of ids was ever outbound and every one since the operator's message is sent |
| `ChildTables.KeptAndOrphans` | server/added-table-lifecycle.ts:103-110 | the rows kept and the orphans split a table, in number and in contents |
| `ChildTables.Database.EnsureChildTable` | server/added-table-lifecycle.ts:96-114 | the rebuilt table, or the database exactly as before when any step fails |
| `ChildTables.Database.SweepAddedOrphans` | server/added-table-lifecycle.ts:118-125 | removes exactly the orphans and returns their number |
| `ChildTables.RebuiltRows` | server/added-table-lifecycle.ts:103-110 | a rebuild keeps exactly the rows whose request exists, none without the parent table |
| `ChildTables.EnsureIsIdempotent` | server/added-table-lifecycle.ts:99-101 | a second call changes nothing |
| `ChildTables.SecondSweepRemovesNone` | server/added-table-lifecycle.ts:118-125 | a second sweep removes nothing |
| `ChildTables.EnsureAndSweepCommute` | server/added-table-lifecycle.ts:96-125 | rebuilding and sweeping give the same database in either order |
| `JsonPointers.ScanChecksEscapes` | scripts/b34-receipt-matrix.ts:174-176 | the refusal's pattern accepts exactly the pointers whose escapes are complete (section 3 of RFC 6901) |
| `JsonPointers.TwoPassesAreOne` | scripts/b34-receipt-matrix.ts:333 | replacing `~1` and then `~0` is one-pass unescaping on every accepted token (section 4 of RFC 6901) |
| `JsonPointers.PointedValue` | scripts/b34-receipt-matrix.ts:338-346 | the walk over tokens, against resolution on trees |
| `JsonPointers.PrintedPointerReads` | scripts/b34-receipt-matrix.ts:338-346 | printing the path to any scalar of any tree as a pointer and evaluating it gives that scalar |
| `JsonPointers.ReadsExactlyThePath` | scripts/b34-receipt-matrix.ts:338-346 | a pointer reads a scalar exactly when it is the printed path to it |
| `JsonPointers.PointersAreInjective` | scripts/b34-receipt-matrix.ts:174-176 | different accepted pointers name different paths |
| `LeaseEvidence.LedgerDeltaIsTotals` | scripts/b34-receipt-matrix.ts:495-496 | the day-by-day sum is the difference of the two ledgers' totals |
| `LeaseEvidence.ExactRowsSumUp` | scripts/b34-receipt-matrix.ts:497-518 | exact rows of distinct reviews change the charges by calls times the capped limit, each once |
| `LeaseEvidence.PassingAccountsForAll` | scripts/b34-receipt-matrix.ts:487-526 | when all four checks pass, the ledger's output change is what the reviews reserved, each review has a new exact row, and all other rows cancel out |
| `LeaseEvidence.NothingChargedTwice` | scripts/b34-receipt-matrix.ts:510-525 | if charge rows only grow, no other row's output changed |
| `ModelDownload.ArrivedIsPrefix` | scripts/qualify-memory-runtime.ts:58-61 | at any point of appending or starting over, what arrived of the original's reply is a prefix of the original |
| `ModelDownload.Directory.Fetch` | scripts/qualify-memory-runtime.ts:54-64 | one request: what it writes, and when it is worth another attempt |
| `ModelDownload.Directory.Download` | scripts/qualify-memory-runtime.ts:49-69 | at most three requests, and with an honest server a partial that is a prefix, complete when the loop ends well |
| `ModelDownload.Directory.PrepareAsset` | scripts/qualify-memory-runtime.ts:41-71 | an asset's file changes only to one with the manifest's size and hash; a run refuses without a request exactly a partial of the right size and wrong contents, which it leaves there; and how a server's wrong bytes get a first run into that |
| `ModelDownload.Directory.Prepare` | scripts/qualify-memory-runtime.ts:39-74 | the same for the manifest, killed anywhere; an installed manifest makes no request; a run that changes and asks nothing refuses exactly a stuck manifest |
| `ModelDownload.Directory.PrepareAgain` | scripts/qualify-memory-runtime.ts:39-74 | the same over any number of interrupted runs with servers that may differ; a stuck manifest is refused by all of them |
| `ProcessTree.Sampler.Descendants` | scripts/bench-concurrency.ts:30-32 | the loop ends, with exactly the processes that parent links reach from the child, and the child |
| `ProcessTree.TreeHasAllReachable` | scripts/bench-concurrency.ts:30-32 | no reachable process is missing, whatever cycles the table holds |
| `ProcessTree.RowOrderIsIrrelevant` | scripts/bench-concurrency.ts:32 | the order of the rows does not matter |
| `ProcessTree.Sampler.Sample` | scripts/bench-concurrency.ts:28-38 | the reported usage and the recorded start times are those of that tree |
| `ProcessTree.EachProcessOnce` | scripts/bench-concurrency.ts:33-37 | with unique pids the total is the server plus its descendants, each counted once |
| `ProcessTree.RecordedStarts` | scripts/bench-concurrency.ts:34 | each process found is recorded with its start time and none recorded before is forgotten |
| `Cursors.EncodedDecodes` | server/app-catalog.fixture.ts:91-96 | base64url decoding undoes encoding for any bytes (section 5 of RFC 4648) |
| `Cursors.CursorLeadsBack` | server/app-catalog.fixture.ts:91-96 | every cursor handed out leads back to its offset |
| `AppCatalog.Broker.Fetch` | server/app-catalog.fixture.ts:103-144 | one answer under either contract, and the recorded call |
| `AppCatalog.Broker.Walk` | server/app-catalog.fixture.ts:116-143 | following `next_cursor` yields the whole list once and in order, in as many requests as pages; only a fault ends it otherwise |
| `AppCatalog.PagesAreTheList` | server/app-catalog.fixture.ts:134-139 | the pages joined are the list |
| `AppCatalog.PageCount` | server/app-catalog.fixture.ts:134-139 | there are as many pages as the list needs |
| `AppCatalog.ContractsAgree` | server/app-catalog.fixture.ts:67-71 | the pass-through list without service toolkits tells the same as the second contract's list |
| `AppCatalog.WalkBoth` | server/app-catalog.fixture.ts:116-143 | walks under the two contracts agree entry by entry |
| `AdmittedTurn.Host.StartAdmittedTurn` | server/admitted-turn.ts:17-33 | one start, with its end, give-backs, log lines and the world it leaves |
| `AdmittedTurn.StartEnds` | server/admitted-turn.ts:17-39 | handed over, or given back once, except when the line that announces a background failure cannot be written; the caller sees the original error unless the last line written failed |
| `AdmittedTurn.Host.GiveBackAdmitted` | server/admitted-turn.ts:69-80 | every step in order whatever throws, up to a log line that fails |
| `AdmittedTurn.ThrowsOnlyByLog` | server/admitted-turn.ts:69-80 | it throws exactly when a log line it writes fails, and always ends the marks first |
| `AdmittedTurn.NewerTurnIsUntouched` | server/admitted-turn.ts:72-77 | a thread that a newer turn holds or that was kept stays as it is, and releasing or idling is not tried, whatever throws and whatever the log does |
| `AdmittedTurn.ThreadAfter` | server/admitted-turn.ts:69-80 | who holds the thread afterwards and whether the bot is busy, for every pattern of throwing steps; when the run keeps it |
| `AdmittedTurn.GivingBackTwice` | server/admitted-turn.ts:69-80 | giving back again releases nothing and leaves a holder alone |
| `AdmittedTurn.OnlyItsOwnEnd` | server/admitted-turn.ts:17-80 | over any sequence of turns, ends and starts, only the holder's own end or failed start takes the thread from it |
| `AdmittedTurn.OverNeverReturns` | server/admitted-turn.ts:17-80 | over the same, and whatever the log does, a turn that is over never holds the thread again, a held thread's bot is busy and no run is reported twice |
| `AdmittedTurn.FailedStartLetsGo` | server/admitted-turn.ts:17-80 | a failed start that nobody keeps the thread for ends its run when reading and releasing work and the lines are written |
| `Scoring.ScoredIsSound` | scripts/eval-memory.ts:20-27 | what one score guarantees whatever was retrieved |
| `Scoring.RatiosAreRatios` | scripts/eval-memory.ts:29-41 | every ratio of the summary lies between 0 and 1 |
| `Scoring.NoFailureExactly` | scripts/eval-memory.ts:29-41 | no case fails exactly when recall, pooled precision and abstention are perfect and nothing forbidden or erroneous occurred |
| `AboutMe.EscapedHasNoTag` | server/about-me.ts:103 | escaped text holds no opening or closing tag in any letter case |
| `AboutMe.OneBlock` | server/about-me.ts:103-106 | a prompt that is not empty starts with the one opening tag and ends with the one closing tag |
| `AboutMe.Profiles.SaveAboutMe` | server/about-me.ts:62-69 | the cap, the cleared text, the written file and the dropped cache entry |
| `AboutMe.Profiles.AboutMePrompt` | server/about-me.ts:96-109 | the prompt and the cache, and that the prompt is the file's while the cache agrees |
| `AboutMe.PromptsStayFresh` | server/about-me.ts:82-109 | over any saves, reads and noticed outside writes, every prompt is the one freshly made from the file |
| `AboutMe.FreshExactlyWhenNoticed` | server/about-me.ts:82-99 | an outside write shows exactly when its stamp differs from the cached one |
| `AboutMe.ReturningStampIsStale` | server/about-me.ts:82-99 | writes that each change the stamp and still leave a stale prompt |

## Left out

- Numbers: amounts, averages and rates are exact integers or reals, so floating-point rounding is not represented; JSON numbers are finite, although JavaScript reads `1e999` as infinity.
- Hashes: SHA-256 is a parameter in the download and stands for its argument in lease keys, so collisions there are not represented.
- MeteredSpend: root's own ledger edits are allowed at any moment except between a cohort's comparison and its rename; `LedgerFile.File.Update` shows what such an edit would lose. Root never reserves the frozen cases, and settles a reservation by hand at cents that cover its request, or at any cents when none was sent and none has passed its reservation check.
- MeteredSpend: the provider's usage report is taken as honest; a usage beyond the model's own limits of a million input and 128 thousand output tokens, and rates beyond the published ones, are outside it.
- MeteredSpend: the child's exit code, signals and its single-use launch marker; a child is any case process, so a cohort may go on after its child at any time, and what it may settle rests on the proof file alone.
- SpendGuard: header copying, credentials and the memory proof's text search; they are predicates on the written body.
- Output files of the cohort and of the evaluation, console lines and exit codes.
- ToolSchemas: error texts and paths, object keys that JavaScript orders as numbers, and the text of printed items, which is represented by structural equality that minds the order of fields.
- WaitLoop: the view of the target that is sent along with the answer, and failing requests, which throw.
- McpSession: the text of replies, tool handlers and the split of standard input into lines; a reply is its id and kind.
- ReplySetup: the folder-trust inspection is a list of problems, and the task and engine lookup is one value.
- DeliveryLedger: the reply-text comparison is one verdict, timers are the order of snapshots, and the end of the operator's terminal input is a stop.
- ChildTables: SQL itself; a table is its columns and rows in order, a statement fails by choice or for a missing column or a name taken.
- JsonPointers: how a number prints as text in the outcome, and big integers, which JSON does not hold.
- ModelDownload: directories, ownership markers, links whose target is missing, time-outs and waiting times; file names stand for paths.
- ProcessTree: reading the process table itself.
- AppCatalog: the fixture's own list of apps; lower-casing and ordering by name are parameters, and a requested limit is an integer. A fractional limit would hand out a cursor that leads back to the start.
- Cursors: numbers beyond the safe integers, which JavaScript prints and reads inexactly.
- AdmittedTurn: other threads and bots, and what draining does beyond admitting a turn to this thread.
- Scoring: the order of the listed ids, degraded reasons and latencies.
- AboutMe: the wording of the introduction, which is any line without `<`; an outside write between the stamp and the read of one prompt, unreadable files, and the API handler around it.
- Process and HTTP plumbing, credential and keychain reading, journey scripts, percentile helpers and argument checks.
