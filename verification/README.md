# Verification model of the enterprise agent's control plane

This project models the approval-gated control plane over PostgreSQL and proves what it keeps while
workers crash, lose leases, repeat calls and interleave. `dafny verify dfyconfig.toml` checks it.

The modules follow the program:

- `Records` is the shared vocabulary. `Texts`, `Clocks`, `Json` and `Canonical` hold text: numerals, the
  calendar with ISO 8601 datetimes, canonical JSON (strings as in section 7 of RFC 8259), the order of keys.
- `WorkflowState` has the guarded UPDATE statements of one workflow and the transitions built from them;
  `WorkflowStore` is the adapter as a class, `WorkflowInterleaving` the same transactions statement by
  statement with other workers in between, `WorkflowRuns` what whole runs guarantee.
- `Journal` is the idempotency journal. `Erp` has the provider tables with the seven effects and six
  reverses, `ToolAdapter` the adapter as a class whose methods are proved against them, `ToolSystem` the
  two together over arbitrary runs. `LotLedger`, `LotRestore`, `Supply`, `Shortages` and `EffectInverses`
  say what effects and reverses do to lots, supply, shortages, orders, messages and checks.
- `WorkflowExact`, `ToolExact`, `ApprovalExact` and `StockoutExact` say of every operation exactly when it goes
  through and all that it writes, in terms of rows, leases and evidence alone.
- `Keys`, `EndToEnd` and `Saga` put workers, workflow tables and journal together, `RealSaga` the provider
  tables too.
- `PlanHash` and `BoundedPlan` are the plan hash and the calls bound by it; `Approvals` and
  `ApprovalRuns` the approval tables, their triggers, and every interleaving of deciders and routing.
- `Scheduler`, `RerouteGate`, `Stockout`, `Dotenv*` and `Audit` are the smaller machines and algorithms.

Time is an integer instant passed by the caller, with no assumption that clocks are monotonic. A crash is
a call that never comes. Quantities are integers in thousandths. Generated row ids come from a counter and
are never reused. SHA-256 is a function without collisions. An exception is a refusal that leaves every row
as it was.

## Where the code differs from what it is for

Each point is proved with the exact condition under which the code does meet its purpose.

- Closing a compensation checks for SUCCEEDED steps only, so a workflow can become COMPENSATED while another
  step is still COMPENSATING (`WorkflowRuns.CloseIsCleanIff`, `WorkflowRuns.CloseCanStrand`). The executor
  unwinds one step at a time and never does this (`WorkflowRuns.CompensatedMeansUndone`).
- A worker that lost its lease can commit an effect after its step was recorded as failed
  (`Saga.LateCallLeavesEffect`). That is the only way an effect outlives its compensation
  (`Saga.OnlyTheFailedEffectCanLive`).
- The plan hash covers the text of the expiry with its UTC offset, but a timestamp column gives back the
  session's offset. A plan whose expiry was written at another offset is stored and can never be approved
  (`PlanHash.ReloadKeepsHashIff`, `PlanHash.OtherOffsetLosesHash`, `ApprovalRuns.OnlySessionOffsetsAreApproved`).
- The reroute gate treats a PARTIAL order as active, and the tool that closes the order refuses it; the gate
  accepts a supplier at any plant the actor can see, and the tool wants the order's own plant; the gate
  counts lead time from the day of detection, and the tool from the day of execution
  (`RerouteGate.AcceptedRerouteCreates`, `RerouteGate.AcceptedRerouteReduces`, with an accepted reroute for
  each: `RerouteGate.PartialOrderFails`, `RerouteGate.OtherPlantFails`, `RerouteGate.LateRunFails`).
- Compensating a reallocation needs its lot untouched since, and so does the compensation of an earlier one,
  which the later one's effect and reversal both write. A plan with two reallocations of one lot can never be
  unwound completely (`ToolSystem.EarlierReallocationIsStuck`).
- The coverage check of a transfer with a source order looks at the lot's free stock and not at the source
  (`Shortages.AcceptedCoverageStands`, `Shortages.SourceOrderIsNotChecked`).
- The dotenv value check refuses ASCII control characters but not the other characters at which a file is
  split into lines, so a value can end its line early. It is then not read back, and neither is one wrapped
  in quotes (`DotenvEverywhere.SurvivesEverywhereIff`). What follows can set another saved name
  (`DotenvEverywhere.OtherValueOverrides`) or a name that is not saved (`DotenvEverywhere.OthersKeptIff`,
  `DotenvExact.SeparatorSetsAnotherName`), and it can stay behind when the same settings are saved again, so
  that the file grows (`DotenvAgain.SaveIsIdempotentIff`, `DotenvAgain.SeparatorGrowsTheFile`).

## Model

| member | source | states |
|---|---|---|
| WorkflowState.ApplyKeepsShape | src/enterprise_agent/adapters/workflow_state.py:60-308 | every committed transition keeps the prefix shape: succeeded (or unwinding) steps up to the cursor, the cursor's step fixed by the workflow status, later steps pending; leases and results present exactly where the status says |
| WorkflowState.RunKeepsShape | src/enterprise_agent/adapters/workflow_state.py:60-308 | the prefix shape holds after any run of any workers, with finish set on the last step only |
| WorkflowExact.ClaimIs | src/enterprise_agent/adapters/workflow_state.py:60-79 | anybody takes a pending workflow or a running one whose lease has expired, the owner takes it again at any time; the lease becomes the worker's to the new expiry, and steps and cursor stay |
| WorkflowExact.GuardIs | src/enterprise_agent/adapters/workflow_state.py:80-110 | a guard is confirmed exactly if it is the step the cursor has reached in a running workflow under the worker's live lease; all it writes |
| WorkflowExact.StartIs | src/enterprise_agent/adapters/workflow_state.py:111-131 | the same for starting a tool step that has no key yet |
| WorkflowExact.CompleteIs | src/enterprise_agent/adapters/workflow_state.py:132-167 | the same for a result reported under the step's own key; finishing closes the workflow |
| WorkflowExact.FailIs | src/enterprise_agent/adapters/workflow_state.py:168-200 | the same for a failure, which keeps the lease |
| WorkflowExact.BeginIs | src/enterprise_agent/adapters/workflow_state.py:201-249 | a failed workflow starts unwinding exactly if a tool step comes before the failed one, and is closed otherwise |
| WorkflowExact.StartUnwindingIs | src/enterprise_agent/adapters/workflow_state.py:250-266 | any tool step that has its effect can be unwound next |
| WorkflowExact.CompleteUnwindingIs | src/enterprise_agent/adapters/workflow_state.py:267-308 | a reversal joins the effect in the step's result, whether it is the last or not; finishing raises while another effect remains |
| WorkflowExact.StartRaisesIff | src/enterprise_agent/adapters/workflow_state.py:386-413 | starting a step raises exactly if some step has the key already |
| WorkflowExact.InterruptedIs | src/enterprise_agent/adapters/workflow_state.py:355-485 | with others committing between its two statements a transaction misses, commits whole on what they left, or raises |
| WorkflowStore.WorkflowTables.Create | src/enterprise_agent/adapters/workflow_state.py:318-323 | inserts a snapshot, or fails on an existing id or a duplicate step key and changes nothing |
| WorkflowStore.WorkflowTables.ClaimWorkflow | src/enterprise_agent/adapters/workflow_state.py:330-353 | takes a pending, own live or expired lease, and nothing else |
| WorkflowStore.WorkflowTables.CompleteGuardStep | src/enterprise_agent/adapters/workflow_state.py:355-384 | two statements with other workers committing in between: the whole transition on the state the second one finds, or no trace of it |
| WorkflowStore.WorkflowTables.StartToolStep | src/enterprise_agent/adapters/workflow_state.py:386-413 | binds a key to the pending cursor step; a key of another step raises and changes nothing |
| WorkflowStore.WorkflowTables.CompleteToolStep | src/enterprise_agent/adapters/workflow_state.py:415-450 | result, cursor and, on the last step, workflow success together, or a rollback |
| WorkflowStore.WorkflowTables.FailToolStep | src/enterprise_agent/adapters/workflow_state.py:452-485 | step failure and workflow failure together, or a rollback |
| WorkflowStore.WorkflowTables.BeginCompensationOf | src/enterprise_agent/adapters/workflow_state.py:487-510 | starts unwinding, or closes at once when no effect remains |
| WorkflowStore.WorkflowTables.StartCompensationStep | src/enterprise_agent/adapters/workflow_state.py:512-536 | moves one succeeded tool step to compensating under the live lease |
| WorkflowStore.WorkflowTables.CompleteCompensationStep | src/enterprise_agent/adapters/workflow_state.py:538-571 | keeps the effect inside the unwound result; a finish while an effect remains rolls back |
| WorkflowStore.ApplyToKeepsConsistency | migrations/versions/20260825_0003_integrity_and_source_versions.py:31-45 | over all workflows every snapshot keeps its shape and no key is the key of two steps |
| WorkflowStore.SerialCallsRaiseOnlyWhen | src/enterprise_agent/adapters/workflow_state.py:386-571 | a transition run alone raises exactly for a key another step owns or a finish while an effect remains |
| WorkflowInterleaving.SecondStatementDecides | src/enterprise_agent/adapters/workflow_state.py:355-384 | the second statement matches exactly when the atomic transition commits on the state it finds |
| WorkflowInterleaving.InterleavingsAreSerial | src/enterprise_agent/adapters/workflow_state.py:355-485 | every state committed by any interleaving of statements and rollbacks is reached by the atomic transitions in commit order, and has the shape |
| WorkflowRuns.CommitLowersRank | src/enterprise_agent/adapters/workflow_state.py:60-308 | every commit other than a claim is by the holder of a live lease and lowers a rank |
| WorkflowRuns.RunsCommitBoundedly | src/enterprise_agent/adapters/workflow_state.py:60-308 | k tool and g guard steps commit at most 4k + g - 1 transitions besides claims in any run |
| WorkflowRuns.BoundIsReached | src/enterprise_agent/adapters/workflow_state.py:60-248 | the bound is reached by a one-step workflow that fails |
| WorkflowRuns.RunEvolvesSteps | src/enterprise_agent/adapters/workflow_state.py:111-200 | a step's key and the output of its effect, once set, never change; failed and compensated are final |
| WorkflowRuns.CompensatedMeansUndone | src/enterprise_agent/application/workflow_executor.py:470-578 | with one-at-a-time unwinding a COMPENSATED workflow has every step before the failed one compensated, holding effect and reversal |
| WorkflowRuns.CloseIsCleanIff | src/enterprise_agent/adapters/workflow_state.py:289-308 | closing leaves no step compensating exactly when no other step was |
| WorkflowRuns.CloseCanStrand | src/enterprise_agent/adapters/workflow_state.py:250-308 | from every new workflow of three tools, two reversals in flight: closing on one strands the other |
| WorkflowRuns.RecoveryStateMatchesClaim | src/enterprise_agent/application/operator_status.py:90-109 | in every reachable state another worker can claim exactly when the operator sees approval required or reclaimable |
| WorkflowRuns.NotRequiredIsFinal | src/enterprise_agent/application/operator_status.py:90-109 | nothing is required of the operator exactly when no transition by anybody at any time commits any more |
| Journal.OnlyFreshKeysRun | src/enterprise_agent/adapters/tools.py:369-496 | a call runs its effect only under a key not in the journal and then writes exactly its row; any other answer changes nothing |
| Journal.ExecuteAnswers | src/enterprise_agent/adapters/tools.py:369-419 | the answer to every tool call: a fresh key runs the effect, a key of this very call gives the stored result, anything else is refused |
| Journal.CompensateAnswers | src/enterprise_agent/adapters/tools.py:421-496 | the answer to every compensation: a new one runs exactly on an effect of the same workflow and tool that has this very result and is not compensated |
| Journal.JournalLifecycle | src/enterprise_agent/adapters/tools.py:39-78 | over any calls with any keys: no row is left started, no effect and no reverse runs twice, and an effect is compensated exactly when one reverse naming it ran |
| Journal.RunPersists | src/enterprise_agent/adapters/tools.py:39-78 | a row keeps everything but its status, which only moves to compensated |
| Journal.ReplayNeverReruns | src/enterprise_agent/adapters/tools.py:369-419 | at any later time the same call gets the first result, or a refusal once compensated; other calls under the key are refused |
| ToolAdapter.Adapter.Execute | src/enterprise_agent/adapters/tools.py:369-419 | one transaction: validated input, journal row, effect, result; a rejection leaves every row unchanged |
| ToolAdapter.Adapter.Compensate | src/enterprise_agent/adapters/tools.py:421-496 | one transaction: provenance checks on the original, reverse effect, both journal rows; a rejection leaves every row unchanged |
| ToolAdapter.Adapter.CreateReplacementPo | src/enterprise_agent/adapters/tools.py:646-693 | a replacement only for an approved supplier of the order's own part and plant that still meets production; otherwise nothing |
| ToolAdapter.Adapter.ReduceOrCancel | src/enterprise_agent/adapters/tools.py:696-740 | closes an open or delayed order only if its remainder is exactly the approved quantity, keeping what the reverse needs |
| ToolAdapter.Adapter.PlaceHold | src/enterprise_agent/adapters/tools.py:743-789 | holds an open order only at the approved version and for a runnable production order of its part and plant |
| ToolAdapter.Adapter.ReallocateLotRow | src/enterprise_agent/adapters/tools.py:833-994 | source row, target row and lot row written in place, from free stock or from a source order with enough of it, only for a released lot and a runnable target |
| ToolAdapter.Adapter.RestorePrior | src/enterprise_agent/adapters/tools.py:1291-1374 | deletes or lowers the target row, raises the source row and puts the lot back, each guarded by its version; any guard that fails rejects all |
| ToolAdapter.Adapter.FlagShortageRow | src/enterprise_agent/adapters/tools.py:997-1077 | tells purchasing only of the exact current positive shortage |
| ToolAdapter.Adapter.NotifyProductionRow | src/enterprise_agent/adapters/tools.py:792-830 | tells the supervisor of a runnable production order |
| ToolAdapter.Adapter.ScheduleCheck | src/enterprise_agent/adapters/tools.py:1080-1123 | schedules a pending check under the call's key |
| ToolAdapter.Adapter.CancelCreated | src/enterprise_agent/adapters/tools.py:1126-1149 | cancels the replacement while it is open |
| ToolAdapter.Adapter.RestoreReduced | src/enterprise_agent/adapters/tools.py:1152-1186 | restores quantity and status if quantities, status and version are as the effect left them |
| ToolAdapter.Adapter.RestoreHold | src/enterprise_agent/adapters/tools.py:1189-1215 | restores the status if status and version are as the effect left them |
| ToolAdapter.Adapter.SendCorrectionRow | src/enterprise_agent/adapters/tools.py:1218-1261 | sends a correction to the original recipient |
| ToolAdapter.Adapter.CancelCheckRow | src/enterprise_agent/adapters/tools.py:1264-1288 | cancels a check of the same workflow and key that is still pending |
| ToolExact.CreateRuns | src/enterprise_agent/adapters/tools.py:646-693 | a replacement call runs exactly for an approved supplier, order and production order of one part and plant, in time from today; all that it writes |
| ToolExact.ReduceRuns | src/enterprise_agent/adapters/tools.py:696-740 | a reduction runs exactly for an open or delayed order whose remainder is the quantity; what was received stays |
| ToolExact.HoldRuns | src/enterprise_agent/adapters/tools.py:743-789 | a hold runs exactly on an open order at the approved version, for a scheduled or running production order of its part and plant |
| ToolExact.ReallocationRuns | src/enterprise_agent/adapters/tools.py:833-994 | a reallocation runs exactly for a released lot and an active order of its part and plant, with the stock free or held by the source; the lot's quantity in use, production order and version afterwards |
| ToolExact.TakeAsksFor | src/enterprise_agent/adapters/tools.py:863-890 | on any tables a source order's row must have the quantity and not exceed what the lot has in use |
| ToolExact.NotifyRuns | src/enterprise_agent/adapters/tools.py:792-830 | a notification runs exactly for an active production order with a supervisor, to whom it goes |
| ToolExact.FlagRuns | src/enterprise_agent/adapters/tools.py:997-1077 | a shortage is flagged exactly if it is positive and what the order requires beyond the released stock that nobody else holds |
| ToolExact.CheckRuns | src/enterprise_agent/adapters/tools.py:1080-1123 | an arrival check is always scheduled, pending, under the call's own workflow and key |
| ToolExact.CancelReplacementRuns | src/enterprise_agent/adapters/tools.py:1126-1149 | a replacement's cancellation runs exactly while it is open |
| ToolExact.RestoreOrderRuns | src/enterprise_agent/adapters/tools.py:1152-1186 | a reduction is taken back exactly while the order has the quantities, status and version it left |
| ToolExact.LiftHoldRuns | src/enterprise_agent/adapters/tools.py:1189-1215 | a hold is lifted exactly while the order is on hold at the version it left |
| ToolExact.CorrectionRuns | src/enterprise_agent/adapters/tools.py:1218-1261 | a correction goes out exactly for a message that the original call sent, to its recipient and naming it |
| ToolExact.CancelCheckRuns | src/enterprise_agent/adapters/tools.py:1264-1288 | a check is cancelled exactly while it is pending, for its own workflow and key |
| ToolExact.RestoreLotRuns | src/enterprise_agent/adapters/tools.py:1291-1374 | in every reachable system a reallocation is taken back exactly while its lot has the version it left; the lot's columns are then what they were |
| ToolExact.RestoreAsksFor | src/enterprise_agent/adapters/tools.py:1291-1374 | on any tables, every row that the reversal writes must be at the version the effect left, a created target row with its quantity, and the lot with its quantity in use |
| EffectInverses.ReductionIsExactlyUndone | src/enterprise_agent/adapters/tools.py:1152-1186 | a reduction, any run, its reversal: it runs exactly if the order was not written at any point since, and then the order is the original again |
| EffectInverses.HoldIsExactlyUndone | src/enterprise_agent/adapters/tools.py:1189-1215 | the same for a hold, which is placed on the approved version only |
| EffectInverses.ReplacementIsCancelled | src/enterprise_agent/adapters/tools.py:1126-1149 | a replacement, any run, its cancellation: it runs exactly while the replacement is open, keeps what was received and touches no other order |
| EffectInverses.MessageIsAlwaysCorrected | src/enterprise_agent/adapters/tools.py:1218-1261 | a message, any run, its reversal: the correction always goes out, to the message's own recipient and naming it, and the message stays |
| EffectInverses.MessagesReachTheirReader | src/enterprise_agent/adapters/tools.py:792-1077 | who is told, under which key, and that a flagged quantity is the positive current shortage |
| EffectInverses.CheckIsCancelledWhilePending | src/enterprise_agent/adapters/tools.py:1264-1288 | an arrival check, any run, its reversal: it runs exactly while the check is pending |
| LotLedger.RowsFitTheirLot | src/enterprise_agent/adapters/tools.py:873-884 | no allocation row exceeds its lot's allocated quantity |
| LotLedger.TakeFromOrderRefusesOnly | src/enterprise_agent/adapters/tools.py:863-890 | a source order is refused exactly for being absent or too small; the guard against the lot total never fires |
| LotLedger.ReallocationKeepsLedger | src/enterprise_agent/adapters/tools.py:833-994 | a reallocation keeps every lot's allocated quantity the sum of its rows, within the lot |
| LotRestore.ReallocationMoves | src/enterprise_agent/adapters/tools.py:833-994 | exactly the quantity moves to the target, from free stock or from the source order, and nobody else's share changes; the lot is bound to the target if free stock was used or if a source it was bound to has none left |
| LotRestore.RestoreAcceptedIff | src/enterprise_agent/adapters/tools.py:1291-1374 | the reverse is accepted exactly while the lot's version is the one the effect left |
| LotRestore.RestoreKeepsLedger | src/enterprise_agent/adapters/tools.py:1291-1374 | the reverse keeps the ledger |
| LotRestore.RestoreMoves | src/enterprise_agent/adapters/tools.py:1303-1369 | the reverse gives target and source their earlier quantities and touches nobody else's |
| ToolSystem.LedgerIsConserved | src/enterprise_agent/adapters/tools.py:833-1374 | over any run of tool calls, compensations and outside status changes each lot's allocated quantity is the sum of its rows, between 0 and the lot's quantity, and no row is negative |
| ToolSystem.RunKeepsSystem | src/enterprise_agent/adapters/tools.py:196-214 | over any run a lot's version grows with every write to it and never comes back |
| ToolSystem.RunIsJournalRun | src/enterprise_agent/adapters/tools.py:369-496 | with the real effects plugged in, the journal goes through a run of the journal model |
| ToolSystem.CompensableIffUnwritten | src/enterprise_agent/adapters/tools.py:1303-1369 | a reallocation, any run, its compensation: it runs exactly if no write to its lot was committed at any point since |
| ToolSystem.EarlierReallocationIsStuck | src/enterprise_agent/adapters/tools.py:1303-1369 | after a second reallocation of the lot, compensated or not, the first can never be compensated |
| ToolSystem.CompensationIsExactInverse | src/enterprise_agent/adapters/tools.py:1291-1374 | a reallocation, any run, its compensation: the lot is exactly back for every order, or nothing changes |
| Supply.SupplyIsAccounted | src/enterprise_agent/adapters/tools.py:646-740 | over any run the outstanding total moves by what its acts add and by nothing else |
| Supply.ReductionRecordsQuantity | src/enterprise_agent/adapters/tools.py:696-740 | a reduction closes and records exactly the approved quantity |
| Supply.RerouteConservesSupply | src/enterprise_agent/adapters/tools.py:1126-1186 | with any other acts in between, the total is up by the approved quantity between the two effects and back after both; after full compensation it is the starting total plus what others did to other orders, whatever happened to the replacement |
| Supply.RerouteHappens | src/enterprise_agent/adapters/tools.py:646-740 | such a reroute exists for every quantity, with any part of the replacement received before it is cancelled |
| Shortages.CoverIsUnheldStock | src/enterprise_agent/adapters/tools.py:225-242 | available cover is released stock less what other orders hold, and never negative |
| Shortages.ReallocationShiftsShortage | src/enterprise_agent/adapters/tools.py:997-1040 | how a reallocation changes the shortage of every production order |
| Shortages.TargetAndSourceShortage | src/enterprise_agent/adapters/tools.py:997-1040 | free stock leaves the target's shortage alone; another order's stock shifts exactly its quantity of shortage |
| Shortages.AcceptedCoverageStands | src/enterprise_agent/application/scenario_b_control.py:137-180 | after an accepted coverage check on unchanged rows, exactly when the reallocation is rejected all the same |
| Shortages.SourceOrderIsNotChecked | src/enterprise_agent/application/scenario_b_control.py:137-180 | an accepted transfer whose source order holds nothing is rejected |
| Shortages.CoverageAcceptsExactly | src/enterprise_agent/application/scenario_b_control.py:137-180 | for complete evidence the check accepts exactly a full-cover transfer that the lot has capacity for |
| Shortages.CoverageAcceptedIff | src/enterprise_agent/application/scenario_b_control.py:137-180 | whatever the evidence looks like: accepted exactly for one lot with readable figures and enough free stock, for the whole of what the held order has |
| Keys.ToolKeyIdentifies | src/enterprise_agent/application/tools.py:229-250 | a tool key gives back workflow, step, tool and digest |
| Keys.BuiltKeysDiffer | src/enterprise_agent/application/tools.py:229-264 | no key serves a tool call and a reversal |
| Keys.BuiltKeysNeverRaise | migrations/versions/20260825_0003_integrity_and_source_versions.py:41-45 | over every run of new workflows and transitions with built keys, starting a step never meets the unique constraint |
| EndToEnd.RunKeepsWorld | src/enterprise_agent/application/workflow_executor.py:350-578 | steps and journal rows agree in every world that workers can reach |
| EndToEnd.EffectsRunExactlyOnce | src/enterprise_agent/application/workflow_executor.py:245-468 | over any crashes, lost leases and retries: at most one effect per step, exactly one and unreversed for a SUCCEEDED step with the same workflow, tool and result, exactly one and once reversed for a COMPENSATED one |
| EndToEnd.LateCallsRunNothing | src/enterprise_agent/adapters/tools.py:369-419 | a late or repeated call for an effect in the journal gets the stored result or a refusal |
| Saga.RefusedMeansNoRow | src/enterprise_agent/application/workflow_executor.py:350-418 | under the lease a refusal means that nothing ran |
| Saga.RecordedFailuresAreTrue | src/enterprise_agent/application/workflow_executor.py:385-395 | a failure that commits, on the worker's own refusal since its claim, is recorded only if no call ran under the key, by anybody |
| Saga.AllOrNothing | src/enterprise_agent/application/workflow_executor.py:350-578 | with calls only under the lease and failures recorded on one's own refusal since the claim, a SUCCEEDED workflow has every effect live and a COMPENSATED one has none |
| RealSaga.SagaOverTables | src/enterprise_agent/application/workflow_executor.py:350-578 | with calls having the effects that the tables give them, and other programs changing the tables in between, workflows are all or nothing and the lot ledger is conserved, over one and the same journal |
| Saga.OnlyTheFailedEffectCanLive | src/enterprise_agent/application/workflow_executor.py:359-395 | with calls at any time, a live effect in a COMPENSATED workflow is the failed step's own, exactly when a call for it ran after all |
| Saga.LateCallLeavesEffect | src/enterprise_agent/application/workflow_executor.py:359-392 | such a run exists |
| Json.QuotedIdentifies | src/enterprise_agent/application/approvals.py:432-450 | an escaped string is found back, and where it ends |
| Json.WriteIdentifies | src/enterprise_agent/application/approvals.py:432-450 | a JSON text says which value it is and where it ends |
| Canonical.CanonicalIdentifies | src/enterprise_agent/application/approvals.py:432-450 | canonical texts are equal exactly for values equal up to the order of object fields |
| Canonical.LessIs | src/enterprise_agent/application/approvals.py:447 | the order of the keys: the first place where two texts differ decides, by code point |
| Clocks.IsoReadsBack | src/enterprise_agent/application/approvals.py:432-450 | the ISO 8601 text of a datetime is read back to it, offset included |
| Clocks.DateTimeText | src/enterprise_agent/application/approvals.py:432-450 | the layout of the ISO 8601 text |
| Clocks.InstantIdentifies | src/enterprise_agent/adapters/plan_approvals.py:253-302 | at one offset only one datetime denotes an instant |
| PlanHash.HashIdentifies | src/enterprise_agent/application/approvals.py:432-450 | plan hashes are equal exactly for equal bound content |
| PlanHash.PayloadIs | src/enterprise_agent/application/approvals.py:432-445 | what is hashed, name by name |
| PlanHash.ReloadKeepsHashIff | src/enterprise_agent/adapters/plan_approvals.py:253-302 | a stored plan keeps its hash exactly when its expiry has the session's offset |
| PlanHash.OtherOffsetLosesHash | src/enterprise_agent/adapters/plan_approvals.py:253-302 | such a plan: noon in UTC, read back by a session two hours ahead |
| BoundedPlan.BoundedToolCalls | src/enterprise_agent/application/bounded_tool_plan.py:131-163 | the decoding loop computes CallsFromPlan, with every malformed plan refused |
| BoundedPlan.InputReadsBack | src/enterprise_agent/application/tools.py:58-139 | each tool input, with its text, decimal and datetime fields, is read back from its fields in any order |
| BoundedPlan.CallsRoundTrip | src/enterprise_agent/application/bounded_tool_plan.py:93-163 | a plan built from calls decodes to these calls in this order, however storage reorders its fields |
| BoundedPlan.DecodedCallsAreConstructed | src/enterprise_agent/application/bounded_tool_plan.py:131-163 | whatever decodes is at least one call, each with stripped text, positive quantities and different orders |
| BoundedPlan.InputIsConstructed | src/enterprise_agent/application/tools.py:58-139 | an input is decoded for its own tool, could have been constructed, and leaves no field unread |
| BoundedPlan.HashFixesCalls | src/enterprise_agent/application/bounded_tool_plan.py:93-163 | any plan with the approved hash decodes to the approved calls |
| Approvals.ApprovalTables.InsertPending | src/enterprise_agent/adapters/plan_approvals.py:130-134 | plan and approval together or neither, with matching hashes |
| Approvals.ApprovalTables.DecideActive | src/enterprise_agent/adapters/plan_approvals.py:224-250 | the decision compare-and-swap |
| Approvals.ApprovalTables.ReroutePending | src/enterprise_agent/adapters/plan_approvals.py:195-222 | the reroute compare-and-swap |
| ApprovalRuns.LoadReturnsTheRequest | src/enterprise_agent/adapters/plan_approvals.py:136-146 | whatever happens after an accepted request, a load returns its plan as storage gives it back: fields in storage order and the expiry at the session's offset, with a matching hash under an unchanged binding |
| ApprovalRuns.TriggersFixBindings | migrations/versions/20260825_0005_immutable_plan_approvals.py:28-85 | the triggers never stop a swap, and let no UPDATE change what an approval is bound to |
| ApprovalExact.UpdateAllowedIff | migrations/versions/20260825_0005_immutable_plan_approvals.py:28-85 | an UPDATE may change the approver, the status and the decision time, and nothing else |
| ApprovalRuns.RunKeepsState | src/enterprise_agent/application/approvals.py:215-311 | every approval has one of four histories, and plans and bindings never change |
| ApprovalRuns.ApprovalSafety | src/enterprise_agent/application/approvals.py:215-311 | over all interleavings: at most one decision and one reroute, none after a decision; a reroute goes to an authorized backup while the original approver is away; an APPROVED row was decided by its current approver, before both expiries, on unchanged content and on current source versions that are the plan's own |
| ApprovalRuns.OriginalCannotDecideAfterMove | src/enterprise_agent/application/approval_routing.py:150-202 | after a reroute to somebody else the original approver's check and swap both fail for ever |
| ApprovalRuns.OnlySessionOffsetsAreApproved | src/enterprise_agent/application/approvals.py:239-242 | a decision goes through only for plans whose expiry was written at the session's offset |
| ApprovalRuns.SwapResultIs | src/enterprise_agent/adapters/plan_approvals.py:195-250 | a swap hits exactly a row with its hash and approver that has not expired and is open for it, and writes only the decision or the new approver |
| ApprovalExact.DecisionPassesIff | src/enterprise_agent/application/approvals.py:215-243 | a decision passes its checks exactly for an open approval, by its approver, before both expiries, on the stored hash of unchanged content, and an approval on the plan's own source versions |
| ApprovalExact.DecisionCommits | src/enterprise_agent/application/approvals.py:215-311 | a decision that nobody comes in between of is written exactly then; otherwise no row changes |
| ApprovalExact.RoutingOutcomes | src/enterprise_agent/application/approval_routing.py:143-190 | every outcome of an escalation and exactly when it is given; values and limits compare as numbers |
| ApprovalExact.RoutingCommits | src/enterprise_agent/application/approval_routing.py:143-202 | an escalation that nobody comes in between of moves the approval to the backup exactly if the outcome is to route, and otherwise changes no row |
| ApprovalExact.RequestIs | src/enterprise_agent/application/approvals.py:167-213 | a request gets its plan and approval rows exactly if the plan has not expired, was built at that moment, has the hash of its own content, and both ids are new |
| ApprovalExact.PendingIs | src/enterprise_agent/adapters/plan_approvals.py:130-134 | an approval row is inserted exactly with the stored hash of the plan that it names |
| Scheduler.SchedulerTable.Schedule | src/enterprise_agent/adapters/scheduler.py:94-114 | inserts, accepts a replay, or raises, on the task's key |
| Scheduler.SchedulerTable.ClaimDue | src/enterprise_agent/adapters/scheduler.py:116-137 | leases the first tasks, at most `limit`, returns them in order, changes no other; a limit that is not positive is an error |
| Scheduler.SchedulerTable.MarkSucceeded | src/enterprise_agent/adapters/scheduler.py:139-155 | completes a claimed task with a live lease, and says whether there was one |
| Scheduler.ClaimTakesTheFirst | src/enterprise_agent/adapters/scheduler.py:35-55 | only unlocked tasks that are pending and due, or whose lease has run out, are claimed, and none is left out while a later one is taken or the limit is not reached |
| Scheduler.ClaimIsStrictlyOrdered | src/enterprise_agent/adapters/scheduler.py:35-55 | claimed tasks are distinct and in (due, id) order |
| Scheduler.CompleteIs | src/enterprise_agent/adapters/scheduler.py:57-66 | a task is completed exactly while its lease runs, and then has no lease and the time it was done |
| Scheduler.ClaimLeavesTime | src/enterprise_agent/adapters/scheduler.py:35-66 | a task claimed at one time can be completed at every time before one lease duration later, and at none after |
| Scheduler.ScheduleIs | src/enterprise_agent/adapters/scheduler.py:94-169 | every answer to a scheduling call and exactly when it is given; only an insert changes the table |
| Scheduler.CancelIs | src/enterprise_agent/adapters/tools.py:327-337 | a task is cancelled exactly while it is pending, under its own id and key |
| Scheduler.LeaseBound | src/enterprise_agent/adapters/scheduler.py:35-66 | attempts times the lease duration never exceed lease expiry minus due time, whatever clocks do |
| Scheduler.FinishedTasksStay | src/enterprise_agent/adapters/tools.py:327-337 | succeeded and cancelled are final, and no task changes what it is |
| Scheduler.ReplayIsIdempotent | src/enterprise_agent/adapters/scheduler.py:94-114 | at any later time the same input is accepted without change and any other under its key refused |
| Scheduler.PayloadsCompareAsDictionaries | src/enterprise_agent/adapters/scheduler.py:190-198 | replayed payloads are compared up to the order of fields |
| RerouteGate.Evaluate | src/enterprise_agent/application/gate.py:69-161 | approval is asked for exactly if the shipment update settles nothing and no reason applies; otherwise a reroute is denied with exactly the reasons that apply, in the order of the checks; a recommendation without writes, or an update that settles it, ends in no action or manual review |
| RerouteGate.AcceptedIff | src/enterprise_agent/application/gate.py:86-222 | no reason applies exactly on current evidence, with the four scopes, for all that remains of the order at hand, to a suitable supplier whose price is within the actor's limit |
| RerouteGate.ShipmentSettles | src/enterprise_agent/application/gate.py:146-161 | the three ways in which a shipment update settles the matter, and when it settles nothing |
| RerouteGate.AcceptedRerouteCreates | src/enterprise_agent/application/gate.py:69-132 | exactly when an accepted reroute's replacement is created on unchanged rows |
| RerouteGate.AcceptedRerouteReduces | src/enterprise_agent/application/gate.py:177-191 | exactly when its original order is then closed: unless it is PARTIAL |
| RerouteGate.PartialOrderFails | src/enterprise_agent/adapters/tools.py:696-740 | an accepted reroute of a PARTIAL order creates the replacement and then fails |
| RerouteGate.OtherPlantFails | src/enterprise_agent/adapters/tools.py:79-96 | an accepted reroute to a supplier at another plant fails |
| RerouteGate.LateRunFails | src/enterprise_agent/adapters/tools.py:646-693 | an accepted reroute that runs after the supplier's last day fails |
| Stockout.InventoryByPart | src/enterprise_agent/application/stockout.py:154-169 | one inventory record per part, or an error |
| Stockout.CommittedDemandsByPart | src/enterprise_agent/application/stockout.py:172-199 | the grouping loop, with unreadable records refused |
| Stockout.Evaluate | src/enterprise_agent/application/stockout.py:91-151 | the nested loops compute Evaluation |
| Stockout.SumIsPrefix | src/enterprise_agent/application/stockout.py:104-113 | the sum per target is one running sum over date-sorted demand, cut after the last tie |
| Stockout.ShortfallGrows | src/enterprise_agent/application/stockout.py:104-121 | shortfall does not fall with a later date and is equal on ties |
| Stockout.DemandsCollect | src/enterprise_agent/application/stockout.py:172-199 | a part's demands are exactly its current committed orders |
| Stockout.FindingsAreASuffix | src/enterprise_agent/application/stockout.py:91-151 | a part's findings are a suffix of its demands in (date, id) order, each short by the running sum less available stock |
| Stockout.EvaluationFinds | src/enterprise_agent/application/stockout.py:91-151 | the evaluation's findings are exactly those of the parts with an inventory record |
| StockoutExact.InventoryIs | src/enterprise_agent/application/stockout.py:154-169 | the inventory is refused exactly if a record cannot be read or two name one part; otherwise a part is in it exactly if a record names it, with that record's id, version, available and safety quantity |
| StockoutExact.EvaluationRefusedIff | src/enterprise_agent/application/stockout.py:154-199 | evidence is refused exactly for such inventory, or for an order record without status or date, or a committed one without part or quantity |
| StockoutExact.FindingsAreReal | src/enterprise_agent/application/stockout.py:91-151 | every finding is of an inventory record and a committed order of its part, with the sum required by its date, the projected stock and the shortfall computed from the evidence |
| StockoutExact.ShortagesAreFound | src/enterprise_agent/application/stockout.py:91-151 | and every committed order that the inventory record of its part cannot cover is found |
| Stockout.TriggersAreExact | src/enterprise_agent/application/stockout.py:123-138 | every finding's trigger binds exactly its inventory record and the current committed orders of the evidence up to its date, at the versions read |
| Dotenv.ReadEnv | src/enterprise_agent/llm_setup.py:239-247 | the reading loop computes Values |
| Dotenv.MergeLines | src/enterprise_agent/llm_setup.py:273-295 | the merging loops compute Merged |
| DotenvRuns.LineParses | src/enterprise_agent/llm_setup.py:259-270 | a written assignment is parsed to its name and value, less wrapping quotes |
| DotenvRuns.AssignmentParses | src/enterprise_agent/llm_setup.py:259-270 | a name, an equals sign and anything on one line is an assignment of the stripped text without its quotes |
| DotenvRuns.OnlyAssignmentsParse | src/enterprise_agent/llm_setup.py:259-270 | and nothing else is one |
| DotenvRuns.SafeIffNormalized | src/enterprise_agent/llm_setup.py:331-338 | the accepted values are exactly those that the check on terminal input lets through |
| DotenvRuns.ReadIsValue | src/enterprise_agent/llm_setup.py:239-247 | the value read for a name is its last assignment |
| DotenvRuns.MergeReads | src/enterprise_agent/llm_setup.py:273-295 | every selected name has one assignment with its new value, every other name reads as before |
| DotenvRuns.MergeKeepsOthers | src/enterprise_agent/llm_setup.py:273-295 | all other lines stay, in order, up to a final newline |
| DotenvEverywhere.OthersKeptIff | src/enterprise_agent/llm_setup.py:239-295 | for all accepted settings, a name that is not saved reads as before from every file exactly if no saved value, where it falls apart into lines, assigns it |
| DotenvAgain.MergeIsIdempotent | src/enterprise_agent/llm_setup.py:273-295 | merging the same accepted settings into merged lines again changes no line, whatever the values hold |
| DotenvAgain.SaveIsIdempotentIff | src/enterprise_agent/llm_setup.py:152-165 | for all accepted settings, saving again leaves every saved file as it is exactly if each value falls apart only into assignments of its own name; in particular if it has no line break |
| DotenvAgain.SeparatorGrowsTheFile | src/enterprise_agent/llm_setup.py:331-338 | an accepted value with a line separator: saved into an empty file twice, it leaves its tail behind as a further line |
| DotenvExact.SurvivesIff | src/enterprise_agent/llm_setup.py:239-295 | for one file, with no line break in other values, a saved value is read back exactly if it has no line break and is not wrapped in quotes |
| DotenvEverywhere.SurvivesEverywhereIff | src/enterprise_agent/llm_setup.py:239-295 | for all accepted settings, a saved value is read back from every file exactly if it has no line break, is not wrapped in quotes, and no other value's pieces assign its name another value |
| DotenvEverywhere.OtherValueOverrides | src/enterprise_agent/llm_setup.py:331-338 | accepted settings in which another value does |
| DotenvExact.SeparatorSetsAnotherName | src/enterprise_agent/llm_setup.py:331-338 | an accepted value with a line separator sets another name |
| Audit.SecretsDoNotShow | src/enterprise_agent/adapters/audit.py:225-263 | payloads that differ only under sensitive keys, at any depth, are recorded alike |
| Audit.SanitizeSanitizes | src/enterprise_agent/adapters/audit.py:225-263 | whatever is recorded is redacted under every sensitive key at every depth and fit for JSON |
| Audit.SanitizedIsFixed | src/enterprise_agent/adapters/audit.py:225-263 | sanitizing changes nothing exactly on sanitized payloads, so it is idempotent |
| Audit.SensitiveIff | src/enterprise_agent/adapters/audit.py:260-263 | the sensitive keys: ten names in any mixture of case, hyphens and underscores, and everything that ends in _api_key |
| Audit.MappingIs | src/enterprise_agent/adapters/audit.py:247-253 | a mapping keeps its keys in order, everything under a sensitive key is replaced, and when it is rejected |
| Audit.LeafIs | src/enterprise_agent/adapters/audit.py:225-257 | what becomes of every other value |

## Left out

- Authorization: scopes of tool callers are checked before a call and are not part of the journal model.
- The executor's revalidation of plan, approval and declared steps before a claim (workflow_executor.py, lines 622-908); workers in `EndToEnd` may do more than it lets them.
- Columns that nothing reads back: created_at, updated_at, po_number, message bodies, audit run ids.
- Foreign keys and row identity: UUIDs are a counter, an arrival check's attention binding always exists, one plan's single workflow instance is not enforced.
- The failure of a single statement between its lock and its commit: one transaction of the tool adapter is one step.
- Journal.Execute: an effect that raises something other than a rejection is a crash, which leaves the same rows.
- EndToEnd.RunKeepsWorld: effects are arbitrary results here; `RealSaga` gives them the tables.
- Digests: SHA-256 and its truncation in keys are taken to be free of collisions.
- PlanHash.HashIdentifies: floats and lone surrogates in plan parameters are not modelled; UTC offsets are whole seconds.
- BoundedPlan.CallsRoundTrip: casting the identifiers' text to row ids when a tool runs; of the input models' lenient conversions only numeral text for integers and integers for quantities are kept, and decimals are never in exponent form.
- RerouteGate.Evaluate: the estimated value and the candidate, which a decision only shows.
- Stockout.Evaluate: registering attention for the findings.
- ApprovalRuns.ApprovalSafety: currency codes are upper-cased for ASCII letters only; the checks on a claimed escalation task before its approval is loaded (type, lease, due time, nonblank payload) are not modelled; routing may also be tried without them.
- Approvals: audit events of requests and decisions, and the scheduling of escalation tasks, which is an ordinary call of `Scheduler.SchedulerTable.Schedule`.
- Dotenv.ReadEnv: file permissions and the atomic replacement of the file; newline translation has taken place, so texts hold no carriage returns.
- Audit.SanitizeSanitizes: the event vocabulary, identifiers and timestamps outside the payload.
- HTTP transports, provider requests, the command line, pages, seed data, metering and narratives: presentation or outside services.
- Context assembly and evidence queries beyond the facts used as inputs: single-record lookups.
