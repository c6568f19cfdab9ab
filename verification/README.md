# What is modelled

The decision logic of the native module under `zygisk-module/cpp`, and the two low-level algorithms it stands on.
Every part has a model on values, a specification of whole runs, and, where the source updates something in place, a
class whose methods are proved to compute the model.

* **Dispatching** (`DispatchTeams`, `Reservations`, `DispatchState`, `DispatchSurvey`, `DispatchStarts`,
  `DispatchScans`, `DispatchCoupling`, `DispatchSafety`, `DispatchBatch`, `DispatchSelections`, `DispatchGates`,
  `DispatchEngine`). Scans of the task list and polls of submitted starts over one reservation table, in batch, farm,
  nearby and route flows that may change at any scan. A run is any list of steps: a scan with any settings, gate
  readings and rows, or a poll with any answers. The log of a run records what was read and done, and the theorems are
  about all runs.
* **The planter** (`LedgerText`, `LedgerGrammar`, `PlanterState`, `PlanterSafety`, `PlanterLimits`, `PlanterLedger`,
  `PlanterTiming`, `PlanterRelease`, `PlanterChoice`, `PlanterSends`, `PlanterSteps`, `PlanterEngine`). A tick, the
  ledger file that outlives the process, and a manual recovery. The process may die between any two effects (`Moment`),
  every file operation and RPC may fail, snapshots may show anything, and the clock may jump. The server is trusted with
  two things only (`Lawful`): an id that vanished stays away, and a planted seed stays planted while it exists.
* **The A64 relocator** (`Words`, `A64`, `Relocation*`, `InlineHook`). Words are numbers below 2 to the 32, with the bit
  operations defined on them. `A64` gives instructions their meaning, after the Arm Architecture Reference Manual for
  A-profile (DDI 0487), section C6.2; an instruction without a PC-relative operand is any function of the registers,
  which may compute a jump and may leave a return address, and what it does may not depend on X17. `RelocationCases`
  states what the simulation says for code without calls, for a prologue that signs and stores the link register, and
  for a call and a return. Addresses are those of user space.
* **The location gates** (`NearbyGate`, `NearbyResets`, `RouteGate`, `RouteResets`). Both run over any observations; the
  distance is a parameter, and only the drift bounds assume that it is a metric.
* **Symbol lookup** (`SymbolTables`, `SymbolLookup`, `SymbolBuilding`). The GNU and SysV hash tables, well formed as the
  lookup reads them, against a plain scan (`Scan`, the first symbol of the name). `SymbolBuilding` shows that the tables
  which a linker writes are well formed.
* **The account digest** (`Sha256`, `Sha256Constants`, `Sha256Example`, `AccountDigest`). The in-place hash against
  FIPS 180-4, sections 4.1.2, 4.2.2, 5.1.1, 5.3.3 and 6.2.2.
* **Claiming returned tasks** (`ReturnBatch`, `ReturnClaims`).

`PlanterSends`, `PlanterSteps`, `LedgerGrammar`, `DispatchSurvey`, `DispatchStarts`, `DispatchScans`, `NearbyResets`,
`RouteResets` and `ReturnClaims` state what one step does in terms of what it reads, with every bound and every order
written out; the model is proved to do exactly that.

## Findings

* A seed id with white space at its ends is written to the ledger as it is and read back without it
  (zygisk-module/cpp/planter_automation.inc:321-322, zygisk-module/cpp/planter_recovery.h:13-18). A manual recovery then
  looks at the wrong seed: it takes the untouched seed for a plucked one, or another seed in the slot for the planted
  one, and the RPC is sent again. `Faithful` is the exact condition on an id (`PlanterLimits.FaithfulIsExact`): the id
  is too long for a readable ledger line, or it does not turn into another acceptable id when it is trimmed. For each
  such id, whatever else is sent, no lawful run plucks or plants it twice; for every other id there is a lawful run that
  does.
* `finish` does not look at the result of `std::remove` (zygisk-module/cpp/planter_automation.inc:239-248): a confirmed
  RPC whose ledger cannot be removed leaves a ledger that holds nothing. `PlanterLedger.ActGuards` says exactly when,
  and `PlanterLimits.LedgerHoldsNothing` gives a run. Sending stays safe; the next process starts blocked.
* The displacement of literal loads, ADR and ADRP is made unsigned by the mask `~3u`
  (zygisk-module/cpp/support/And64InlineHook.cpp:302, zygisk-module/cpp/support/And64InlineHook.cpp:358,
  zygisk-module/cpp/support/And64InlineHook.cpp:392): it is right exactly when it is not negative
  (`RelocationLimits.LoadTargetIsRight`, `RelocationLimits.AdrTargetIsRight`, `RelocationLiterals.AdrpTargetIsRight`),
  and `RelocationLimits.BackwardLoadGoesWrong` and `RelocationLimits.BackwardAdrGoesWrong` give instructions that go
  wrong.
* A literal load that is moved and not copied becomes another load if its new offset is negative, unless the bits of the
  top byte that the sign reaches are set already (zygisk-module/cpp/support/And64InlineHook.cpp:328,
  `RelocationLiterals.MovedLoad`); the two low bits of the new offset of ADR reach its register
  (zygisk-module/cpp/support/And64InlineHook.cpp:382, `RelocationLiterals.NearAdr`); and ADRP of a page of the window is
  left as it is (zygisk-module/cpp/support/And64InlineHook.cpp:408, `RelocationLiterals.Adrp`). Each lemma says exactly
  when that is right.
* A pool slot has fifty words (zygisk-module/cpp/support/And64InlineHook.cpp:481), of which five are never needed: an
  instruction takes nine words only at an odd word, so that five instructions and the jump back take at most 45
  (`RelocationInvariant.RelocatedSize`), and some windows take exactly that many (`RelocationLimits.SizeIsReached`).
* A computed jump into the window that is no return goes to the code that the hook has overwritten
  (zygisk-module/cpp/support/And64InlineHook.cpp:452-454, `RelocationCases.JumpIntoWindowIsLost`).
* The single return claim and the batch claims share the id they wait for
  (zygisk-module/cpp/nectar_rpc.cpp:3393-3398, zygisk-module/cpp/nectar_rpc.cpp:3447-3453): while no automatic mode was
  read, the single claim is confirmed exactly when a complete list misses it
  (`ReturnBatch.SingleConfirmedWhenMissing`); an automatic mode in between forgets it
  (`ReturnBatch.AutomaticForgetsSingle`), and it may be confirmed while it is still listed
  (`ReturnBatch.SingleConfirmedTooEarly`).

## Model

| member | source | states |
|---|---|---|
| DispatchTeams.DispatchIds | zygisk-module/cpp/dispatch_safety.h:34-48 | the loop gives the ids of a text that is exactly a team, and nothing for any other text |
| DispatchTeams.TeamOfIsExact | zygisk-module/cpp/dispatch_safety.h:34-48 | a non-empty list comes back if and only if the text is its join with commas and it has 1 to 100 distinct, non-empty ids without commas and forbidden characters |
| DispatchTeams.TeamTextIs | zygisk-module/cpp/dispatch_safety.h:34-48 | the same with the characters written out |
| Reservations.ReserveIsAllOrNothing | zygisk-module/cpp/dispatch_safety.h:64-80 | a reservation gives the owner exactly the team, unsent, and leaves everyone else alone, or changes nothing; the holds of each owner stay all sent or all unsent |
| Reservations.TableStaysUniform | zygisk-module/cpp/dispatch_safety.h:72-105 | under any operations each owner's holds are all sent or all unsent |
| Reservations.OnlyEvidenceReleases | zygisk-module/cpp/dispatch_safety.h:72-92 | no sequence of reservations, starts and cancellations drops a hold that was sent |
| DispatchEngine.DispatchReservations.OwnsSent | zygisk-module/cpp/dispatch_safety.h:64-67 | whether the owner has a sent hold |
| DispatchEngine.DispatchReservations.Reserve | zygisk-module/cpp/dispatch_safety.h:72-80 | the new table is the reservation of the old one, and the answer is whether it could be made |
| DispatchEngine.DispatchReservations.Sent | zygisk-module/cpp/dispatch_safety.h:81-86 | exactly the owner's holds are marked sent at the time |
| DispatchEngine.DispatchReservations.Cancel | zygisk-module/cpp/dispatch_safety.h:87-92 | exactly the owner's unsent holds are dropped |
| DispatchEngine.DispatchReservations.Observe | zygisk-module/cpp/dispatch_safety.h:93-98 | a sent hold notes that its Pikmin is busy, and is dropped when it is available after that |
| DispatchEngine.DispatchReservations.ReconcileTasks | zygisk-module/cpp/dispatch_safety.h:99-105 | exactly the sent holds older than the list whose tasks it leaves out are dropped |
| DispatchEngine.Dispatcher.Scan | zygisk-module/cpp/nectar_rpc.cpp:1117-1610 | the state and the log after a scan are those of the model, for any rows |
| DispatchEngine.Dispatcher.SettleNearbySelection | zygisk-module/cpp/nectar_rpc.cpp:1378-1408 | computes the model's settlement of a nearby selection, whose readings and results DispatchStarts.NearbyRow spells out |
| DispatchEngine.Dispatcher.SettleBatchSelection | zygisk-module/cpp/nectar_rpc.cpp:1409-1472 | computes the model's settlement of the batch selection, which DispatchStarts.BatchRow spells out |
| DispatchEngine.Dispatcher.SelectTeam | zygisk-module/cpp/nectar_rpc.cpp:1473-1536 | the proposed team is reserved and set aside, started at once in the farm flow, or let go |
| DispatchEngine.Dispatcher.SubmitArmed | zygisk-module/cpp/nectar_rpc.cpp:1093-1115 | the owner's holds are sent, the start is tracked and counted |
| DispatchEngine.Dispatcher.OpenScan | zygisk-module/cpp/nectar_rpc.cpp:1139-1211 | stale selections, released locks and an outdated batch selection are gone before the first row |
| DispatchEngine.Dispatcher.CloseScan | zygisk-module/cpp/nectar_rpc.cpp:1581-1610 | absent tasks settle their locks and starts, and a complete list reconciles the table |
| DispatchEngine.Dispatcher.SurveyInventory | zygisk-module/cpp/nectar_rpc.cpp:944-975 | every status that is read is shown to the table; the eligible ids are those the model says |
| DispatchEngine.Dispatcher.PollPendingTask | zygisk-module/cpp/nectar_rpc.cpp:2925-2970 | a fault releases the lock of its own task only, and nothing else is released |
| DispatchEngine.Dispatcher.PollArmedTasks | zygisk-module/cpp/nectar_rpc.cpp:2977-3016 | exactly the faulted starts stop being tracked |
| DispatchSurvey.SurveyFinds | zygisk-module/cpp/nectar_rpc.cpp:944-975 | from the sightings alone: who is free for the task, which holds end or note a busy Pikmin, and whether everything was read |
| DispatchStarts.NearbyRow | zygisk-module/cpp/nectar_rpc.cpp:1378-1408 | a nearby or route selection of a listed task stays while it is younger than 1000 ms; after that it is dropped, and started if and only if every reading of the row allows it, with the whole new state |
| DispatchStarts.BatchRow | zygisk-module/cpp/nectar_rpc.cpp:1409-1472 | the same for the batch selection and 1500 ms: the reached target only, 1 to 2000 ms, and within 100 m, or 4 m for a gift |
| DispatchStarts.SelectRow | zygisk-module/cpp/nectar_rpc.cpp:1473-1536 | a task without a selection is selected, or started at once in the farm flow, if and only if the readings allow it, and otherwise what was reserved is let go |
| DispatchScans.OpenIs | zygisk-module/cpp/nectar_rpc.cpp:1149-1191 | what a scan finds before its first row: which selections, locks, tracked starts and holds stay, told from the settings, the gate and the clock |
| DispatchScans.FinishedRow | zygisk-module/cpp/nectar_rpc.cpp:1249-1261 | a finished task is no longer tracked and settles its own due lock |
| DispatchScans.CloseIs | zygisk-module/cpp/nectar_rpc.cpp:1581-1610 | what the end of a scan settles: a due lock and tracked starts that were not listed, and with a complete list the older sent holds and the selections of the tasks left out |
| DispatchScans.DueSelectionStarts | zygisk-module/cpp/nectar_rpc.cpp:1378-1408 | on one scan and its log: a nearby or route selection at least 1000 ms old, whose task is listed once, is started if and only if the readings allow it, and is gone afterwards; a younger one is not started |
| DispatchScans.DueBatchStarts | zygisk-module/cpp/nectar_rpc.cpp:1409-1472 | on one scan and its log: the same for the batch selection and 1500 ms |
| DispatchScans.FreeTaskSelected | zygisk-module/cpp/nectar_rpc.cpp:1473-1536 | on one scan and its log: a task without a selection is selected, or started in the farm flow, if and only if the readings allow it |
| DispatchScans.BatchPoll | zygisk-module/cpp/nectar_rpc.cpp:2925-2970 | the watched batch start is given up when late, and its lock released when it failed |
| DispatchScans.ArmedPoll | zygisk-module/cpp/nectar_rpc.cpp:2977-3016 | a failed start is no longer tracked, a late one no longer watched, a successful one recorded |
| DispatchCoupling.AlwaysCoupled | zygisk-module/cpp/nectar_rpc.cpp:1149-1188 | in every reachable state a selection's team is exactly its task's unsent holds, nothing else is held unsent, batch excludes the rest, and at most three starts and nearby selections are under way |
| DispatchSafety.NoPikminTwice | zygisk-module/cpp/nectar_rpc.cpp:1378-1536 | between two starts that share a Pikmin it was seen busy and then available, or a later complete list left the first task out |
| DispatchSafety.NoTaskTwice | zygisk-module/cpp/nectar_rpc.cpp:1370-1375 | a task is not started again while any hold of its earlier start remains |
| DispatchBatch.BatchIsSerial | zygisk-module/cpp/nectar_rpc.cpp:1247-1252 | between two batch starts the first task was listed as finished or left out of a later list, or its RPC faulted, or dispatching was turned off |
| DispatchBatch.SelectionExcludesLock | zygisk-module/cpp/nectar_rpc.cpp:1376-1377 | a batch selection and a batch confirmation lock are never held together |
| DispatchBatch.FewStartsPerScan | zygisk-module/cpp/nectar_rpc.cpp:403-404 | no scan starts more than three tasks, and none more than one in batch mode |
| DispatchSelections.StartsAreBacked | zygisk-module/cpp/nectar_rpc.cpp:1379-1407 | every batch, nearby and route start carries out one selection of the same team, made at least 1500 or 1000 ms before under the same epoch and used by no other start, with the gate ready |
| DispatchGates.StartsLieInOneEpoch | zygisk-module/cpp/nectar_rpc.cpp:538-539 | with the route flag unchanged since the selection the gate was not reset between selection and start; at the time for which the start asked, the nearby gate had three ever newer fixes since its last reset, the first 3000 ms and the last observation at most 2000 ms old, and the route gate eight over 10000 ms, the newest at most 4000 ms old |
| DispatchGates.NearbyStartDriftsLittle | zygisk-module/cpp/nectar_rpc.cpp:1379-1407 | between the selection and the start of a nearby task the game position differs, from the fix counted last at the selection if there is one, by at most 7 m/s and 2 m for each fix counted in between |
| NearbyGate.NearbyLocationGate.Observe | zygisk-module/cpp/nearby_safety.h:39-73 | the fields follow the model of every observation so far |
| NearbyGate.NearbyLocationGate.IsReady | zygisk-module/cpp/nearby_safety.h:74-77 | ready exactly when the observations since the last reset support it |
| NearbyGate.ReadyMeansSettled | zygisk-module/cpp/nearby_safety.h:25-77 | ready if and only if since the last reset three ever newer fixes were accepted, every observation from the first on was valid, fresh and within 8 m, the first is 3000 ms old and the last at most 2000 ms |
| NearbyResets.EpochChangesExactly | zygisk-module/cpp/nearby_safety.h:33-62 | from the observations alone: the epoch changes exactly when observations are more than 5000 ms apart or a clock goes back, the fix is invalid, stale or more than 8 m off, or it jumps from the fix counted last |
| NearbyResets.WalkOpens | zygisk-module/cpp/nearby_safety.h:39-77 | observations at most 5000 ms apart of usable fixes, each the same or newer within 7 m/s and 2 m, reset nothing, and with three ever newer fixes the gate is ready from 3000 ms after the first until 2000 ms after the last |
| NearbyGate.TrackSinceReset | zygisk-module/cpp/nearby_safety.h:33-62 | no observation after the first fix that counts reset the gate |
| NearbyGate.TrackGrows | zygisk-module/cpp/nearby_safety.h:55-68 | while nothing resets the gate, the counted fixes are only added to |
| NearbyGate.EpochCountsResets | zygisk-module/cpp/nearby_safety.h:33-36 | the epoch stays the same exactly when nothing is reset |
| NearbyGate.EqualEpochsMeanNoReset | zygisk-module/cpp/nearby_safety.h:78 | equal epochs mean that nothing between them reset the gate |
| NearbyGate.EpochDriftIsBounded | zygisk-module/cpp/nearby_safety.h:55-62 | between any two counting fixes of an epoch the game position differs by at most 7 m/s and 2 m for each fix |
| RouteGate.RouteLocationGate.Observe | zygisk-module/cpp/route_policy.h:30-50 | the fields follow the model of every observation so far |
| RouteGate.RouteLocationGate.IsReady | zygisk-module/cpp/route_policy.h:51 | a ready answer is earned by samples that were all observed since the last reset |
| RouteGate.AlwaysSound | zygisk-module/cpp/route_policy.h:30-50 | the history is strictly increasing in raw time, timely, within the speed bounds and spans at most 12000 ms |
| RouteGate.HistoryIsShort | zygisk-module/cpp/route_policy.h:42-43 | the history never holds more than 14001 samples |
| RouteResets.RouteEpochChangesExactly | zygisk-module/cpp/route_policy.h:30-49 | from the observations alone: exactly which of them reset the route gate |
| RouteResets.RouteReadyExactly | zygisk-module/cpp/route_policy.h:43-51 | ready if and only if at least eight fixes counted since the last reset lie within 12000 ms, the oldest of them at least 10000 ms old, the game on the track and within 60 m, and the last observation at most 2000 ms old |
| RouteGate.ReadyIsEarned | zygisk-module/cpp/route_policy.h:47-51 | ready means at least 8 ever newer fixes over at least 10000 ms within the speed bounds, the newest at most 4000 ms old |
| RouteGate.HistoryIsSeen | zygisk-module/cpp/route_policy.h:29-43 | every sample was observed since the last reset |
| RouteGate.RouteDriftIsBounded | zygisk-module/cpp/route_policy.h:33-39 | along the history the raw position drifts at most 7 m/s and 2 m for each fix |
| RouteGate.EqualRouteEpochsMeanNoReset | zygisk-module/cpp/route_policy.h:52 | equal epochs mean that nothing between them reset the gate |
| LedgerText.ParseLine | zygisk-module/cpp/planter_recovery.h:8-18 | what is read from a written line is the ledger with its seed trimmed, exactly if that is acceptable and the line is short enough |
| LedgerText.RenderedReadsBack | zygisk-module/cpp/planter_automation.inc:321-322 | a written ledger reads back as it was if and only if it is acceptable and its line is short enough |
| LedgerText.RequestIsExact | zygisk-module/cpp/planter_recovery.h:20-28 | an accepted request expects no ledger, or one that a ledger file could hold, no later than the request |
| LedgerText.RequestReadsBack | zygisk-module/cpp/planter_recovery.h:20-28 | a request that is written out is accepted exactly when it is short enough and believable |
| LedgerGrammar.LedgerReads | zygisk-module/cpp/planter_recovery.h:8-18 | exactly which texts are read as a ledger, character by character: at most 512, white space, signs and figures where they may be, and a ledger that the planter could have written |
| LedgerGrammar.RequestReads | zygisk-module/cpp/planter_recovery.h:20-28 | exactly which texts are accepted as a recovery request, character by character |
| PlanterSafety.AtMostOnce | zygisk-module/cpp/planter_automation.inc:239-382 | over every run, with death at any point and any answers, no seed with a faithful id is plucked twice and none is planted twice, whatever other ids are sent, under the lawful-server assumptions |
| PlanterSafety.DoneBeforeNext | zygisk-module/cpp/planter_automation.inc:249-337 | between an RPC for a faithful id and any later RPC a complete snapshot shows the first one done: the seed gone, or planted |
| PlanterSafety.RunKeeps | zygisk-module/cpp/planter_automation.inc:131-156 | every RPC for a faithful id is seen done, or it is the last one, its ledger is on disk and the process is held |
| PlanterSafety.ProvenShows | zygisk-module/cpp/planter_recovery.inc:33-52 | a recovery is proven only by a complete snapshot that shows the RPC of the ledger on disk done |
| PlanterLimits.FaithfulIsExact | zygisk-module/cpp/planter_recovery.h:13-18 | an id is sent the same RPC at most once in every lawful run if and only if it is faithful, for plucking as for planting |
| PlanterLimits.UnfaithfulSeedSentTwice | zygisk-module/cpp/planter_recovery.h:13-18 | for every id that is not faithful there is a lawful run in which the seed is plucked twice, and one in which it is planted twice |
| PlanterLedger.ActGuards | zygisk-module/cpp/planter_automation.inc:239-248 | a tick leaves a ledger that holds nothing exactly when it confirms an RPC and the file cannot be removed |
| PlanterLimits.LedgerHoldsNothing | zygisk-module/cpp/planter_automation.inc:239-248 | a run that confirms an RPC, cannot remove its ledger, and leaves it on disk with nothing to hold the process |
| PlanterLedger.LedgerHolds | zygisk-module/cpp/planter_automation.inc:131-156 | while removals succeed, a ledger on disk always holds an initialised process |
| PlanterTiming.SendsAreSpaced | zygisk-module/cpp/planter_automation.inc:247 | under a clock that does not go back, two RPCs of one process are at least 5000 ms apart |
| PlanterRelease.ReleasesAreJustified | zygisk-module/cpp/planter_recovery.inc:16-69 | a recovery that lifts the pause has seen, 5000 ms before and in every capture since, a complete inventory with the same proof for the same request |
| PlanterRelease.ProvenIffDeserved | zygisk-module/cpp/planter_recovery.inc:19-52 | exactly when a tick counts as proof for a request: fresh for this process, nothing in flight, complete inventory, and the expected ledger shown done, or no ledger written |
| PlanterRelease.KeyIsExact | zygisk-module/cpp/planter_recovery.inc:53 | joined keys tell proof and ledger bytes apart |
| PlanterRelease.ReleaseArchives | zygisk-module/cpp/planter_recovery.inc:59-67 | the pause is lifted only after the ledger with the very bytes of the proof was moved aside; otherwise the pause stays as it was |
| PlanterChoice.BestIsLeast | zygisk-module/cpp/planter_automation.inc:372-378 | the seed to plant is plantable and no plantable seed has fewer steps, or as many and a smaller id; there is none only if nothing is plantable |
| PlanterChoice.RipeIsFirst | zygisk-module/cpp/planter_automation.inc:358-364 | the seed to pluck is that of the first permanent slot with a ready seed, or there is none |
| PlanterChoice.FreeIsFirst | zygisk-module/cpp/planter_automation.inc:370-371 | the slot to plant in is the first empty permanent one, or there is none |
| PlanterSafety.ChoiceCalls | zygisk-module/cpp/planter_automation.inc:358-380 | what is chosen is in the inventory, calls for its action and goes to a permanent slot |
| PlanterSends.SentIsRight | zygisk-module/cpp/planter_automation.inc:352-380 | told from the inventory: a tick sends one RPC at most; nothing in mode off, a plant only in mode auto and only with nothing to pluck; the pluck is that of the first permanent slot with a ready seed, the plant that of the seed with the fewest steps and the smallest id into the first empty permanent slot |
| PlanterSends.SendsExactly | zygisk-module/cpp/planter_automation.inc:339-381 | a process that nothing hinders sends a pluck, or in mode auto a plant, if and only if the inventory has one and there is room |
| PlanterSteps.SendLeaves | zygisk-module/cpp/planter_automation.inc:319-337 | what an RPC leaves: its ledger on disk, and a process that awaits it, is blocked or has died |
| PlanterSteps.FailureLeaves | zygisk-module/cpp/planter_automation.inc:285-322 | an RPC that was due and could not be built or written down blocks the process and leaves no ledger |
| PlanterSteps.AnswerLeaves | zygisk-module/cpp/planter_automation.inc:239-284 | what each answer and inventory make of the RPC in flight, with the reason of the block and the next time to send |
| PlanterSteps.RecoveryLeaves | zygisk-module/cpp/planter_recovery.inc:16-69 | what a tick remembers of a recovery request, and exactly when it lifts the pause |
| PlanterEngine.Planter.Capture | zygisk-module/cpp/planter_automation.inc:157-218 | a snapshot comes back exactly when everything was read and ids, slots and counts are consistent |
| PlanterEngine.Planter.Init | zygisk-module/cpp/planter_automation.inc:131-156 | the first call binds the metadata and notes a ledger that was left |
| PlanterEngine.Planter.Recovery | zygisk-module/cpp/planter_recovery.inc:16-69 | the recovery of one tick computes the model |
| PlanterEngine.Planter.FindSlot | zygisk-module/cpp/planter_recovery.inc:40-43 | the last slot with the index, and whether any slot refers to the seed |
| PlanterEngine.Planter.ObservePending | zygisk-module/cpp/planter_automation.inc:249-284 | the answer and the inventory settle the RPC in flight as in the model |
| PlanterEngine.Planter.Finish | zygisk-module/cpp/planter_automation.inc:239-248 | a confirmed RPC removes its ledger, any other end blocks and keeps it |
| PlanterEngine.Planter.StartAction | zygisk-module/cpp/planter_automation.inc:285-337 | the ledger is written before the RPC is sent, and every failure blocks |
| PlanterEngine.Planter.Choose | zygisk-module/cpp/planter_automation.inc:358-380 | the loops over slots and seeds choose what the model chooses, which PlanterSends.SentIsRight and SendsExactly spell out |
| PlanterEngine.Planter.Tick | zygisk-module/cpp/planter_automation.inc:339-382 | one tick computes the model, including the process that dies in it; PlanterSends and PlanterSteps spell out what it sends and leaves |
| RelocationTheorem.RelocationSimulates | zygisk-module/cpp/support/And64InlineHook.cpp:430-472 | for any window of up to five branches, prefetches and instructions without a PC-relative operand, the relocated code follows every run of the original, inside the window at the copies and outside at the same address, as long as no step of that run depends on X17, takes the return address of a call in the window apart, or computes a jump into the window other than a return |
| RelocationTheorem.SimulateRun | zygisk-module/cpp/support/And64InlineHook.cpp:430-472 | the same from every pair of corresponding states |
| RelocationTheorem.ReturnSimulates | zygisk-module/cpp/support/And64InlineHook.cpp:129-190 | the same when a callee returns behind a call of the window, and so behind the relocated call |
| RelocationTheorem.SimulateCall | zygisk-module/cpp/support/And64InlineHook.cpp:129-190 | BL lands where it did and returns to the relocated successor |
| RelocationTheorem.SimulateCond | zygisk-module/cpp/support/And64InlineHook.cpp:194-254 | a conditional branch is taken for the same condition and lands where it did |
| RelocationCases.CallFreeFollows | zygisk-module/cpp/support/And64InlineHook.cpp:430-472 | in a window without calls whose instructions ignore X17 the hypothesis of the simulation says exactly that the run is in the window and computes no jump into it |
| RelocationCases.CallFreeSimulates | zygisk-module/cpp/support/And64InlineHook.cpp:430-472 | such a window leaves the same address and the same registers and memory as the original, but for X17 |
| RelocationCases.PrologueIsRelocated | zygisk-module/cpp/support/And64InlineHook.cpp:452-454 | PACIASP, STP X29, X30, [SP, #-16]! and MOV X29, SP do the same at the new place, and control goes on behind the window |
| RelocationCases.CallIsRelocated | zygisk-module/cpp/support/And64InlineHook.cpp:452-454 | BLR reaches its callee with the return address behind the relocated call |
| RelocationCases.ReturnIsRelocated | zygisk-module/cpp/support/And64InlineHook.cpp:452-454 | back from the callee, LDP X29, X30 and RET leave to the caller with the same registers and memory |
| RelocationCases.JumpIntoWindowIsLost | zygisk-module/cpp/support/And64InlineHook.cpp:452-454 | a computed jump into the window that is no return goes to the overwritten code and not to the copy of its target |
| RelocationWords.BranchTargetIs | zygisk-module/cpp/support/And64InlineHook.cpp:143-145 | the shifted target is that of the architecture |
| RelocationWords.CondTargetIs | zygisk-module/cpp/support/And64InlineHook.cpp:219-222 | the shifted target of a conditional branch is that of the architecture |
| RelocationWords.BranchWord | zygisk-module/cpp/support/And64InlineHook.cpp:170-185 | the written word decodes to a branch by the offset, for offsets in reach |
| RelocationWords.CondWord | zygisk-module/cpp/support/And64InlineHook.cpp:238-250 | the written word decodes to the same condition by the offset, for offsets in reach |
| RelocationInvariant.AllFinished | zygisk-module/cpp/support/And64InlineHook.cpp:88-105 | when the driver returns every recorded forward reference is patched and every block does what its instruction did |
| RelocationLayout.EmissionSize | zygisk-module/cpp/support/And64InlineHook.cpp:306-325 | no instruction takes more than nine words, wherever it is and wherever it goes |
| RelocationInvariant.RelocatedSize | zygisk-module/cpp/support/And64InlineHook.cpp:444-472 | the words for any window are at most eight for each instruction and four for the jump back, and one more if the slot starts at an odd word |
| RelocationLimits.SizeIsReached | zygisk-module/cpp/support/And64InlineHook.cpp:306-325 | windows of copied 128-bit literals take exactly as many words as the bound says |
| RelocationLimits.LoadTargetIsRight | zygisk-module/cpp/support/And64InlineHook.cpp:302 | the target of a literal load is the architecture's exactly for displacements that are not negative |
| RelocationLiterals.CopiedLoad | zygisk-module/cpp/support/And64InlineHook.cpp:306-319 | a load whose literal is copied reads the copy in the same way into the same register, and a branch leads over the copy, which is aligned and at least as long as the literal |
| RelocationLiterals.CopiedExactly | zygisk-module/cpp/support/And64InlineHook.cpp:301-306 | a literal is copied exactly if it lies in the window or at least 1 MiB less its own length away |
| RelocationLiterals.MovedLoad | zygisk-module/cpp/support/And64InlineHook.cpp:320-329 | a load that is moved reads at the right offset; it stays the same load exactly if the offset is not negative or the bits of the top byte that a negative one sets are set already |
| RelocationLimits.AdrTargetIsRight | zygisk-module/cpp/support/And64InlineHook.cpp:358 | the target of ADR is the architecture's exactly for displacements that are not negative |
| RelocationLiterals.NearAdr | zygisk-module/cpp/support/And64InlineHook.cpp:359-384 | ADR of an address in reach points there; its register stays the same exactly if the two low bits of the offset change nothing in it |
| RelocationLiterals.InsideAdr | zygisk-module/cpp/support/And64InlineHook.cpp:365-384 | ADR of an address in the window waits for its target and points into the copy as far as into the original |
| RelocationLiterals.AddressLiteral | zygisk-module/cpp/support/And64InlineHook.cpp:360-374 | a far address is loaded into the same register from an aligned literal behind a branch |
| RelocationLiterals.Adrp | zygisk-module/cpp/support/And64InlineHook.cpp:388-423 | a far page is loaded as an address; a page of the window is left as it is, which is right exactly if the new place is in the page of the old one |
| RelocationLiterals.AdrpTargetIsRight | zygisk-module/cpp/support/And64InlineHook.cpp:391-395 | the target of ADRP is the architecture's exactly for displacements that are not negative |
| RelocationLimits.BackwardAdrGoesWrong | zygisk-module/cpp/support/And64InlineHook.cpp:358 | an ADR of -4 is relocated to an address 4 GiB too high |
| RelocationLimits.BackwardLoadGoesWrong | zygisk-module/cpp/support/And64InlineHook.cpp:302 | a load of the word before it copies a word from 4 GiB higher up |
| InlineHook.Context.InsertFixMap | zygisk-module/cpp/support/And64InlineHook.cpp:88-98 | a reference is recorded in the first free place of its row, and a full row stays as it is |
| InlineHook.RowHasRoom | zygisk-module/cpp/support/And64InlineHook.cpp:40-41 | no row is ever full when a reference is recorded |
| InlineHook.Context.ProcessFixMap | zygisk-module/cpp/support/And64InlineHook.cpp:99-105 | exactly the recorded words are patched, and the record is empty again |
| InlineHook.FixBranchImm | zygisk-module/cpp/support/And64InlineHook.cpp:129-190 | writes what the model emits for B and BL, and nothing for other words |
| InlineHook.FixCondCompTestBranch | zygisk-module/cpp/support/And64InlineHook.cpp:194-254 | writes what the model emits for conditional branches, and nothing for other words |
| InlineHook.FixLoadLit | zygisk-module/cpp/support/And64InlineHook.cpp:258-333 | writes what the model emits for literal loads, and nothing for other words |
| InlineHook.FixPcRelAddr | zygisk-module/cpp/support/And64InlineHook.cpp:337-426 | writes what the model emits for ADR and ADRP, and nothing for other words |
| InlineHook.FixInstructions | zygisk-module/cpp/support/And64InlineHook.cpp:430-472 | the slot holds exactly the relocated code |
| SymbolTables.SysvHashIsGabi | zygisk-module/cpp/support/xdl/xdl.c:556-566 | the branch-free hash is the one of the System V gABI |
| SymbolTables.FoldIsGabi | zygisk-module/cpp/support/xdl/xdl.c:561-563 | one fold is that of the gABI and clears the top four bits |
| SymbolTables.GnuStepIsTimes33 | zygisk-module/cpp/support/xdl/xdl.c:571-573 | one step is the hash times 33 and the next byte, modulo 2 to the 32 |
| SymbolTables.FiledMeans | zygisk-module/cpp/support/xdl/xdl.c:590-623 | what a well-formed table has for each symbol, bit by bit: two bits of one 64-bit filter word, the upper 31 bits of the hash in the chain, and clear lowest bits on the way to it |
| SymbolTables.ComputeGnuHash | zygisk-module/cpp/support/xdl/xdl.c:568-575 | the loop computes the GNU hash of every name |
| SymbolTables.ComputeSysvHash | zygisk-module/cpp/support/xdl/xdl.c:556-566 | the loop computes the SysV hash of every name |
| SymbolLookup.FindByGnuHash | zygisk-module/cpp/support/xdl/xdl.c:590-623 | over every well-formed table the lookup ends and gives exactly what the plain scan gives |
| SymbolLookup.BloomNeverRejects | zygisk-module/cpp/support/xdl/xdl.c:593-599 | the filter never rejects the name of a symbol |
| SymbolLookup.FindBySysvHash | zygisk-module/cpp/support/xdl/xdl.c:577-588 | over every well-formed table the lookup ends, and succeeds with the asked name exactly when a symbol has it |
| SymbolLookup.TablesAgree | zygisk-module/cpp/support/xdl/xdl.c:577-623 | a name that the GNU table has, the SysV table has as well |
| SymbolLookup.ResolvesExports | zygisk-module/cpp/support/xdl/xdl.c:637-648 | with a GNU table of exactly the exported symbols, or with a SysV table and unique names, a name resolves exactly when an exported symbol has it, and to a symbol of that name |
| SymbolLookup.ResolvedIs | zygisk-module/cpp/support/xdl/xdl.c:625-652 | the whole answer: nothing without the tables; else the first symbol of the name that the GNU table holds decides, and if there is none some symbol of the name in the SysV table; a symbol of section 0 is none |
| SymbolLookup.Handle.Sym | zygisk-module/cpp/support/xdl/xdl.c:625-652 | the tables are loaded once, and the answer is the address and size of the resolved symbol |
| AccountDigest.Digest | zygisk-module/cpp/session_identity.h:9-36 | for 1 to 512 bytes the digits of the SHA-256 hash of FIPS 180-4, with the constants that Sha256Constants derives; for any other id nothing |
| Sha256Constants.FirstPrimes | zygisk-module/cpp/session_identity.h:11-20 | the list of primes starts with 2 and every entry is followed by the next prime |
| Sha256Constants.ConstantsAreCubeRoots | zygisk-module/cpp/session_identity.h:11-19 | the round constants are the first 32 bits of the fractional parts of the cube roots of the first 64 primes |
| Sha256Constants.InitialIsSquareRoots | zygisk-module/cpp/session_identity.h:20 | the initial hash value is that of the square roots of the first eight primes |
| Sha256Example.DigestOfAbc | zygisk-module/cpp/session_identity.h:9-36 | the hash of abc, worked out through all rounds, is the one that FIPS 180-4 gives |
| AccountDigest.Pad | zygisk-module/cpp/session_identity.h:21-23 | the grown bytes are the padded message of section 5.1.1 |
| AccountDigest.FillSchedule | zygisk-module/cpp/session_identity.h:26-28 | the array holds the message schedule of the block |
| AccountDigest.RoundInPlace | zygisk-module/cpp/session_identity.h:30-32 | rotating the array and replacing two words is one round of section 6.2.2 |
| AccountDigest.CompressBlock | zygisk-module/cpp/session_identity.h:25-34 | one block updates the hash value as in section 6.2.2 |
| AccountDigest.HexIsAccount | zygisk-module/cpp/route_policy.h:15 | the output is 64 lowercase digits that a route lease accepts, and decodes to the eight words |
| AccountDigest.HexIsInjective | zygisk-module/cpp/session_identity.h:35 | different hash values have different digits |
| Sha256.PaddingIsInjective | zygisk-module/cpp/session_identity.h:21-23 | two messages with the same padded form are the same |
| Sha256.LengthFits | zygisk-module/cpp/session_identity.h:21-23 | the length of a message fits into the padding exactly below 2 to the 61 bytes |
| ReturnBatch.ReturnScheduler.MaybeDispatchBatch | zygisk-module/cpp/nectar_rpc.cpp:3430-3519 | one call computes the model, whose claims ReturnClaims.TickClaims spells out |
| ReturnBatch.ReturnScheduler.MaybeDispatchOne | zygisk-module/cpp/nectar_rpc.cpp:3383-3428 | one call computes the model, whose claims ReturnClaims.TickClaims spells out |
| ReturnClaims.TickClaims | zygisk-module/cpp/nectar_rpc.cpp:3401-3511 | told from the list: a tick claims if and only if a claimer is due and some task has returned; the claim is that of the first returned task; the new state, the limit for each mode and control value and the timeout are spelled out |
| ReturnBatch.IsComplete | zygisk-module/cpp/nectar_rpc.cpp:1764-1775 | a list is complete exactly when every entry has a task, an id and a proto |
| ReturnBatch.ListContains | zygisk-module/cpp/nectar_rpc.cpp:3466 | whether the list has a task of the id |
| ReturnBatch.NextAfterMissing | zygisk-module/cpp/nectar_rpc.cpp:3465-3483 | in one session a claim is followed by another only after a complete list did not have its id any more |
| ReturnBatch.AtMostFive | zygisk-module/cpp/nectar_rpc.cpp:3484-3491 | from entering batch mode to leaving it at most five claims are made |
| ReturnBatch.AtMostOneSingle | zygisk-module/cpp/nectar_rpc.cpp:3402-3414 | the single-claim mode claims at most once in the life of the process |
| ReturnBatch.SingleConfirmedWhenMissing | zygisk-module/cpp/nectar_rpc.cpp:3392-3401 | while no automatic mode was read since the single claim, it is confirmed exactly when a complete list misses its id |
| ReturnBatch.AutomaticForgetsSingle | zygisk-module/cpp/nectar_rpc.cpp:3447-3455 | an automatic mode forgets the single claim: the next list has to miss only what that mode has just claimed, or nothing |
| ReturnBatch.SingleConfirmedTooEarly | zygisk-module/cpp/nectar_rpc.cpp:3392-3401 | one, batch, one: the single claim is confirmed although its task is still listed |

## Left out

- RelocationTheorem.RelocationSimulates: the source does not preserve the meaning of literal loads, ADR and ADRP for every displacement, so runs through them are left out; what their copies do, and exactly when that is right, is said by `RelocationLiterals` and `RelocationLimits`. Nothing is said about a run that reads X17, that stores or changes the return address of a call in the same window, or that jumps into the window other than by a return.
- DispatchGates.StartsLieInOneEpoch: a selection may survive a switch between the nearby and the route gate if their epochs happen to be equal, so nothing is said about resets when the route flag changed in between.
- PlanterEngine.Planter.Capture: one flag says whether any managed call of a capture failed, without saying which; a partial snapshot is not modelled because nothing uses it.
- PlanterEngine.Planter.StartAction: an id that contains a zero character is cut short when the request is built, which the model does not show.
- ReturnBatch.ReturnScheduler.MaybeReturnTasks: the mode file is read once per tick, where the two claimers of the source each read it.
- IL2CPP metadata, GC handles, hook installation, page protection and cache flushing: foreign calls, whose results are arbitrary inputs.
- Status, history, diagnostics and candidate files, logging, and reward descriptions: output that no decision reads.
- The haversine formula and floating-point rounding: distances are real numbers; coordinates that are not finite count as invalid fixes.
- Wrap-around of 64-bit times, epochs and counters.
- Reading the settings files, the arrival gate file of a batch target, and parsing a route lease: their results are inputs.
- Loading ELF files, `.symtab` lookup and lookup by address in `xdl.c`; a shift of the GNU filter by 32 bits or more, which C does not define.
- Planting start and stop, feeding, flower claims and reward clicks: single expressions over one call.
- Threads and mutexes around the session identity: the update thread is one sequence of steps.
