# PI Cloud: metering, continuation, quota and dispatch

This project models the stateful cores of PI Cloud that decide what is charged, what is
kept and what is done only once, and proves what they keep over every run.

- **Resource metering** (`ResourceTypes`, `ResourceJournal`, `ResourcePricing`, `ResourceLedger`,
  `MeteringPipeline`, `MeteringHistory`). A source observes resources, keeps one durable cursor
  each, and writes receipts to a bounded outbox. Receipts reach the accounting service at least
  once; its ledger refuses overlaps and values each receipt from the rates in force. The pipeline
  composes both ends with captures, failed captures, restarts, lost acknowledgements and duplicate
  posts in any order. The one assumption on callers, `MeteringPipeline.Continues`, is exact: a capture
  meets it if and only if no continuation gets a receipt stuck (`MeteringHistory.AssumptionIsExact`).
- **Workspace quota** (`WorkspaceQuota`, `QuotaPool`, `QuotaLineage`, `QuotaDelivery`, `QuotaManager`). A saga over the manager's
  records, the kernel's project quotas and a marker on disk. Every durable effect is a step of its
  own; the process may die between any two, and operations on different volumes interleave. The
  metering journal is the one of `ResourceJournal`; `QuotaLineage` shows that the manager's own samples
  meet the assumption of the metering pipeline when no metered volume comes back after its record was
  collected, and `QuotaDelivery` runs the manager and the whole delivery of its receipts together. Class `Manager` performs the operations in
  place, cut wherever its list of effects ends, and leaves exactly what the steps leave.
- **Model continuation cache** (`ContinuationCache`). Incremental model
  requests, their fallbacks, eviction, timers and upload reservations, against a provider that
  keeps the context of finished responses.
- **Model usage** (`UsageJournal`, `UsageCapture`, with `Totals` for sums over maps). Admission
  against a watermark, crash recovery, and the terminal receipt that waits for every producer.
- **Control-tool dispatcher** (`ControlDispatcher`). Owners of log partitions, fenced offset
  commits, recovery, retries of replies, and handlers that must not run twice.
- **Android executor** (`AndroidExecutor`). Generation and position fencing for one device.

In each module functions say what an operation does to a value of the state, classes perform the
operations in place with contracts that equate the new state with those functions, and lemmas over
`Run` say what holds after every sequence of steps.

Results where the code falls short of the obvious statement, with the exact condition:

- `ResourceLedger.ZeroLengthReceiptAtTheClock`: a receipt of length zero keeps its price under later
  rates if and only if a version of each kind already starts at that instant (receipts of positive
  length always keep theirs).
- `UsageJournal.OpensExactly` and `ReadmissionCanKeepItShut`: the usage journal opens after a crash
  if and only if no interruption it must report contradicts a stored receipt; an invocation that is
  admitted again after a crash and dies again before delivery keeps the journal shut.
- `MeteringHistory.AssumptionIsExact`: the pipeline promises delivery if and only if a capture that
  creates a cursor for a resource with earlier receipts names their owner and, unless it reports the
  resource absent, does not lie before a charged time.

## Model

| member | source | states |
|---|---|---|
| MeteringPipeline.NothingRefusedLostOrChargedTwice | deploy/resource-metering/journal.go:149-396 | After any run: a delivered batch is never refused, its acknowledgement always succeeds, every receipt is in the outbox or the ledger, the ledger holds nothing else, charges of one resource are emitted in time order under one owner, and no instant is charged by two receipts |
| MeteringPipeline.DeliveryIsAccepted | packages/accounting/src/resource-metering-service.ts:41-131 | Whatever batch the journal ever read is ingested without an overlap or identity conflict, however late or often it is posted |
| MeteringPipeline.AcknowledgementMatches | deploy/resource-metering/journal.go:352-396 | The rows of an accepted batch still match the outbox under their keys, so sequence keys are never reused |
| MeteringPipeline.StepKeepsDelivers | deploy/resource-metering/delivery.go:17-52 | Each step, lost acknowledgements and duplicate posts included, keeps the invariant of journal, outbox and ledger together |
| MeteringHistory.ConfirmedReceiptsAreSound | deploy/resource-metering/journal.go:161-257 | A confirmed receipt of positive length has the same boot at both ends, no failed capture between them, at most one second of drift, and one of the three shapes |
| MeteringHistory.ChargedIffWarranted | deploy/resource-metering/journal.go:161-257 | After any run, a capture that nothing hinders charges an interval if and only if the cursor is of this boot, the latest attempt succeeded, the clocks agree to the second, the sample is undoubted, and the interval is running time between two samples at most 90 s apart, up to a reported end, or since a reported resume; then exactly one confirmed receipt is appended, with that interval and the sampled quantity, state and incarnation |
| MeteringHistory.StopsAreReported | deploy/resource-metering/journal.go:255-303 | A live cursor's change to paused or absent always emits a receipt, ending at the reported end |
| MeteringHistory.LostStartsAreReported | deploy/resource-metering/journal.go:196-218 | A first sample always emits: unconfirmed from where coverage was lost, or a confirmed instant when none was |
| MeteringHistory.TimeIsConserved | deploy/resource-metering/journal.go:196-303 | After any run the cursor's advance since its first capture equals the total length of the receipts emitted for its resource since then plus uncovered time; receipts and gaps tile it, and each gap is idleness, the time before a verified resume or after a reported end |
| MeteringHistory.AssumptionIsExact | deploy/resource-metering/journal.go:375-391 | A possible capture meets the assumption on re-observation if and only if no continuation of the run leaves a receipt that every ledger refuses |
| MeteringHistory.ReobservationWedges | deploy/resource-metering/journal.go:149-321 | Against the assumption there is a continuation, through a full outbox if need be, after which a receipt is stuck for ever |
| ResourceJournal.ReceiptWithinCursorMove | deploy/resource-metering/journal.go:196-260 | A receipt lies between the old and the new cursor, the cursor never moves back, and a first observation charges nothing |
| ResourceJournal.ChargeShape | deploy/resource-metering/journal.go:219-257 | What the states, incarnations, quantities and times must be for a capture to emit a charge |
| ResourceJournal.LapsesAreReported | deploy/resource-metering/journal.go:219-253 | Doubt, a restart, a replaced instance, a changed quantity or too long an interval is reported over the whole advance, with the first of these as the reason |
| ResourceJournal.UncoveredTime | deploy/resource-metering/journal.go:230-303 | Exactly which part of a cursor's advance a capture leaves without a receipt |
| ResourceJournal.CaptureKeepsInvariant | deploy/resource-metering/journal.go:304-319 | The counter equals the outbox, keys ascend below the sequence, a live cursor of this boot has its observation, and the invalid counter is never met |
| ResourceJournal.Journal.New | deploy/resource-metering/journal.go:96-124 | Opens a store unless it has no source name, is not synchronous, or has receipts without a counter; a new store gets a counter of zero |
| ResourceJournal.Journal.CaptureAndUpdate | deploy/resource-metering/journal.go:149-321 | The capture commits with the caller's update or changes nothing but the failed observation, as the interval automaton says; `MeteringHistory.ChargedIffWarranted` says what that charges |
| ResourceJournal.Journal.Batch | deploy/resource-metering/journal.go:328-339 | The oldest rows, up to the limit |
| ResourceJournal.Journal.Acknowledge | deploy/resource-metering/journal.go:352-396 | Deletes the given rows or refuses without a change; the underflow branch is not reached; absent cursors go when the outbox is empty |
| ResourceJournal.Journal.Deliver | deploy/resource-metering/delivery.go:17-52 | Rows leave the outbox only when the receiver confirmed exactly as many as were sent; any other answer is an error that changes nothing |
| ResourceLedger.IngestExact | packages/accounting/src/resource-metering-service.ts:41-131 | A batch is accepted if and only if it agrees with the ledger and with itself; then the ledger gains exactly its receipts and keeps its invariant |
| ResourceLedger.StoredAtFullPrice | packages/accounting/src/resource-metering-service.ts:86-101 | The stored valuation of a confirmed receipt is the one under all versions of its tenant and kind, each amount from the latest version of its own price kind; an unconfirmed receipt is withheld whole, with its reason |
| ResourceLedger.OrderIsIrrelevant | packages/accounting/src/resource-metering-service.ts:33-40 | The order in which a batch is locked and inserted changes neither the verdict nor the ledger |
| ResourceLedger.ReingestIsIdentity | packages/accounting/src/resource-metering-service.ts:41-131 | An accepted batch is accepted again and leaves the ledger identical |
| ResourceLedger.LedgerIsStable | packages/accounting/src/resource-metering-service.ts:41-131 | Over any calls, accepted or refused, a stored receipt and its valuation never change and charged intervals stay disjoint |
| ResourceLedger.AcceptedBatchesStayAccepted | packages/accounting/src/resource-metering-service.ts:41-131 | What was accepted once is accepted after any later calls, as an identity |
| ResourceLedger.DelayNeverChangesPrice | packages/accounting/src/resource-metering-service.ts:86-175 | A confirmed receipt of positive length that ended by the database clock is valued the same after any later rates |
| ResourceLedger.ZeroLengthReceiptAtTheClock | packages/accounting/src/resource-metering-service.ts:134-175 | For a receipt of length zero at the clock this holds if and only if both kinds have a version starting there |
| ResourceLedger.ResourceMeteringService.Ingest | packages/accounting/src/resource-metering-service.ts:29-132 | Succeeds exactly for a well-formed admissible batch, records it, and otherwise changes nothing |
| ResourceLedger.ResourceMeteringService.NewVersion | packages/accounting/src/resource-metering-service.ts:134-176 | Adds a version, returns the stored equal one, or refuses one that is late or contradicts a slot |
| ResourcePricing.MicroExact | packages/accounting/src/resource-pricing.ts:8-12 | The price in millionths is the written decimal, without loss |
| ResourcePricing.CoreHour | packages/accounting/src/resource-pricing.ts:13-47 | A core for an hour costs its hourly price |
| ResourcePricing.MemoryHour | packages/accounting/src/resource-pricing.ts:13-47 | A GiB of memory for an hour costs its hourly price |
| ResourcePricing.VolumeHour | packages/accounting/src/resource-pricing.ts:13-47 | A GiB of volume for an hour costs its hourly price |
| ResourcePricing.PartsAddUp | packages/accounting/src/resource-pricing.ts:26-33 | A compute price is the price of its cores and the price of its memory, but for one pico of rounding |
| ResourcePricing.QuantityScales | packages/accounting/src/resource-pricing.ts:13-47 | k times the quantity costs k times as much, but for less than one pico each |
| ResourcePricing.SegmentsArePricedByKind | packages/accounting/src/resource-pricing.ts:49-76 | A segment's customer amount comes from the latest customer rate, its estimate from the latest upstream rate, with that rate's identifier and currency |
| ResourcePricing.CuttingLosesUnderOnePicoPerCut | packages/accounting/src/resource-pricing.ts:13-47 | Cutting an interval into n pieces never costs more and loses at most n - 1 pico, for both formulas |
| ResourcePricing.LongerCostsNoLess | packages/accounting/src/resource-pricing.ts:13-47 | The price is monotone in the duration |
| ResourcePricing.ValuationTiles | packages/accounting/src/resource-pricing.ts:49-76 | Segments tile the receipt, contain no rate change, and use the versions in force at their start |
| ResourcePricing.PrefilterIsExact | packages/accounting/src/resource-metering-service.ts:86-101 | The two prefiltered queries value a receipt as the whole rate table would |
| WorkspaceQuota.AdvanceKeepsSound | deploy/workspace-quota/manager.go:473-587 | Every single effect, wherever the process dies afterwards, leaves record, kernel limit and marker explaining one another |
| WorkspaceQuota.AdmittedIffAdmissible | deploy/workspace-quota/manager.go:483-502 | A request is admitted if and only if its capacity is whole blocks within the pool, its revision is in range, its volume is at hand, and it is the first, a later revision that does not shrink the volume, or the same one again |
| WorkspaceQuota.ReleaseSurvivesCrashes | deploy/workspace-quota/manager.go:678-735 | A release that was cut anywhere and forgotten is admitted again and reaches Released |
| WorkspaceQuota.ReleaseIsNeverUnconfirmed | deploy/workspace-quota/manager.go:715-726 | The unconfirmed-identity error is never reached from the manager's own effects |
| WorkspaceQuota.EnsureSurvivesCrashes | deploy/workspace-quota/manager.go:473-587 | Every admissible request on a prepared volume, cut anywhere and forgotten, is admitted again and, not cut short, brings the volume to ready with the requested capacity and revision; growth is one such request |
| WorkspaceQuota.ReadyMeansEnforced | deploy/workspace-quota/manager.go:600-635 | A reader is told ready if and only if the record is applied, its marker and an equal kernel limit are in place; then both trees belong to the project as well |
| QuotaPool.ReadyIsEnforced | deploy/workspace-quota/manager.go:600-635 | At every moment of every run a ready answer means marker, applied record, equal kernel limit and both trees under the project |
| WorkspaceQuota.LimitShrinksOnlyInRelease | deploy/workspace-quota/manager.go:706-714 | A limit is lowered only to zero, by a recorded release of a project without inodes |
| WorkspaceQuota.AssignmentIsLimited | deploy/workspace-quota/manager.go:527-571 | A tree is assigned and a marker written only while the project has a limit |
| QuotaPool.LimitsAreSafe | deploy/workspace-quota/manager.go:473-735 | After any interleaving with crashes: limits within accepted capacities, no inode without a limit, projects nonzero, in range and distinct, no release refused as unconfirmed |
| QuotaPool.AcceptedOnlyGrowsOverRuns | deploy/workspace-quota/manager.go:493-533 | While a record lives, its revision and capacity never decrease and its limit never shrinks before a recorded release |
| QuotaPool.ProjectsAreNeverReused | deploy/workspace-quota/manager.go:250-260 | A spent project identifier that is out of use is never in use again, even after its record was collected |
| QuotaPool.OneTerminalReceiptPerRecord | deploy/workspace-quota/manager.go:870-893 | After any run, among all receipts ever committed, a closed record has exactly one absent receipt, of its resource and released capacity, an open record has none, and no project has two |
| QuotaPool.CollectionFollowsAcknowledgement | deploy/workspace-quota/manager.go:910-973 | A record being deleted was released and closed, its limit is clear, its one absent receipt was acknowledged, and no receipt of its resource still waits |
| QuotaPool.RecordsGoOnlyWhenAcknowledged | deploy/workspace-quota/manager.go:910-973 | A record leaves the pool only closed, with a clear limit and with its absent receipt acknowledged |
| QuotaLineage.EverySampleContinues | deploy/workspace-quota/manager.go:737-756 | Unless a metered volume comes back under its generation after its record was collected, every sample the manager takes meets the assumption of the metering pipeline |
| QuotaLineage.OneTerminalReceiptPerResource | deploy/workspace-quota/manager.go:870-893 | Under the same condition no resource is ever reported absent twice, whatever records it had |
| QuotaDelivery.ManagerIsDelivered | deploy/workspace-quota/manager.go:737-973 | Under the same condition, over every run of the manager with its deliveries, crashes and lost acknowledgements, no batch is refused, every receipt is pending or in the ledger, and a record being deleted has its one absent receipt in the ledger |
| QuotaDelivery.StepKeepsJoined | deploy/resource-metering/delivery.go:17-52 | Each step of the manager is a step that the metering pipeline allows, on the same journal and with the same receipts |
| QuotaPool.TerminalCoverageIsKnown | deploy/workspace-quota/manager.go:870-873 | The closing transaction is never refused for unknown terminal coverage |
| QuotaPool.StepKeepsSound | deploy/workspace-quota/manager.go:462-973 | Every step of any volume, a crash or the environment keeps the invariant of all volumes and the journal |
| QuotaManager.Manager.Ensure | deploy/workspace-quota/manager.go:473-587 | Leaves what the steps of an ensure leave up to the cut; not cut short, it answers ready if and only if the request is admitted and a reader then reads ready with the requested capacity and revision, and it does so for every admissible request on a prepared volume |
| QuotaManager.AdmissibleIsFulfilled | deploy/workspace-quota/manager.go:483-587 | In a sound pool an admissible request on a prepared volume, with an identifier left, makes the volume read ready as requested unless it is cut short |
| QuotaManager.OperatedIsDriven | deploy/workspace-quota/manager.go:473-735 | What the pool does to one volume under an operation is what the volume's own effects do |
| QuotaManager.Manager.Release | deploy/workspace-quota/manager.go:678-735 | Leaves what the steps of a release leave up to the cut; admitted if and only if the directory is gone and the unreleased record of that identity has no usage, and then, not cut short, the record is released without any quota |
| QuotaManager.Manager.CloseMetering | deploy/workspace-quota/manager.go:870-893 | Terminal receipt and closed flag are committed together or not at all |
| QuotaManager.Manager.Capture | deploy/workspace-quota/manager.go:737-756 | Samples the kernel's limit as retained, or the accepted capacity as unknown |
| QuotaManager.Manager.Sample | deploy/workspace-quota/manager.go:788-839 | One volume's turn: closes, or adopts a completed application and observes |
| QuotaManager.ReadyIsRetained | deploy/workspace-quota/manager.go:737-756 | A volume that reads ready is metered as retained, with the capacity that a reader is told |
| QuotaManager.UnreadyIsUnknown | deploy/workspace-quota/manager.go:737-756 | An applied volume that does not read ready is metered as unknown, at its accepted capacity |
| QuotaManager.CompletedIsAdopted | deploy/workspace-quota/manager.go:756-787 | An application that was completed but not recorded is adopted by the sampler: the volume reads ready and no limit was set |
| QuotaManager.ReleasedIsClosed | deploy/workspace-quota/manager.go:870-893 | A released record is closed in its turn when nothing hinders the journal, and then has exactly one terminal receipt |
| QuotaManager.Manager.Adopt | deploy/workspace-quota/manager.go:759-787 | Marks the record applied only when the marker is its own and the limit equals its capacity |
| QuotaManager.Manager.Read | deploy/workspace-quota/manager.go:600-635 | The snapshot or the refusal for one volume |
| QuotaManager.Manager.Collect | deploy/workspace-quota/manager.go:910-973 | Deletes one record exactly when nothing waits, it is closed and its project is clear |
| ContinuationCache.EverySendMeansTheFullRequest | deploy/provider-gateway/model_sessions.go:412-499 | After any run, whatever any handler is about to send means to the provider exactly the parameters and items of the full request |
| ContinuationCache.PayloadMeansTheRequest | deploy/provider-gateway/model_sessions.go:251-280 | A cached prefix with the sent suffix is the full request, and a prefix is used if and only if it extends |
| ContinuationCache.TurnKeepsBacked | deploy/provider-gateway/model_sessions.go:426-499 | Through success, missing context, transport fallback and failure a response id names a context that holds exactly the cached digests |
| ContinuationCache.ResourcesAreBounded | deploy/provider-gateway/model_sessions.go:75-161 | After any run: entries within the maximum, one handler per busy session, every upstream session closed or cached, reserved bytes equal to live reservations and within the limit, no handler out of attempts |
| ContinuationCache.OthersLeaveHeldSession | deploy/provider-gateway/model_sessions.go:75-151 | A session in use is not evicted, timed out or changed by anyone but its handler |
| ContinuationCache.RequestEnds | deploy/provider-gateway/model_sessions.go:426-499 | Three attempts settle every request inside the loop; each fallback is taken at most once |
| ContinuationCache.ConversationContinues | deploy/provider-gateway/model_sessions.go:251-280 | After a completed response the session stays cached and idle, is what the client gets back while it is usable, and a request that extends the conversation sends only the items after that response |
| ContinuationCache.TransportFailureFallsBack | deploy/provider-gateway/model_sessions.go:478-491 | A connection that fails before output is replaced by plain HTTP for five minutes, with the whole input |
| ContinuationCache.MissingContextIsResent | deploy/provider-gateway/model_sessions.go:467-476 | A forgotten context is replaced by the whole input under a new upstream session |
| ContinuationCache.OtherFailuresEnd | deploy/provider-gateway/model_sessions.go:464-498 | Any other failure, and any failure after output, ends the request |
| ContinuationCache.AcquireIsExact | deploy/provider-gateway/model_sessions.go:75-107 | A client is refused only while its own session is busy, or while all others are busy and fill the cache; a usable session is returned, a new one evicts at most the longest idle one |
| ContinuationCache.NothingIsLeftBehind | deploy/provider-gateway/model_sessions.go:121-161 | Without handlers nothing is reserved and every session is idle |
| ContinuationCache.Fingerprints | deploy/provider-gateway/model_sessions.go:241-249 | The digest of every item in order, or none when one item has no digest |
| ContinuationCache.ModelSession.BuildPayload | deploy/provider-gateway/model_sessions.go:251-280 | The suffix with the response id if the request extends the session, else all of it |
| ContinuationCache.ModelSessions.Acquire | deploy/provider-gateway/model_sessions.go:75-107 | Reuses, replaces or creates a session, evicting the least recently used idle one, or refuses |
| ContinuationCache.ModelSessions.RemoveLocked | deploy/provider-gateway/model_sessions.go:109-119 | Removes and closes the session only if it is the cached object |
| ContinuationCache.ModelSessions.Finish | deploy/provider-gateway/model_sessions.go:121-151 | Frees the session, drops it, or keeps only its transport preference under a new upstream session |
| ContinuationCache.ModelSessions.Expire | deploy/provider-gateway/model_sessions.go:142-150 | A timer removes only the cached object, idle and expired |
| ContinuationCache.ModelSessions.Reserve | deploy/provider-gateway/model_sessions.go:153-161 | Reserves unless a positive amount would exceed the limit |
| ContinuationCache.ModelSessions.Respond | deploy/provider-gateway/model_sessions.go:405-502 | The retry loop in place sends and leaves what the loop of the model sends and leaves |
| UsageJournal.WatermarkHolds | deploy/provider-gateway/metering_journal.go:90-190 | Over any run the stored size is that of the receipts, and exceeds the capacity at most by what was reported beyond a reservation or outside an admission |
| UsageJournal.KeysDiffer | deploy/provider-gateway/metering_journal.go:97-103 | Receipts have the same key if and only if they agree in invocation, kind and execution, for identifiers of which neither continues the other after a colon |
| UsageJournal.IdentifiersAreApart | deploy/provider-gateway/metering.go:86-90 | Any two UUIDs, in whichever of their text forms, are such identifiers |
| UsageJournal.AdmittedIff | deploy/provider-gateway/metering_journal.go:125-144 | An invocation is admitted if and only if it is not active, all reservations fit beside what is stored, and its start fits and contradicts no receipt |
| UsageJournal.StepKeepsCovered | deploy/provider-gateway/metering_journal.go:125-155 | Each admission, report, reopening and acknowledgement keeps stored bytes plus remaining reservations within capacity plus excess |
| UsageJournal.OpensExactly | deploy/provider-gateway/metering_journal.go:59-83 | The journal opens if and only if every interruption fits and contradicts no stored receipt |
| UsageJournal.RecoverFacts | deploy/provider-gateway/metering_journal.go:59-83 | Opening reports every active invocation, keeps every receipt and leaves none active |
| UsageJournal.ReadmissionCanKeepItShut | deploy/provider-gateway/metering_journal.go:59-83 | A concrete run after which the journal cannot be opened |
| UsageJournal.AcknowledgeFacts | deploy/provider-gateway/metering_journal.go:170-190 | Exactly the given receipts go, and the size follows |
| UsageJournal.Journal.AdmitInvocation | deploy/provider-gateway/metering_journal.go:125-144 | Admits below the watermark and journals the start, or changes nothing |
| UsageJournal.Journal.AppendEvent | deploy/provider-gateway/metering_journal.go:145-155 | Stores a receipt under the key that `KeysDiffer` shows to be its own, ends the invocation with its terminal one, or changes nothing |
| UsageJournal.Journal.Open | deploy/provider-gateway/metering_journal.go:59-83 | Recovers in one transaction or changes nothing |
| UsageJournal.Journal.ReadBatch | deploy/provider-gateway/metering_journal.go:159-169 | Distinct stored receipts, as many as there are up to the limit |
| UsageJournal.Journal.AcknowledgeBatch | deploy/provider-gateway/metering_journal.go:170-190 | Deletes the batch or, on a changed receipt, nothing |
| UsageCapture.EveryAdmissionIsAttributable | deploy/provider-gateway/metering.go:257-351 | After any run every admission is active or was answered later by a terminal receipt, every receipt is stored or delivered, and the terminal receipt of a request is its last in every process without a failure, present or past |
| UsageCapture.EvidenceIsComplete | deploy/provider-gateway/metering.go:176-203 | Nothing stored, nothing active and no failure mean that every admission's terminal receipt was delivered and every request has had its last word |
| UsageCapture.NewReceiptIsStored | deploy/provider-gateway/metering.go:318-351 | After any run, a receipt whose invocation, kind and execution were not journaled before is stored beside all others and counts no failure, if it fits and the disk takes it |
| UsageCapture.FirstFinishSettles | deploy/provider-gateway/metering.go:257-290 | After any run, the first terminal receipt of a request without producers settles it and ends its admission, if it fits and the disk takes it |
| UsageCapture.NewRequestIsAdmitted | deploy/provider-gateway/metering_journal.go:125-144 | After any run, a request not started before is admitted if and only if it is not active and its reservation fits beside the others and what is stored |
| UsageCapture.CapacityHolds | deploy/provider-gateway/metering_journal.go:125-155 | Over any run, failed writes included, in which no producer is retained after the settlement without being admitted again, nothing is reported outside an admission, and stored bytes stay within capacity as long as no admission journals more than 32768 bytes |
| UsageCapture.ReportsFallInsideAdmission | deploy/provider-gateway/metering.go:292-351 | While every open capture has its active row, a report is made for an invocation that is active, whatever writes failed before |
| UsageJournal.NextIsTheTransaction | deploy/provider-gateway/metering_journal.go:104-190 | The account of reservations moves with the journal's own transactions |
| UsageCapture.BatchIsAcknowledged | deploy/provider-gateway/metering.go:396-433 | The batch in flight is always acknowledged as it was read |
| UsageCapture.StepKeepsSound | deploy/provider-gateway/metering.go:257-351 | Every request step, crash and delivery keeps the invariant |
| UsageCapture.RequestCapture.Settle | deploy/provider-gateway/metering.go:286-290 | The terminal receipt is written only with no producer held, and retried while it fails |
| UsageCapture.RequestCapture.RetainProducer | deploy/provider-gateway/metering.go:292-316 | A late producer counts as a failure and is admitted again |
| UsageCapture.RequestCapture.RecordReceipt | deploy/provider-gateway/metering.go:318-351 | A producer is held while its receipt is written |
| ControlDispatcher.UnsafeToolsRunAtMostOnce | packages/control-plane/src/control-tool-dispatcher.ts:81-459 | Over any run of any owners the handler of a tool that must not be repeated is invoked at most once, and only after its record's offset was committed |
| ControlDispatcher.NewUnsafeToolsRun | packages/control-plane/src/control-tool-dispatcher.ts:100-118 | After any run, delivering a new record to the holder of its partition, committing it, and starting and loading an invocation that must not be repeated hands it to its handler exactly once |
| ControlDispatcher.ReplayableToolsRun | packages/control-plane/src/control-tool-dispatcher.ts:356-430 | After any run, delivering a replayable invocation to an open owner of its partition, starting it and loading it hands it to its handler once more |
| ControlDispatcher.LoadRunsTheHandler | packages/control-plane/src/control-tool-dispatcher.ts:390-430 | For a current task whose command is found and that has no outcome or reply the handler runs if and only if the entry is not uncertain; an uncertain one is answered as unknown instead |
| ControlDispatcher.HandledIsAnswered | packages/control-plane/src/control-tool-dispatcher.ts:430-459 | A handled command whose reply is encoded and published is forgotten if it may be repeated, else done for good |
| ControlDispatcher.NeverUpgraded | packages/control-plane/src/control-tool-dispatcher.ts:166-189 | An existing entry is never made more permissive, by redelivery, recovery or anything else |
| ControlDispatcher.NewlyArmed | packages/control-plane/src/control-tool-dispatcher.ts:104-116 | An entry becomes armed only by the acknowledgement of the commit of its own record, which was never granted before |
| ControlDispatcher.FiringDisarms | packages/control-plane/src/control-tool-dispatcher.ts:397-459 | An invocation disarms the entry before its handler is awaited |
| ControlDispatcher.StepKeepsExclusive | packages/control-plane/src/control-tool-dispatcher.ts:104-116 | At most one owner can still claim a record for effects, and none once it was granted |
| ControlDispatcher.StepKeepsAtMostOnce | packages/control-plane/src/control-tool-dispatcher.ts:199-255 | Every step, recovery and reassignment included, keeps the invariant |
| ControlDispatcher.ControlToolDispatcher.Admit | packages/control-plane/src/control-tool-dispatcher.ts:100-118 | Remembers a record's references, stops at a changed one, and never replaces an entry |
| ControlDispatcher.ControlToolDispatcher.TryStart | packages/control-plane/src/control-tool-dispatcher.ts:356-389 | Starts an idle, dirty, owned entry below the limit, with permission |
| ControlDispatcher.ControlToolDispatcher.AfterLoad | packages/control-plane/src/control-tool-dispatcher.ts:390-430 | Performs the load of the model in place and says whether the handler runs, which `LoadRunsTheHandler` characterises; an entry that fires was downgraded first |
| ControlDispatcher.ControlToolDispatcher.AfterPublish | packages/control-plane/src/control-tool-dispatcher.ts:430-459 | A published reply ends the entry or leaves it done |
| AndroidExecutor.StartsAreFenced | packages/android-executor/src/execution-manager.ts:58-141 | Over any calls starts have strictly increasing positions, at most one runs, nothing at or before an observed cancel starts, and nothing of a closed generation starts |
| AndroidExecutor.FencesHold | packages/android-executor/src/execution-manager.ts:58-141 | A passed position and a raised fence stay so over every call |
| AndroidExecutor.StartIsBeyond | packages/android-executor/src/execution-manager.ts:82-118 | Whatever starts is beyond every passed position and every fence |
| AndroidExecutor.StartsIff | packages/android-executor/src/execution-manager.ts:82-118 | A command starts if and only if options and catalogue allow it, it is addressed to this executor, nothing runs, and no fence or passed point is in its way |
| AndroidExecutor.RepeatIff | packages/android-executor/src/execution-manager.ts:82-118 | A command is recognised as running if and only if it equals the active one and its binding is still authorised |
| AndroidExecutor.CancelledIff | packages/android-executor/src/execution-manager.ts:120-125 | A cancellation is observed if and only if it is addressed to this executor and not fenced |
| AndroidExecutor.CancelStopsItsOperation | packages/android-executor/src/execution-manager.ts:120-125 | It stops the operation it names and, under the current binding, no other, and passes its position |
| AndroidExecutor.AndroidExecutionManager.Submit | packages/android-executor/src/execution-manager.ts:82-118 | Starts, repeats or refuses a command as the rules say, adopting a newer binding even when it refuses |
| AndroidExecutor.AndroidExecutionManager.Cancel | packages/android-executor/src/execution-manager.ts:120-125 | Moves the position to an observed cancellation and aborts the operation it names |
| AndroidExecutor.AndroidExecutionManager.CloseBinding | packages/android-executor/src/execution-manager.ts:126-140 | Raises the fence of the current generation |

## Left out

- Machine integers: 64-bit wrap-around and the saturation of durations are not modelled; lengths, times and sizes are unbounded, with the limits the code itself checks.
- Identifiers: UUIDs are fresh numbers or strings, SHA-256 digests are equal only for equal content, and a provider does not use a response identifier twice.
- Parsing: JSON shapes, length limits and base64 of requests, contexts and receipts; a price is given already split at its decimal point.
- ResourceLedger.ResourceMeteringService.Ingest: the order of a batch is any permutation rather than the locale's, which `OrderIsIrrelevant` justifies; row locks and the race of two inserts of one receipt are one atomic step.
- ResourceLedger.DelayNeverChangesPrice: takes the creation of a rate as one atomic step, so a clock read long before the commit is not modelled.
- ResourceJournal.Journal.New: takes as given that the store is sound, which every operation keeps, and that no cursor carries the new boot identity.
- QuotaLineage.EverySampleContinues: that a metered volume does not come back under its generation once its record is being or was collected is a promise of the gateway that creates volumes; it is assumed as sufficient, and not shown to be necessary.
- Reads of the clock: several reads inside one uninterrupted operation are one reading; none of the properties needs time to be monotonic.
- Storage iteration: the order of stored keys is an arbitrary order, and deleting absent cursors while iterating is a filter.
- QuotaManager.Manager: every error of the disk, the kernel or a lock is the end of the operation after some effect; file locks are one operation per volume at a time, and removing a lock file is not modelled. The initial project sequence and the checks of the mounted pool are given.
- QuotaManager.Manager.CloseMetering: has no branch for unknown terminal coverage, which `QuotaPool.TerminalCoverageIsKnown` shows unreachable.
- ContinuationCache: provider authentication pinned to a session, response headers, zstd, SSE framing and the bytes streamed to a client are reduced to what an attempt did; an object of the cache is told apart by a serial number in the step machine.
- QuotaManager.Manager.Collect: is one candidate's turn; the scan for candidates and the removal of the lock file are not modelled.
- QuotaManager.Manager.Sample: is one volume's turn; the loop over all volumes that collects their errors, and the time limit of a turn, are not modelled.
- ControlDispatcher.ControlToolDispatcher.TryStart: does not model the limit on the bytes of waiting replies.
- ControlDispatcher.ControlToolDispatcher.AfterPublish: does not model the accounting of reply bytes or the timer that retries a reply.
- ControlDispatcher: timers (`due`), the iteration order of the drain loop and the SQL that loads a command; commands removed by record writes are removal steps of their own.
- AndroidExecutor: the publishing and retry loop of a running operation; it only ends.
- UsageJournal.Journal.ReadBatch: does not say that the receipts read are those with the smallest keys.
- MeteringPipeline.Continues: is the exact assumption as far as owners and overlaps are concerned; the parser also wants quantities of at least one and names of at most 256 characters, which the journal does not check and its callers must provide.
- ControlDispatcher.OneRecordPerKey: is a promise of the publisher that the main theorem rests on, through the start of a run: one invocation is published in one record only.
- UsageCapture: pricing, token arithmetic and the fields of a receipt, which one encoding function stands for.
- HTTP services, Kafka clients, the conversation tree, development environments, the control-plane store, configuration and credentials: their guarantees rest on code and databases outside of these cores, or are simple bookkeeping.
