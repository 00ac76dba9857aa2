# Verified model of the Kurdistan Android bridge

A Dafny 4.11 model of the ownership layer of the Android bridge and of the evidence tools
around it, with proofs over every input, every interleaving and every run. Nothing here is
compiled into the program; `dafny verify dfyconfig.toml` checks the whole project.

| files | model |
|---|---|
| `AttemptState`, `AttemptTransport` | the shared fields of one production attempt transport; every section under its mutex as a function and as a method of the mutable object |
| `AttemptProtocol`, `AttemptInvariants`, `AttemptWakeup`, `AttemptTheorems`, `AttemptVerdicts`, `AttemptConnection`, `AttemptRetirement` | the step system of close worker, socket preparation and any number of callers; its invariant; what holds over every run; which verdict and final status it ends with; that connected means connected; when retirement can complete |
| `AttemptReplay`, `PlatformReplay` | runs of the two step systems on the mutable objects |
| `PlatformSlot`, `PlatformTable` | one registry slot and its locked sections; the sixty-four-slot table as an array updated in place |
| `PlatformProtocol`, `PlatformInvariants`, `PlatformTheorems`, `PlatformCurrency`, `PlatformLeaks`, `CaptureRows` | callbacks, hooks, children and signals as steps; invariant; registry-wide theorems; what is current and how it gets there; reservations never taken up; capture staging |
| `ByteBuffer`, `BootstrapBinding`, `BootstrapChecks` | bootstrap framing over a byte memory |
| `InternetChecksum`, `ChecksumSplits`, `ResponderLoop`, `PacketResponders`, `PacketLayouts` | the checksum of RFC 1071, its behaviour on parts, and the two packet responders |
| `Budgets` | the two overflow-checked memory budgets |
| `Options`, `Sums` | shared values and sums |
| `GateEvidence`, `Sorting`, `SortedUnique`, `ArtifactInventory`, `Percentiles`, `Timings` | the gate's record and its checker, the artifact inventory, the timing summary and sorted lists |

A step of a protocol is one section under a lock, or one unlocked action. What the network,
the clock, the platform, the authority or a library answers is a parameter of the step, so a
theorem about every run covers every answer. Socket calls may fail at any point.
`productionPrepareSocketV1` runs once per transport, and the platform accepts the close of a
given child identifier at most once. Owner fields such as `who` and logs such as `os` and
`log` are history: no step looks at them to decide what the code decides.

Four results say exactly where the code stops short of what one might expect of it.

- A registration that ends without an identifier keeps its signal entry reserved, whoever refused
  it: the platform, a slot that could not be begun, an exhausted counter or a cancelled context
  (`PlatformLeaks.RevisionLeaksExactly`, `PlatformLeaks.TransportLeaksExactly`). It happens in runs
  from the empty registry, and such a slot is never recycled (`PlatformLeaks.LeakIsForever`).
- The checksum routine has the residue of the true sum exactly when the carries lost from its 32-bit
  accumulator are a multiple of 65535. That holds for up to 65537 words, and fails for an input of
  one word more (`InternetChecksum.AccumulatorExactWhen`, `InternetChecksum.BoundIsTight`). Parts
  checksum like their concatenation, within 65537 words, exactly when the byte sums displaced at odd
  offsets cancel modulo 257 (`ChecksumSplits.ChecksumsAgreeExactlyWhen`).
- FinishV1 gives up for good if FinishOwnedV1 answers nonzero: `done` can still close exactly when it
  has not, and afterwards every later FinishV1 waits forever
  (`AttemptRetirement.DoneCanCloseExactlyWhen`, `AttemptRetirement.RefusedForever`). The code's own
  comment says that failure leaves all ownership and Done live.
- The gate's record is refused by the checker exactly when a step has no name or a failing step has
  no positive exit code, which is how a signal-killed or unstartable command reads
  (`GateEvidence.RecordAcceptedExactlyWhen`).

## Model

| member | source | states |
|---|---|---|
| `AttemptTheorems.ClosedExactlyOnce` | cmd/kandroidbridge/production_network_unix_v1.go:23-128 | over every run the socket descriptor and the adopted connection are closed at most once, and exactly once each by the time the close worker ends; the worker is never past its join while the connector lease is held |
| `AttemptTheorems.ChannelsCloseOnce` | cmd/kandroidbridge/production_network_v1.go:294-360 | connectorDone, rawClosed, closerDone and done are each closed at most once; connectorDone is closed exactly when the connector is settled; a worker past its loop waits only for a lease holder that is bound to settle |
| `AttemptTheorems.NoLostWakeup` | cmd/kandroidbridge/production_network_v1.go:248-253 | a worker parked on a snapshot that no longer holds (verdict, serial or deadline changed) has a wake token buffered or some thread that still owes one |
| `AttemptTheorems.VerdictIsCarriedThrough` | cmd/kandroidbridge/production_network_v1.go:294-360 | under a verdict, in every run and for every answer of the outside, the steps of worker, lease holder and owed signals number at most the distance to the end; once they are that many the worker has ended; until it has, one of them can be taken |
| `AttemptTheorems.VerdictReachesTheEnd` | cmd/kandroidbridge/production_network_v1.go:294-360 | from every reachable state with a verdict there is a continuation in which the worker ends with everything closed |
| `AttemptTheorems.HandOffInOrder` | cmd/kandroidbridge/production_network_unix_v1.go:61-86 | the protection history is a prefix of publish, confirm, lease, dial, all for the one socket that was opened, and no verdict stood up to and including the lease |
| `AttemptTheorems.LatchedForever` | cmd/kandroidbridge/production_network_v1.go:254-290 | over any continuation the phase never falls, a verdict never clears and only status 9 is ever replaced, the leaf context is cancelled exactly when a verdict stands, and after retirement is claimed busy and runActive stay false |
| `AttemptTheorems.CallAdvances` | cmd/kandroidbridge/production_network_v1.go:527-552 | a caller step replaces a verdict only in the leave section, only the value 9, and only by a nonzero one |
| `AttemptTheorems.PhaseByOne` | cmd/kandroidbridge/production_network_v1.go:483-552 | one step moves the phase by at most one, and only with no verdict before and after |
| `AttemptTheorems.StageOutcome` | cmd/kandroidbridge/production_network_v1.go:527-552 | a stage that reports success has committed its own exit phase with no verdict standing; one that reports failure has left a verdict and the phase alone |
| `AttemptTheorems.StaleExpiryIsNothing` | cmd/kandroidbridge/production_network_v1.go:275-290 | an expiry decided on an old serial or deadline changes no shared field |
| `AttemptTheorems.AttachedNeverExpires` | cmd/kandroidbridge/production_network_v1.go:483-552 | once attached no continuation has a deadline armed, so the only verdicts are cancellation, close, misuse and protection mismatch |
| `AttemptTheorems.NineStands` | cmd/kandroidbridge/production_network_v1.go:527-552 | with no stage left to run even the replaceable status 9 is final |
| `AttemptTheorems.DoneIsQuiescent` | cmd/kandroidbridge/production_network_v1.go:696-751 | done is closed only when connector and close worker have ended, every child is released, FinishOwnedV1 returned zero, nothing is busy, running or retiring, and the recorded status is the closer's |
| `AttemptTheorems.ChildrenAreExclusive` | cmd/kandroidbridge/production_network_v1.go:606-692 | at most one thread uses carrier, result, service or packet outside the lock, and none while the guard of a reader holds or a run is under way |
| `AttemptTheorems.ChildrenChangeByTouch` | cmd/kandroidbridge/production_network_v1.go:606-751 | those four fields change only at the hands of that one thread |
| `AttemptRetirement.DoneCanCloseExactlyWhen` | cmd/kandroidbridge/production_network_v1.go:696-751 | from a reachable state some continuation closes done exactly when FinishOwnedV1 has not answered nonzero |
| `AttemptRetirement.RefusedForever` | cmd/kandroidbridge/production_network_v1.go:736-742 | once it has, in every continuation retirement stays claimed with nobody at it, done stays open, and every FinishV1 that waits for it goes on waiting |
| `AttemptRetirement.RefusalHappens` | cmd/kandroidbridge/production_network_v1.go:736-742 | for every nonzero answer there is a run from a new transport that gives it |
| `AttemptRetirement.NextKeepsRetirement` | cmd/kandroidbridge/production_network_v1.go:696-751 | every step keeps that a claimed retirement is either refused and abandoned or still pursued by the thread that claimed it |
| `AttemptVerdicts.FinalStatus` | cmd/kandroidbridge/production_network_v1.go:351-357 | in every reachable state with done closed the final status is 9 if a socket, file or connection close reported an error in the run, and 0 otherwise |
| `AttemptVerdicts.FirstVerdict` | cmd/kandroidbridge/production_network_v1.go:254-290 | the first verdict, whichever step gives it: cancellation, the wake-up close and retirement leave 7, the facade's close 9, the clock 8 or 12, a refusal what it owes and a stage what it reports; nothing else leaves one |
| `AttemptVerdicts.WorkerExpiryVerdict` | cmd/kandroidbridge/production_network_v1.go:275-290 | a verdict left by the worker's expiry means the armed deadline had passed; it is 12 exactly when the authority deadline had too and 8 otherwise |
| `AttemptVerdicts.SocketExpiryVerdict` | cmd/kandroidbridge/production_network_v1.go:434-446 | the same of one left by the descriptor call, on its two readings of the clock |
| `AttemptVerdicts.ConfirmExpiryVerdict` | cmd/kandroidbridge/production_network_v1.go:464-476 | the same of one left by the confirmation |
| `AttemptVerdicts.WorkerExpires` | cmd/kandroidbridge/production_network_v1.go:275-290 | a passed deadline that the worker still sees armed leaves 8 or 12 |
| `AttemptVerdicts.ProtectionExpires` | cmd/kandroidbridge/production_network_v1.go:428-481 | a passed deadline is found by either protection call and leaves 8 or 12 |
| `AttemptVerdicts.PublishesExactlyWhen` | cmd/kandroidbridge/production_network_v1.go:428-450 | the descriptor is handed out exactly in phase 1 with a descriptor, no verdict and no expiry |
| `AttemptVerdicts.ConfirmsExactlyWhen` | cmd/kandroidbridge/production_network_v1.go:455-481 | the confirmation is accepted exactly in phase 2 for the descriptor itself, with no verdict and no expiry |
| `AttemptVerdicts.MismatchOwesSixteen` | cmd/kandroidbridge/production_network_v1.go:470-481 | a confirmation that does not match owes the verdict 16 and changes nothing under the lock |
| `AttemptVerdicts.AdmitsExactlyWhen` | cmd/kandroidbridge/production_network_v1.go:483-526 | a stage is admitted exactly from its own phase with no verdict and nobody busy or retiring, and what a refusal owes |
| `AttemptVerdicts.LeaveDecides` | cmd/kandroidbridge/production_network_v1.go:527-552 | what leaving a stage does to phase and verdict, case by case in the status values |
| `AttemptVerdicts.StageDeadlineIsEarliest` | cmd/kandroidbridge/production_network_v1.go:500-512 | the stage deadline is the least of the dial timeout, the authority deadline and the caller's own |
| `AttemptVerdicts.PrepareDeadlineIsEarliest` | cmd/kandroidbridge/production_network_v1.go:116-123 | the preparation deadline is the least of the dial timeout and the authority deadline |
| `AttemptConnection.ConnectedIsLive` | cmd/kandroidbridge/production_network_unix_v1.go:61-128 | in every reachable state past the connect stage and without a verdict the one connection is registered and open, the descriptor has been closed and no close has failed |
| `AttemptInvariants.NextKeeps` | cmd/kandroidbridge/production_network_v1.go:248-812 | every step of every actor keeps the nine-part inductive invariant |
| `AttemptWakeup.NextKeepsWake` | cmd/kandroidbridge/production_network_v1.go:248-360 | every step keeps the wake-up obligation: whoever outdates a parked worker's snapshot has left a token or owes one |
| `AttemptWakeup.StepLowers` | cmd/kandroidbridge/production_network_v1.go:294-360 | under a verdict no step of any thread takes the worker further from its end, and every step of worker, lease holder or owed signal brings it nearer, whatever the outside answers |
| `AttemptWakeup.HelpIsBounded` | cmd/kandroidbridge/production_network_v1.go:294-360 | so in every run those steps are bounded, by 248 at most |
| `AttemptWakeup.HelpIsAvailable` | cmd/kandroidbridge/production_network_v1.go:294-360 | until the worker has ended one of those steps can be taken |
| `AttemptReplay.Play` | cmd/kandroidbridge/production_network_v1.go:105-130 | a transport object played through any run ends with exactly the fields the step system says, and refuses exactly the runs it refuses |
| `AttemptReplay.PlaySafely` | cmd/kandroidbridge/production_network_v1.go:294-360 | after any run the object's own fields satisfy the latch, the once-only channels, the closed descriptor and connection, the quiescence of done, the wake-up obligation and the hand-off order; with done closed the final status is 9 exactly if a close failed, and from phase 4 without a verdict the connection is registered and open |
| `AttemptReplay.PlayOn` | cmd/kandroidbridge/production_network_v1.go:248-812 | from any state the object follows a run as far as the step system does and stops exactly where it cannot go on |
| `AttemptReplay.ContinueSafely` | cmd/kandroidbridge/production_network_v1.go:254-290 | over any continuation the object's phase does not fall, its verdict and retirement stay, an attached one gets no deadline, and a refused retirement stays open |
| `AttemptReplay.Do` | cmd/kandroidbridge/production_network_v1.go:248-812 | one step on the object, decided by what its methods return, is the step of the step system or nothing |
| `AttemptTransport.Transport.constructor` | cmd/kandroidbridge/production_network_v1.go:235-247 | a new transport is in phase 1 with no verdict, no descriptor and the authority deadline |
| `AttemptTransport.Transport.Signal` | cmd/kandroidbridge/production_network_v1.go:248-253 | the wake token is buffered, and a full buffer drops the new one (tied to the section function of the step system) |
| `AttemptTransport.Transport.Fail` | cmd/kandroidbridge/production_network_v1.go:254-262 | the first verdict stays, the context is cancelled (tied to the section function of the step system) |
| `AttemptTransport.Transport.ExpireObserved` | cmd/kandroidbridge/production_network_v1.go:275-290 | the expiry applies only to the observed serial and deadline, with 12 past the authority deadline and 8 before it (tied to the section function of the step system) |
| `AttemptTransport.Transport.ExpireInline` | cmd/kandroidbridge/production_network_v1.go:434-480 | the inline expiry of the protection calls, signal included (tied to the section function of the step system) |
| `AttemptTransport.Transport.SocketFD` | cmd/kandroidbridge/production_network_v1.go:428-450 | the descriptor is published only from phase 1, unexpired and without a verdict (tied to the section function of the step system) |
| `AttemptTransport.Transport.Confirm` | cmd/kandroidbridge/production_network_v1.go:455-481 | the confirmation accepts only the published descriptor and otherwise leaves a mismatch owed (tied to the section function of the step system) |
| `AttemptTransport.Transport.Enter` | cmd/kandroidbridge/production_network_v1.go:483-526 | a stage is admitted only from its own phase with nobody busy or finishing; the serial advances and the stage deadline is armed (tied to the section function of the step system) |
| `AttemptTransport.Transport.SettledStatus` | cmd/kandroidbridge/production_network_v1.go:527-538 | success only with no verdict standing and success reported; 12 and 13 stand; any other verdict than 9 wins; otherwise the reported failure stands (tied to the section function of the step system) |
| `AttemptTransport.Transport.Leave` | cmd/kandroidbridge/production_network_v1.go:527-552 | success commits the phase with no earlier verdict, anything else latches or keeps a verdict; busy is released either way (tied to the section function of the step system) |
| `AttemptTransport.Transport.FinishClaim` | cmd/kandroidbridge/production_network_v1.go:700-715 | retirement is claimed once and only when nothing is busy or running (tied to the section function of the step system) |
| `AttemptTransport.Transport.FinishCommit` | cmd/kandroidbridge/production_network_v1.go:741-748 | the final status records a close error (tied to the section function of the step system) |
| `AttemptTransport.Transport.RunClaim` | cmd/kandroidbridge/production_network_v1.go:771-782 | a run starts at most once, attached and with no verdict (tied to the section function of the step system) |
| `AttemptTransport.Transport.PrepareDeadline` | cmd/kandroidbridge/production_network_v1.go:116-123 | the preparation deadline is capped by the authority deadline (tied to the section function of the step system) |
| `AttemptTransport.Transport.PrepareLease` | cmd/kandroidbridge/production_network_unix_v1.go:33-39 | the lease is taken only with no verdict and nobody holding or having settled it (tied to the section function of the step system) |
| `AttemptTransport.Transport.PrepareRelease` | cmd/kandroidbridge/production_network_unix_v1.go:40-49 | releasing settles the connector exactly when a verdict stands (tied to the section function of the step system) |
| `AttemptTransport.Transport.ConnectLease` | cmd/kandroidbridge/production_network_unix_v1.go:65-72 | the connector lease also needs a descriptor (tied to the section function of the step system) |
| `AttemptTransport.Transport.ConnectCommit` | cmd/kandroidbridge/production_network_unix_v1.go:106-114 | the descriptor is disowned and its close error kept (tied to the section function of the step system) |
| `AttemptTransport.Transport.ConnectRelease` | cmd/kandroidbridge/production_network_unix_v1.go:73-80 | releasing always settles the connector (tied to the section function of the step system) |
| `AttemptTransport.Transport.WorkerObserve` | cmd/kandroidbridge/production_network_v1.go:296-302 | a verdict with nobody holding the lease settles the connector (tied to the section function of the step system) |
| `AttemptTransport.Transport.WorkerTake` | cmd/kandroidbridge/production_network_v1.go:336-340 | the worker takes the descriptor out of the shared state (tied to the section function of the step system) |
| `AttemptTransport.Transport.WorkerCommit` | cmd/kandroidbridge/production_network_v1.go:351-357 | the registered connection is cleared and close errors are kept (tied to the section function of the step system) |
| `PlatformTheorems.NextKeeps` | cmd/kandroidbridge/android_platform_v1.go:182-1328 | every step in any of the sixty-four slots keeps every slot's seven-part invariant, keeps owners and references distinct, and advances the counter by at most one |
| `PlatformTheorems.OneOperation` | cmd/kandroidbridge/android_platform_v1.go:289-400 | a call in flight or staged bytes imply busy, staging never exceeds its limit, at most one thread holds a slot's busy bit, and once it is clear every cancellation hook has returned or was stopped |
| `PlatformTheorems.RecycledOnlyWhenSpent` | cmd/kandroidbridge/android_platform_v1.go:182-237 | a platform leaves its slot only by a finalization the platform reported successful, from a slot with no call, staging, child, signal, failure or running sink |
| `PlatformTheorems.FailureStays` | cmd/kandroidbridge/android_platform_v1.go:279-288 | a failure implies terminal, neither clears, and the failed platform never leaves its slot |
| `PlatformTheorems.SinkKeepsItsSlot` | cmd/kandroidbridge/android_platform_v1.go:1281-1328 | while an invalidation sink runs its slot keeps the platform and its entry keeps the signal, and no second sink runs |
| `PlatformTheorems.CurrencyIsMonotone` | cmd/kandroidbridge/android_platform_v1.go:899-916 | a registered socket or network lease that is not locally current is never current again in any continuation, slot reuse included |
| `PlatformTheorems.CurrencyComesFrom` | cmd/kandroidbridge/android_platform_v1.go:1184-1190 | a lease current after a step and registered before it was current before it |
| `PlatformTheorems.LossChannels` | cmd/kandroidbridge/android_platform_v1.go:801-818 | no loss channel is closed twice; a closed lease has its channel closed; an open one exactly when the loss was delivered |
| `PlatformTheorems.LeaseCloseFindsItsChannel` | cmd/kandroidbridge/android_platform_v1.go:954-992 | a lease close that clears its signal entry finds its own entry, with a channel closed exactly if the loss fired |
| `PlatformTheorems.PublicationCurrent` | cmd/kandroidbridge/android_platform_v1.go:745-766 | a publication that reports current is, at the deciding section, open under its own open revision in a slot neither terminal nor failed |
| `PlatformTheorems.OwnerNamesOneSlot` | cmd/kandroidbridge/android_platform_v1.go:993-1015 | two occupied slots never share an owner or a platform object, so a callback addresses at most one |
| `PlatformLeaks.RevisionLeaksExactly` | cmd/kandroidbridge/android_platform_v1.go:588-621 | a thread that gives up its revision reservation leaves the entry reserved exactly when no identifier was granted, which is when the slot could not be begun or the platform returned none |
| `PlatformLeaks.TransportLeaksExactly` | cmd/kandroidbridge/android_platform_v1.go:839-898 | so with a transport reservation: exactly when the context was cancelled, the slot could not be begun, the counter was exhausted or the call returned no identifier |
| `PlatformLeaks.LeakIsVisible` | cmd/kandroidbridge/android_platform_v1.go:558-574 | a leaked entry is one that is reserved with nothing registered on it and no thread on its way to register |
| `PlatformLeaks.RevisionLeakHappens` | cmd/kandroidbridge/android_platform_v1.go:588-621 | a run from the empty registry that ends in an idle, live slot with a leaked revision entry |
| `PlatformLeaks.TransportLeakHappens` | cmd/kandroidbridge/android_platform_v1.go:320-326 | a run from the empty registry that ends in one with a leaked loss entry |
| `PlatformLeaks.LeakIsForever` | cmd/kandroidbridge/android_platform_v1.go:182-215 | a slot with such an entry keeps it and its platform in every continuation, so it is never recycled |
| `PlatformCurrency.LeaseIsCurrentExactlyWhen` | cmd/kandroidbridge/android_platform_v1.go:899-916 | a registered lease is current exactly when open, for its own epoch and attempt, in a slot neither terminal nor failed whose loss has not been delivered |
| `PlatformCurrency.PublicationIsCurrentExactlyWhen` | cmd/kandroidbridge/android_platform_v1.go:745-766 | a registered publication passes both of its sections exactly when open in a slot neither terminal nor failed |
| `PlatformCurrency.MayCloseExactlyWhen` | cmd/kandroidbridge/android_platform_v1.go:710-720 | the first section of a close passes a lease always, a publication while its revision is the slot's, a revision once no publication is left and no sink runs |
| `PlatformCurrency.GrantIsCurrentExactlyWhen` | cmd/kandroidbridge/android_platform_v1.go:839-898 | a lease or publication just granted is current exactly in a slot neither terminal nor failed, a lease only while its loss has not been delivered |
| `PlatformCurrency.SocketLeaseHappens` | cmd/kandroidbridge/android_platform_v1.go:839-898 | a run from the empty registry registers a socket lease for an attempt, and it is current |
| `PlatformCurrency.NetworkLeaseHappens` | cmd/kandroidbridge/android_platform_v1.go:839-898 | a run from the empty registry registers a network lease, and it is current |
| `PlatformCurrency.PublicationHappens` | cmd/kandroidbridge/android_platform_v1.go:663-709 | a run from the empty registry acquires a publication, and it is current |
| `PlatformReplay.Play` | cmd/kandroidbridge/android_platform_v1.go:182-1328 | a table played through any run ends with exactly the slots and counter the step system says, and refuses exactly the runs it refuses |
| `PlatformReplay.PlaySafely` | cmd/kandroidbridge/android_platform_v1.go:182-1328 | after any run the table's own slots have failure only with terminal, calls and staging only under busy, identifiers within the counter, sinks only in terminal slots, distinct owners, and loss channels closed at most once and exactly with their lease or loss |
| `PlatformReplay.PlayOn` | cmd/kandroidbridge/android_platform_v1.go:182-1328 | from any state the table follows a run as far as the step system does and stops exactly where it cannot go on |
| `PlatformReplay.ContinueSafely` | cmd/kandroidbridge/android_platform_v1.go:899-916 | over any continuation no registered lease of the table becomes current again, and a leaked entry keeps its slot and platform |
| `PlatformReplay.Do` | cmd/kandroidbridge/android_platform_v1.go:182-1328 | one action on the table, decided by what its methods return, is the action of the step system or nothing |
| `PlatformInvariants.ThreadKeeps` | cmd/kandroidbridge/android_platform_v1.go:289-1280 | every locked section and callback answer of a thread keeps the slot invariant |
| `PlatformInvariants.FreeKeeps` | cmd/kandroidbridge/android_platform_v1.go:244-288 | admission, failures, hooks and loss callbacks keep the slot invariant |
| `PlatformTable.OwnedAt` | cmd/kandroidbridge/android_platform_v1.go:993-1015 | the first slot of an owner: it is that owner's, none before it is |
| `PlatformTable.Table.constructor` | cmd/kandroidbridge/android_platform_v1.go:269-278 | sixty-four empty slots and a zero counter |
| `PlatformTable.Table.Open` | cmd/kandroidbridge/android_platform_v1.go:244-266 | an owner is admitted once, into the first free slot; each error code exactly when it applies, with no slot changed |
| `PlatformTable.Table.FindOwner` | cmd/kandroidbridge/android_platform_v1.go:993-1015 | the linear search returns the first slot of the owner |
| `PlatformTable.Table.FailPlatform` | cmd/kandroidbridge/android_platform_v1.go:279-288 | only the named platform's slot becomes terminal, and an earlier failure is kept |
| `PlatformTable.Table.BeginOperation` | cmd/kandroidbridge/android_platform_v1.go:289-298 | the busy bit is taken exactly when free, and for ordinary work only in a live slot |
| `PlatformTable.Table.EndOperation` | cmd/kandroidbridge/android_platform_v1.go:299-306 | busy and staged bytes are released |
| `PlatformTable.Table.FinalizeClaim` | cmd/kandroidbridge/android_platform_v1.go:182-200 | only a bare slot goes on to the platform; any other is marked corrupt |
| `PlatformTable.Table.FinalizeSettle` | cmd/kandroidbridge/android_platform_v1.go:201-215 | success empties the slot, anything else marks it and releases busy |
| `PlatformTable.Table.ReserveRevisionSignal` | cmd/kandroidbridge/android_platform_v1.go:558-574 | a fresh identifier and the entry, or the exact refusal |
| `PlatformTable.Table.ReserveLossSignal` | cmd/kandroidbridge/android_platform_v1.go:801-818 | a fresh identifier, the entry and its channel, or the exact refusal |
| `PlatformTable.Table.RegisterCall` | cmd/kandroidbridge/android_platform_v1.go:320-343 | a fresh call identifier, or the slot is exhausted |
| `PlatformTable.Table.ClearCall` | cmd/kandroidbridge/android_platform_v1.go:364-380 | the call is cleared only by its own identifier |
| `PlatformTable.Table.StageBytes` | cmd/kandroidbridge/android_platform_v1.go:465-472 | the staged total is recorded |
| `PlatformTable.Table.AdoptChild` | cmd/kandroidbridge/android_platform_v1.go:602-608 | a granted child is held before its status is looked at |
| `PlatformTable.Table.LossArrives` | cmd/kandroidbridge/android_platform_v1.go:993-1015 | the addressed entry fires and its channel is closed by the first delivery only |
| `PlatformTable.Table.InvalidationArrives` | cmd/kandroidbridge/android_platform_v1.go:1281-1305 | the sink may run once; a second delivery fails the slot |
| `PlatformTable.Table.SinkSettles` | cmd/kandroidbridge/android_platform_v1.go:1306-1328 | the entry is spent and an earlier failure is kept |
| `PlatformTable.Table.CommitChildClose` | cmd/kandroidbridge/android_platform_v1.go:1258-1280 | a close that the platform accepted frees exactly its child, with the signal of a revision or lease; any other marks the slot |
| `CaptureRows.StageRows` | cmd/kandroidbridge/android_platform_v1.go:453-484 | the five rows are accepted exactly when each is positive and within its maximum, and then partition the staged bytes exactly |
| `CaptureRows.MaximaFillTheLimit` | cmd/kandroidbridge/android_platform_v1.go:455-463 | the limit is the sum of the maxima, so the running-total test never refuses on its own |
| `BootstrapBinding.SpansDisjoint` | cmd/kandroidbridge/bootstrap_binding_v1.go:28-40 | the wrapping 64-bit pairwise test decides validity and disjointness in unbounded arithmetic |
| `BootstrapBinding.InputsStatus` | cmd/kandroidbridge/bootstrap_binding_v1.go:41-55 | zero exactly when every input is usable; otherwise the first bad input decides between 2 and 4 |
| `BootstrapBinding.LegacyBinding` | cmd/kandroidbridge/bootstrap_binding_v1.go:74-120 | every status; a nonzero status leaves all of memory alone; success writes the 41-byte form and nothing else |
| `BootstrapBinding.ProductionBinding` | cmd/kandroidbridge/bootstrap_binding_v1.go:121-181 | every status; before the check passes memory is untouched, after it a failure leaves only the two zeroed words, success the filled image |
| `BootstrapBinding.ZeroedOnly` | cmd/kandroidbridge/bootstrap_binding_v1.go:148-149 | zeroing touches the two words only, so the reader sees the caller's inputs |
| `BootstrapBinding.WritesExactly` | cmd/kandroidbridge/bootstrap_binding_v1.go:167-181 | after success the declared prefixes hold the wire form and the two authorities, the words read back as their lengths, and every other address, the inputs among them, is unchanged |
| `BootstrapBinding.WireRoundTrip` | cmd/kandroidbridge/bootstrap_binding_v1.go:167-173 | the 44-byte form reads back as the facts it was made from |
| `BootstrapBinding.LegacyWritesExactly` | cmd/kandroidbridge/bootstrap_binding_v1.go:112-120 | the legacy write leaves every input alone and reads back as the facts |
| `BootstrapChecks.ProductionCheckExactly` | cmd/kandroidbridge/bootstrap_binding_v1.go:121-147 | the check passes exactly for aligned words, ten usable ranges that share no address, room for 44 and twice 512 bytes, and inputs within their maxima; a size that does not suit after everything before it did is 4; the rest is 2 |
| `BootstrapChecks.LegacyCheckExactly` | cmd/kandroidbridge/bootstrap_binding_v1.go:74-96 | the legacy check likewise for 41 bytes, its own maxima and statuses 0, 2 and 1 |
| `BootstrapChecks.InputsVerdictIs` | cmd/kandroidbridge/bootstrap_binding_v1.go:41-55 | the input scan is decided by its first bad input |
| `BootstrapChecks.WireLayout` | cmd/kandroidbridge/bootstrap_binding_v1.go:167-173 | the 44-byte form, byte by byte |
| `BootstrapChecks.LegacyLayout` | cmd/kandroidbridge/bootstrap_binding_v1.go:112-120 | the 41-byte form, byte by byte |
| `InternetChecksum.Checksum` | cmd/kandroidbridge/task7_tun_fixture_internal.go:18-32 | the 32-bit accumulate-fold-complement loops compute the complement of the folded sum of the parts |
| `InternetChecksum.FoldIs` | cmd/kandroidbridge/task7_tun_fixture_internal.go:28-30 | folding ends in the representative of the sum modulo 65535 that is zero only for zero |
| `InternetChecksum.FoldKeepsResidue` | cmd/kandroidbridge/task7_tun_fixture_internal.go:28-30 | folding keeps the sum modulo 65535 |
| `InternetChecksum.PartsSumLikeWhole` | cmd/kandroidbridge/task7_tun_fixture_internal.go:18-32 | parts sum like their concatenation when every part but the last has even length |
| `InternetChecksum.ExactWithin` | cmd/kandroidbridge/task7_tun_fixture_internal.go:18-32 | up to 65537 words nothing is lost from the accumulator, so the result has the residue of the true sum |
| `InternetChecksum.BoundIsTight` | cmd/kandroidbridge/task7_tun_fixture_internal.go:18-32 | with one word more there is an input whose residue is missed |
| `InternetChecksum.AccumulatorExactWhen` | cmd/kandroidbridge/task7_tun_fixture_internal.go:18-32 | the result has the residue of the true sum exactly when the carries lost out of 32 bits are a multiple of 65535 |
| `InternetChecksum.ComplementVerifies` | cmd/kandroidbridge/task7_tun_fixture_internal.go:104-111 | adding the complement, with zero sent as all ones, makes the sum verify |
| `ChecksumSplits.SplitExactlyWhen` | cmd/kandroidbridge/task7_tun_fixture_internal.go:20-27 | two parts sum like the whole exactly at an even offset, or when the second part has equal byte sums at even and odd positions |
| `ChecksumSplits.PartsSumExactlyWhen` | cmd/kandroidbridge/task7_tun_fixture_internal.go:20-27 | a list of parts sums like its concatenation exactly when the differences of those byte sums, over the parts at odd offsets, cancel |
| `ChecksumSplits.ResiduesAgreeExactlyWhen` | cmd/kandroidbridge/task7_tun_fixture_internal.go:20-30 | and modulo 65535 exactly when they cancel modulo 257 |
| `ChecksumSplits.ChecksumsAgreeExactlyWhen` | cmd/kandroidbridge/task7_tun_fixture_internal.go:18-32 | up to 65537 words that is exactly when the checksums agree |
| `ChecksumSplits.OddPartsDiffer` | cmd/kandroidbridge/task7_tun_fixture_internal.go:18-32 | odd parts that differ from their concatenation, and odd parts that do not |
| `PacketResponders.SealedVerifies` | cmd/kandroidbridge/task7_tun_fixture_internal.go:102-111 | sealing any packet of up to 1500 bytes makes both checksums verify and changes only the two fields |
| `PacketResponders.TunReplyIsSound` | cmd/kandroidbridge/task7_tun_fixture_internal.go:90-115 | each reply verifies, goes back the way the request came with every other byte of it kept, carries its number twice and a UDP checksum that is not the zero for absent |
| `PacketResponders.DnsReplyIsSound` | cmd/kandroidbridge/task7_maintenance_dns_internal.go:100-123 | the answer verifies, goes back the way the query came, states its own lengths, carries the payload and a UDP checksum that is not the zero for absent |
| `PacketResponders.AnswerTun` | cmd/kandroidbridge/task7_tun_fixture_internal.go:90-115 | the buffer rewriting yields the two replies, stopping at the first refused submission |
| `PacketResponders.AnswerDns` | cmd/kandroidbridge/task7_maintenance_dns_internal.go:100-123 | the in-place assembly yields the answer packet |
| `PacketResponders.RunTun` | cmd/kandroidbridge/task7_tun_fixture_internal.go:55-118 | the receive loop plays its script exactly as the reference, for every script |
| `PacketResponders.RunDns` | cmd/kandroidbridge/task7_maintenance_dns_internal.go:39-127 | the receive loop plays its script exactly as the reference, for every script and library answer |
| `PacketResponders.SubmittedVerifies` | cmd/kandroidbridge/task7_tun_fixture_internal.go:55-118 | whatever arrives, at most two packets are submitted and each verifies under the same checksum routine |
| `PacketLayouts.TunRequestExactly` | cmd/kandroidbridge/task7_tun_fixture_internal.go:34-54 | a packet is a request exactly when it is 44 bytes of one layout: unfragmented, from client to dns at port 28472, the body with a count between 2 and 7, a UDP checksum absent or verifying, and the relay accepts it |
| `PacketLayouts.TunAskIsRequest` | cmd/kandroidbridge/task7_tun_fixture_internal.go:34-54 | for every client, dns, source port and count a packet assembled so and sealed is a request exactly when the relay accepts it |
| `PacketLayouts.DnsQueryExactly` | cmd/kandroidbridge/task7_maintenance_dns_internal.go:18-37 | a packet is a query exactly when it is 61 bytes of one layout: unfragmented, from client to dns at port 53, one recursive question the parser expects, the header checksum verifying |
| `PacketLayouts.DnsAskIsQuery` | cmd/kandroidbridge/task7_maintenance_dns_internal.go:18-37 | for every client, dns, source port and question a packet assembled so and sealed is a query exactly when the parser accepts it |
| `PacketLayouts.TunClientIsServed` | cmd/kandroidbridge/task7_tun_fixture_internal.go:64-116 | a script that delivers such a request within the bound submits exactly its two replies, whatever else follows |
| `PacketLayouts.DnsClientIsServed` | cmd/kandroidbridge/task7_maintenance_dns_internal.go:49-124 | a script that delivers such a query within the bound submits exactly one answer, with 33 bytes of payload in mode 2 and 64 in mode 1 |
| `PacketLayouts.StrangersGetNothing` | cmd/kandroidbridge/task7_tun_fixture_internal.go:64-116 | a script without a request submits nothing |
| `PacketLayouts.TunStranger` | cmd/kandroidbridge/task7_tun_fixture_internal.go:34-54 | a packet not from client or not to dns is no request |
| `PacketLayouts.DnsStranger` | cmd/kandroidbridge/task7_maintenance_dns_internal.go:18-37 | a packet not from client or not to dns is no query |
| `ResponderLoop.OnlyTheFirstIsAnswered` | cmd/kandroidbridge/task7_tun_fixture_internal.go:64-116 | what is submitted is a prefix of the packets owed to the first valid request |
| `ResponderLoop.ReachedIsAnswered` | cmd/kandroidbridge/task7_maintenance_dns_internal.go:49-124 | a request reached within the budget is answered in full when the port accepts |
| `ResponderLoop.SecondIsRejected` | cmd/kandroidbridge/task7_tun_fixture_internal.go:79-89 | a second valid request within the budget ends the responder with the rejection and only the first one's packets submitted |
| `ResponderLoop.QuietPasses` | cmd/kandroidbridge/task7_tun_fixture_internal.go:64-116 | packets that are no request use up the budget and nothing else |
| `ResponderLoop.ExhaustedIsRejected` | cmd/kandroidbridge/task7_tun_fixture_internal.go:64-118 | a budget used up without a request ends in the rejection |
| `ResponderLoop.StopsAt` | cmd/kandroidbridge/task7_tun_fixture_internal.go:64-116 | what stops the loop and how it then returns: cancellation, a port that fails to deliver, acknowledge or accept, a library without an answer, a second request |
| `Budgets.Workspace` | cmd/kandroidbridge/production_network_v1.go:171-233 | a budget comes back exactly when the guards pass and the unbounded formula fits 64 bits, and then it is that formula |
| `Budgets.PeakWords` | cmd/kandroidbridge/production_network_v1.go:206-229 | the costliest stage, with the overflow flag set exactly when it does not fit |
| `Budgets.Adder.Add` | cmd/kandroidbridge/production_network_v1.go:187-198 | the sum, or zero with the overflow flag set exactly when the unbounded sum does not fit |
| `Budgets.BudgetIsTheWorstStage` | cmd/kandroidbridge/production_network_v1.go:217-227 | the budget covers the fixed part with every stage, and one stage needs all of it |
| `Budgets.BudgetIsLeast` | cmd/kandroidbridge/production_network_v1.go:199-227 | the budget is the least number with room for the standing objects and each stage in turn, every object counted as often as it is held |
| `Budgets.OverlapBacking` | cmd/kandroidbridge/android_platform_v1.go:125-151 | each status exactly when it applies; success is the unbounded formula |
| `Budgets.DivisionGuard` | cmd/kandroidbridge/android_platform_v1.go:147-150 | the division guard holds exactly when the product does not fit |
| `GateEvidence.RunGate` | cmd/gate/main.go:306-374 | every step runs whatever came before; the record says of each, in order, what the executor did; exit code zero exactly when all succeeded and the outputs were written |
| `GateEvidence.StringSlicesEqual` | cmd/assure/issue.go:322-332 | decides equality of two command lines |
| `GateEvidence.ValidateGateSteps` | cmd/assure/issue.go:299-320 | accepts exactly the consistent records and otherwise reports the first wrong step |
| `GateEvidence.GuardPassesExactlyWhen` | cmd/assure/issue.go:101-103 | the guard passes exactly the records of proof runs that are neither quick nor Android |
| `GateEvidence.AlteredIsRefused` | cmd/assure/issue.go:101-103 | a record of another schema, of another status or not marked terminal is refused |
| `GateEvidence.ProofRunPassesGuard` | cmd/gate/main.go:110-131 | what the gate agrees to run as a proof passes the guard |
| `GateEvidence.RecordAcceptedExactlyWhen` | cmd/assure/issue.go:299-320 | a run's record is accepted against the same commands exactly when every step is named and every failure has a positive exit code |
| `GateEvidence.BrokenStepIsRefused` | cmd/gate/main.go:376-385 | a step that could not be run at all gives a record that passes the guard and is refused |
| `GateEvidence.OnlyMinusOneIsRefused` | cmd/gate/main.go:376-385 | for exit errors of code -1 or positive that condition is that no failing step carries -1 |
| `GateEvidence.AcceptedPassMeansAllRan` | cmd/assure/issue.go:299-320 | an accepted PASS record means the policy's commands are the ones that ran, in order, and all succeeded |
| `GateEvidence.AcceptedFailMeansOneFailed` | cmd/assure/issue.go:299-320 | an accepted FAIL record has a step that ended with a positive exit code |
| `ArtifactInventory.ValidateDeclaredArtifacts` | cmd/assure/candidate.go:169-224 | accepts exactly well-formed, distinct, matching declarations that pass the inventory count; an undeclared file is reported by its smallest path |
| `ArtifactInventory.GenuineExactlyWhen` | cmd/assure/candidate.go:180-203 | declarations are genuine exactly when paths are safe and different and each has the size and digest of its file |
| `ArtifactInventory.InventoryIsExact` | cmd/assure/candidate.go:213-222 | for a walk that lists each file once the count passes exactly when declared and actual path sets are equal |
| `ArtifactInventory.CountingIsExactWhen` | cmd/assure/candidate.go:213-222 | given the count, the sets are equal exactly when no file is listed twice |
| `ArtifactInventory.RepeatedListingHidesAFile` | cmd/assure/candidate.go:213-222 | the count leans on the walk visiting each path once: a listing that repeated one could hide a missing file |
| `Percentiles.MedianAndTail` | cmd/assure/timings.go:98-102 | the two percentiles of any non-empty list, the first no larger than the second |
| `Percentiles.NearestRank` | cmd/assure/timings.go:104-110 | on an ordered list the selected sample is the least that covers the share |
| `Percentiles.PercentileOfSorted` | cmd/assure/timings.go:98-102 | a percentile of the sorted copy is one of the list itself |
| `Timings.Summarise` | cmd/assure/timings.go:49-96 | a summary appears exactly when there are files, all are valid and all have the same step names; then it lists each common step once, in order, with the percentiles of its column; failures name a first bad file or a step some run lacks |
| `Timings.StandsExactlyWhen` | cmd/assure/timings.go:58-77 | a run is valid on exactly these terms: schema, durations, named and different steps, each passed or failed |
| `Timings.GatherRun` | cmd/assure/timings.go:68-77 | a run is accepted exactly when valid, and its durations extend the columns |
| `Timings.ColumnIsFull` | cmd/assure/timings.go:86-91 | a step's list is as long as there are runs exactly when no run lacks the step |
| `SortedUnique.MakeSortedUnique` | cmd/assure/main.go:449-460 | the in-place compaction computes the deduplicated sorted list |
| `SortedUnique.SortedUniqueIs` | cmd/assure/main.go:449-460 | same elements, strictly ordered, shorter exactly when something was repeated |
| `SortedUnique.SameElementsSameResult` | cmd/assure/main.go:449-460 | the result depends on the elements only |

## Left out

- AttemptTransport.Transport.ExpireInline: one method stands for the same lines in both protection calls.
- PlatformTheorems.CurrencyIsMonotone: the caller's expectation object is environment, so currency is stated for every epoch and attempt it may name.
- PlatformTable.Table.CommitChildClose: the revision, publication, socket and network closes share one method; their platform callbacks differ only outside the lock.
- PacketResponders.RunTun: the relay's own packet validation is a parameter, and a script that ends leaves the responder waiting.
- PacketResponders.RunDns: parsing and building of DNS messages are parameters; a library panic is not modelled.
- Budgets.Workspace: the sizes of Go types are parameters below 2^48, and the three projected workspaces are given or fail.
- BootstrapBinding.ProductionBinding: length words are stored little-endian, as on the supported targets, and the reader sees only the copied inputs.
- The child objects' own fields are a map from references beside the table, not classes of their own.
- The interleaving model is sequentially consistent at the granularity of lock sections and channel operations; weaker memory effects are not modelled.
- AttemptTheorems.VerdictIsCarriedThrough: bounds and enables the steps that end the worker; that the scheduler takes them is not stated.
- Early read-only refusals that touch no shared state (nil receivers, contexts cancelled and expectations mismatched before any reservation) are left to the environment's choice not to start.
- `AcquireNetworkV1`, `BindSocket`, `SystemRoots` and `IsCurrent` of the network lease beyond registration, local currency and close: the remaining code is a call and its status.
- The poll loop of the socket connect and the socket option calls: their results are parameters.
- TLS, the Kurd handshake, pumps and codecs: their results are parameters.
- The relay fixture's start, cancel and finish, and the pressure ballast: test equipment outside the transport, the registry and their messages.
- Path syntax, digests and the directory walk of the inventory, file reading and JSON decoding of the timing and gate records, and the gate's fixed step tables: parameters.
- `runtime.Version` and pointer-size guards of the workspace appear as one boolean.
- Command-line front ends, C trampolines and exports.
