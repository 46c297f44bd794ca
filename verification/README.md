# Coffee shop platform: restore drill, ownership guard, order counter

A Dafny model of three parts of the repository whose important facts hold over whole runs.

**The PROD point-in-time restore drill.** `Markers.dfy` models the source database as a commit log with
times, restores as replays of a prefix of that log, and the marker transactions; `MarkerStore.dfy` is the
migration job's own code over a table. `Drill.dfy` is the drill as a transition system over the persisted
state file, the commit log, the RDS instances and the history of approvals and effects. Each operation and each
save succeeds, fails without effect or fails with effect; a call can crash anywhere; other drills commit,
instances change and the clock moves in between. `DrillMarkers`, `DrillApprovals`, `DrillTarget` and
`DrillCleanup` prove what holds over every run; the history records what each validation and each last
inventory saw, so what is on record as validated or cleaned says something about the database and the
instances. `DrillChecks` states what each operation demands and does, field by field. `DrillCalls.dfy` drives
the transition system through one whole call, with an environment that answers each interaction and moves in
between as it likes; `DrillResume` and `DrillFinish` prove that every call the environment lets through
completes. `DrillEngine.dfy` is `Run` and `Cleanup` as loops on a class; each call, with all its failures,
ends exactly as the driven system does, so all of this holds for calls.

**The PlatformOwnershipGuard pipeline.** `FindingIdentity` (the encoding hashed into finding IDs),
`PruneRisk` and `PruneRiskFindings` (detector, deduplication, and what a verdict means), `Ordering`,
`Findings` and `BoundFindings` (the sorted, bounded list), `Transitions` (the diff and its events),
`AuditStatus`, `SnapshotFailures` and `AuditRuns` (status, the status-first reconcile pass, the reason for not
being ready, and runs of scans).

**The counter's order aggregate.** `Menu` and `PlaceOrder` (the comma-joined product request, the order and
its events, publishing), `CounterOrder` (applying updates to one order object), `OrderRepository` (the
transactions and the handler), `OrderConcurrency` and `OrderInterleaving` (any number of handlers, each
writing back a private copy).

Four facts of the code worth knowing, each stated by a lemma below: a scan that is not ready, or whose
status write fails after taking effect, changes the persisted findings without events; a handler that
overlaps another of the same order can undo its update; an order with two lines of one item type is never
Fulfilled by serial updates of one order object; and item type 10, which prints the name of type 0, is
accepted and silently dropped from the order.

Assumed throughout: one operator at a time drives the drill; the source database's clock advances between
statements; a restore to time T replays exactly the commits up to T; a drill ID is new to the database; the
checksum's hash is collision-free, and the finding hash is collision-free on the identities of one scan;
UUIDs are new.

## Model

| member | source | states |
|---|---|---|
| Markers.ChecksumBindsPayload | cmd/migrate/restore_drill.go:287-290 | For one drill and marker, two checksums agree exactly when the payloads do |
| Markers.ChecksumBindsMarker | cmd/migrate/restore_drill.go:287-290 | Checksums of NUL-free drills and markers agree exactly when drill, marker and payload all do |
| Markers.SnapshotFrozen | cmd/migrate/restore_drill.go:138-151 | Commits after T never change the restored database as of T |
| Markers.RowsFollowLog | cmd/migrate/restore_drill.go:157-201 | In a committed history without cleanup a marker row exists exactly if it was ever inserted, and every insert carried the stored payload |
| Markers.CommitTimeWithin | cmd/migrate/restore_drill.go:157-201 | A restore to T sees a marker's first commit exactly when that commit is at or before T |
| Markers.BoundaryExact | cmd/migrate/restore_drill.go:203-251 | On any history interleaving any drills, validation of the snapshot as of T passes exactly when A was committed by T, B was not, the checksum is of A's payload and the application tables exist |
| MarkerStore.PostgresStore.InsertMarkerRow | cmd/migrate/restore_drill.go:157-201 | Succeeds exactly when the table is there or may be created and no other payload is stored; repeating it changes nothing; no stored payload is ever replaced and no other row touched |
| MarkerStore.PostgresStore.Validate | cmd/migrate/restore_drill.go:203-251 | The counting scan passes exactly when A is present with the expected checksum, B is absent and the tables exist |
| MarkerStore.PostgresStore.Cleanup | cmd/migrate/restore_drill.go:253-285 | Removes exactly the drill's rows, drops the schema exactly when no other drill has rows, and is idempotent |
| DrillMarkers.ExecKeeps | internal/platformctl/prod/restore_drill_engine.go:262-473 | Every run of steps keeps the marker invariant: restore time at or after A's commit and before B's, no step's result persisted before its effect |
| DrillMarkers.PersistedOnlyAdvances | internal/platformctl/prod/restore_drill_engine.go:475-483 | Persisted phases never go back; drill identity, restore time, target ARN and resource ID are write-once |
| DrillMarkers.RestoreBoundary | internal/platformctl/prod/restore_drill_engine.go:313-381 | In every run, a persisted restore time T satisfies commit(A) <= T < commit(B), B is committed only after T is persisted, and validating the source as of T can fail only for a missing application table |
| DrillMarkers.PhasesFollowMarkers | internal/platformctl/prod/restore_drill_engine.go:313-338 | A persisted phase is never ahead of the marker rows it stands for, and B's row never precedes window-ready |
| DrillApprovals.EveryEffectAuthorized | internal/platformctl/prod/restore_drill_engine.go:300-350 | In every history each marker write and restore follows a restore approval in the same call, each deletion a cleanup approval in the same call, of exactly the approved, drill-tagged target and never the source; markers go only after the target was seen absent |
| DrillApprovals.GateExecKeeps | internal/platformctl/prod/restore_drill_engine.go:397-471 | Every run keeps the approval invariant, including that phases past cleanup-pending were approved |
| DrillApprovals.RecordedResultsAreReal | internal/platformctl/prod/restore_drill.go:233-381 | Over every history, whatever outsiders do: a drill on record as validated had its target read with marker A at the persisted checksum, without marker B and with the four application tables; one on record as cleaned had an inventory with no target, no instance tagged for the drill and the source as preflight saw it |
| DrillTarget.SingleTarget | internal/platformctl/prod/restore_drill.go:159-231 | Without outside interference all calls together create at most one target, even when a restore takes effect but fails; it matches the persisted identity and holds the source as of the restore time |
| DrillTarget.ValidatedMeansRestorable | internal/platformctl/prod/restore_drill.go:233-249 | When nobody else touches the target, a validated drill shows that the source as of the persisted restore time holds marker A, not B, and all four application tables |
| DrillTarget.CalmKeeps | internal/platformctl/prod/restore_drill.go:443-473 | Every undisturbed run keeps the marker, approval and target invariants together |
| DrillTarget.InterruptionsLeaveNoTrace | internal/platformctl/prod/restore_drill_engine.go:262-383 | However often interrupted, a drill that validated leaves the same markers and one same target holding A only, up to times and RDS-issued names |
| DrillCleanup.CleanupLeavesNothing | internal/platformctl/prod/restore_drill_engine.go:439-471 | However cleanup was interrupted, from target-deleted on the target is gone for good and from source-marker-cleaned on no marker of the drill is left |
| DrillCleanup.StepKeepsGone | internal/platformctl/prod/restore_drill.go:295-333 | No step brings back a removed target or a cleaned marker |
| DrillFinish.CleanupSucceeds | internal/platformctl/prod/restore_drill_engine.go:439-471 | In every phase of Cleanup the operation succeeds when nothing fails and the outside serves what the phase waits for; the drill's own target always passes the checks before deletion |
| DrillFinish.EveryCleanupFinishes | internal/platformctl/prod/restore_drill_engine.go:397-473 | From every point an undisturbed history can leave a drill in, in any phase, every Cleanup in which nothing fails ends cleaned, with the target gone and no marker of the drill left |
| DrillFinish.HelpedCleanupFinishes | internal/platformctl/prod/restore_drill_engine.go:439-471 | From every position inside a Cleanup, every helped rest of the call finishes it |
| DrillFinish.HelpedCleanupExists | internal/platformctl/prod/restore_drill_engine.go:397-473 | Every drill whose configuration, source and tags are as prepared can be helped through Cleanup |
| DrillResume.TargetPasses | internal/platformctl/prod/restore_drill.go:233-249 | In every undisturbed run with a healthy source, validation of the available target passes |
| DrillResume.OperationSucceeds | internal/platformctl/prod/restore_drill_engine.go:313-381 | In every phase of Run the operation succeeds when nothing fails and the outside serves what the phase waits for |
| DrillResume.OperationHealthy | internal/platformctl/prod/restore_drill_engine.go:313-381 | No operation of Run takes the drill's health away: the source as prepared, a usable target, the application tables as of the restore time |
| DrillResume.HelpedCallCompletes | internal/platformctl/prod/restore_drill_engine.go:262-383 | From every position inside a call, every helped rest of the call completes the drill |
| DrillResume.RunCompletes | internal/platformctl/prod/restore_drill_engine.go:262-383 | From every resumable or new drill every helped Run ends without error, validated, leaving the same thing |
| DrillResume.HelpedRunExists | internal/platformctl/prod/restore_drill_engine.go:262-383 | Every resumable drill, and every new one whose preflight would pass, can be helped to the end |
| DrillResume.ResumedRunCompletes | internal/platformctl/prod/restore_drill_engine.go:262-383 | From every point an undisturbed history can leave a drill in before cleanup, every Run in which nothing fails and the outside keeps the drill healthy validates it and leaves what every completed drill leaves, whatever windows, identities and moves it meets |
| DrillResume.UninterruptedRunCompletes | internal/platformctl/prod/restore_drill_engine.go:262-383 | The same for every such Run that starts from preflight, with no drill on record |
| DrillResume.FreshDrill | internal/platformctl/prod/restore_drill_engine.go:273-299 | A first Run that dies right after saving its initial state leaves a drill that every such Run completes |
| DrillCalls.StepLowers | internal/platformctl/prod/restore_drill_engine.go:313-381 | In every position a call can go on, and each of its steps brings it nearer to its end, so every call ends |
| DrillCalls.RunIsExec | internal/platformctl/prod/restore_drill_engine.go:262-383 | However the outside behaves, a whole Run is a run of the transition system that ends idle |
| DrillCalls.CleanupIsExec | internal/platformctl/prod/restore_drill_engine.go:397-473 | However the outside behaves, a whole Cleanup is a run of the transition system that ends idle |
| DrillCalls.CallsKeep | internal/platformctl/prod/restore_drill_engine.go:262-473 | Every call keeps the marker and approval invariants |
| DrillCalls.AttemptStep | internal/platformctl/prod/restore_drill_engine.go:313-381 | A loop iteration is its phase's operation followed by the save of the next phase or of the failure |
| DrillChecks.MarkersWritten | cmd/migrate/restore_drill.go:157-201 | Writing a marker commits one insert of the drill's payload, for A with the table created if missing, and is done exactly when no other payload is stored and no fault occurs |
| DrillChecks.ClockRead | cmd/migrate/restore_drill.go:138-151 | The restore time is read from the source's own clock after A is committed, with the checksum of the stored A |
| DrillChecks.WindowAwaited | internal/platformctl/prod/restore_drill.go:135-152 | The wait ends exactly when a valid window covers the restore time, earliest included and latest excluded, and that window is kept |
| DrillChecks.TargetRequested | internal/platformctl/prod/restore_drill.go:159-205 | A restore is asked for exactly from the unchanged source, inside the current window, with no instance tagged for any drill; an existing target is taken over exactly when it is the one asked for; the new instance is private, encrypted, Single-AZ, without backups, tagged, and holds the snapshot |
| DrillChecks.TargetAwaited | internal/platformctl/prod/restore_drill.go:207-231 | The wait ends exactly when the target is available and matches identity, isolation, class, storage, network and tags |
| DrillChecks.TargetChecked | internal/platformctl/prod/restore_drill.go:233-249 | Validation passes exactly when the target is the one asked for, is isolated from the source's endpoint and resource ID, the Secret is unchanged, and it holds marker A at the checksum, no marker B and the four application tables |
| DrillChecks.TargetRemoved | internal/platformctl/prod/restore_drill.go:295-317 | Deletion is asked for exactly of the existing, not yet deleting target that carries the drill's identity and ownership tags; nothing else changes |
| DrillChecks.AbsenceAwaited | internal/platformctl/prod/restore_drill.go:319-324 | The wait for deletion ends exactly when the target is absent |
| DrillChecks.MarkersRemoved | cmd/migrate/restore_drill.go:253-285 | Marker cleanup leaves no row of this drill and every row of the others |
| DrillChecks.CleanVerified | internal/platformctl/prod/restore_drill.go:335-381 | Cleanup verification passes exactly when the target is absent, no instance carries the drill's tags, account, Region and source are as prepared with a valid window, and the Secret and inventories are in order |
| DrillChecks.ApprovalsAsked | internal/platformctl/prod/restore_drill_engine.go:300-312 | Run asks for approval exactly before the restore was requested, Cleanup exactly before the deletion was, and only with the drill's configuration and its own target |
| DrillChecks.AnythingMayHappen | internal/platformctl/prod/restore_drill_engine.go:262-473 | Between any two steps the engine may die, the clock move, instances come, change and go, and a table be dropped |
| DrillChecks.StepOnCourse | internal/platformctl/prod/restore_drill_engine.go:313-381 | Every step of every run leaves the persisted phase, moves it to the next one, or breaks off into cleanup-pending |
| DrillChecks.RecordIdentifiesDrill | internal/platformctl/prod/restore_drill_engine.go:73-104 | Over every history the record names one drill: source and target differ, tags own the target, the image is pinned by digest, and from window-ready on its window covered the restore time |
| DrillEngine.RestoreDrillEngine.SaveState | internal/platformctl/prod/restore_drill_engine.go:220-252 | Reports success exactly for a valid state whose write did not fail; a write that fails may have left the old or the new state, and an invalid state is never written |
| DrillEngine.RestoreDrillEngine.Transition | internal/platformctl/prod/restore_drill_engine.go:475-483 | Succeeds exactly when the operation is done and the next phase is saved; a failed operation leaves phase and state as they were |
| DrillEngine.RestoreDrillEngine.Run | internal/platformctl/prod/restore_drill_engine.go:262-383 | Ends in the same world as the driven transition system, without error exactly when that does; keeps the marker and approval invariants; a state it returns is the old one or validated, and a validated one had its restored database checked; when the outside helps, returns the validated drill at cleanup-pending |
| DrillEngine.RestoreDrillEngine.Cleanup | internal/platformctl/prod/restore_drill_engine.go:397-473 | Ends in the same world as the driven transition system, without error exactly when that does; keeps the invariants; returns only a drill whose last inventory held no target, nothing tagged for it and the source unchanged; when the outside helps, returns the cleaned drill with nothing of it left |
| DrillEngine.RestoreDrillEngine.RunOnce | internal/platformctl/prod/restore_drill_engine.go:314-380 | Succeeds exactly when the phase's operation is done and the next phase saved; then the call goes on from there, and otherwise it ends with an error |
| DrillEngine.RestoreDrillEngine.CleanupOnce | internal/platformctl/prod/restore_drill_engine.go:440-470 | Succeeds exactly when the phase's operation is done and the next phase saved; then the call goes on from there, and otherwise it ends with an error |
| DrillEngine.RestoreDrillEngine.EnterCleanup | internal/platformctl/prod/restore_drill_engine.go:403-438 | Enters the loop exactly when the transition system does: preflight passed, the approval its phase needs given, and cleanup-pending saved if it was not |
| DrillEngine.RestoreDrillEngine.OpenRun | internal/platformctl/prod/restore_drill_engine.go:268-312 | Enters the loop exactly when the transition system does, or returns a drill that is past its Run |
| DrillEngine.RestoreDrillEngine.StartDrill | internal/platformctl/prod/restore_drill_engine.go:273-299 | A new drill is on record exactly when its preflight and its first save succeeded |
| DrillEngine.RestoreDrillEngine.PassRestoreGate | internal/platformctl/prod/restore_drill_engine.go:303-312 | The loop is entered exactly when the restore is approved |
| DrillEngine.RestoreDrillEngine.RecordFailure | internal/platformctl/prod/restore_drill_engine.go:375-380 | A failed iteration ends the call with an error whether or not its own save succeeds |
| DrillEngine.RestoreDrillEngine.Stamp | internal/platformctl/prod/restore_drill_engine.go:457-461 | The second save after verify-clean decides the result |
| FindingIdentity.FieldRoundTrip | platform-ownership-guard/internal/detectors/identity.go:19-29 | A length-prefixed field can be read back, with its decimal length, whatever follows it |
| FindingIdentity.RoundTrip | platform-ownership-guard/internal/detectors/identity.go:19-29 | Decoding gives back the encoded fields, whatever separators or digits they hold |
| FindingIdentity.IdIdentifies | platform-ownership-guard/internal/detectors/identity.go:15-32 | Two findings share an ID exactly when they agree on rule version (after the default), detector, target without UID, class and context |
| PruneRiskFindings.KeyIdentifies | platform-ownership-guard/internal/detectors/argo_prune_risk.go:191-193 | Slash-free resources share a joined key exactly when they are the same resource |
| PruneRiskFindings.VerdictMeans | platform-ownership-guard/internal/detectors/argo_prune_risk.go:33-169 | A prune candidate in scope has no finding exactly when its application is trustworthy, it is no Secret and its last protection readably says Prune=false; it is Confirmed exactly when all evidence is present and auto-prune is on |
| PruneRiskFindings.VerdictSays | platform-ownership-guard/internal/detectors/argo_prune_risk.go:33-189 | For every resource, in scope or not: exactly when it is reported, and the class, confidence, severity by kind and missing evidence of the report |
| PruneRiskFindings.SameIdSameResource | platform-ownership-guard/internal/detectors/argo_prune_risk.go:33-43 | Equal IDs come from the same application, resource and verdict class |
| PruneRiskFindings.OneFindingEach | platform-ownership-guard/internal/detectors/evaluator.go:17-53 | After detection and deduplication each prune candidate in scope, and each resource in scope of an unreadable application, has exactly one finding carrying its verdict, or none when judged protected, whatever the other detector adds |
| PruneRiskFindings.EvaluatedIsIdentified | platform-ownership-guard/internal/detectors/evaluator.go:17-53 | The evaluator's output, with IDs of at most 128 characters, has no ID twice even when bounded, as the status and its events need |
| PruneRiskFindings.HashedIdsFit | platform-ownership-guard/internal/detectors/identity.go:30-31 | IDs made of a 64-digit hash are "sha256:" and that hash, 71 characters |
| PruneRisk.EvaluateArgoPruneRisk | platform-ownership-guard/internal/detectors/argo_prune_risk.go:19-173 | The nested loops report exactly the resources judged, sorted by ID |
| PruneRisk.IndexProtections | platform-ownership-guard/internal/detectors/argo_prune_risk.go:24-29 | The index holds under each key the protection recorded last |
| PruneRisk.Deduplicate | platform-ownership-guard/internal/detectors/evaluator.go:41-49 | Keeps exactly one finding per reported ID, the first |
| PruneRisk.Evaluate | platform-ownership-guard/internal/detectors/evaluator.go:17-53 | The output's IDs strictly increase and represent every ID the enabled detectors reported; nothing else is output |
| Ordering.SortedUnique | platform-ownership-guard/internal/controller/status_builder.go:276-289 | Under a strict total order two sorted permutations of the same values are equal, so the sorting algorithm does not matter |
| Ordering.StringLessMeans | platform-ownership-guard/internal/controller/status_builder.go:276-289 | A string is less exactly when it is a proper prefix or smaller at the first difference |
| Findings.FindingOrder | platform-ownership-guard/internal/controller/status_builder.go:276-306 | Severity, detector, target and ID give a strict total order when IDs identify findings |
| Findings.SanitizedWithinLimits | platform-ownership-guard/api/v1alpha1/ownershipaudit_types.go:175-211 | A sanitized finding meets the schema's maximum lengths and item limits, no required text is emptied, and sanitizing twice changes nothing |
| Findings.SanitizedIsCut | platform-ownership-guard/internal/controller/status_builder.go:181-207 | Sanitizing cuts each text to exactly its limit, sorts the missing evidence, and changes nothing else |
| Findings.MissingIsFirst | platform-ownership-guard/internal/controller/status_builder.go:191-206 | The missing evidence kept is that of a first stretch of the list, duplicates and empty entries apart, which ends before the list only with eight kept |
| Findings.BoundIgnoresOrder | platform-ownership-guard/internal/controller/status_builder.go:181-215 | The bounded list is the same for every permutation of the input |
| Findings.BoundKeepsTop | platform-ownership-guard/internal/controller/status_builder.go:181-215 | Keeps the 100 highest-priority findings in order; every dropped one ranks below every kept one; kept + truncated = total |
| Findings.SeverestKept | platform-ownership-guard/internal/controller/status_builder.go:181-302 | For every input: High stands before Warning before Info, then detector, target and ID; a High is dropped only if 100 Highs are kept, a Warning only if no Info is |
| Findings.BoundWithinLimits | platform-ownership-guard/api/v1alpha1/ownershipaudit_types.go:255-265 | The list meets the schema: at most 100 findings, unique IDs, every finding within its limits, and no required text empty if none came empty |
| Findings.BoundIdempotent | platform-ownership-guard/internal/controller/status_builder.go:181-215 | Bounding a bounded list changes nothing and truncates nothing |
| BoundFindings.SortFindings | platform-ownership-guard/internal/controller/status_builder.go:276-289 | Sorts the slice in place into the sorted permutation |
| BoundFindings.BoundMissingEvidence | platform-ownership-guard/internal/controller/status_builder.go:191-206 | Keeps the first eight distinct non-empty entries, each cut to 128 characters |
| BoundFindings.BoundFindings | platform-ownership-guard/internal/controller/status_builder.go:181-215 | The loops over a copied slice compute the bounded list, by severity written out, and lose no finding from the count |
| Transitions.ComputeFindingTransitions | platform-ownership-guard/internal/controller/transition.go:26-98 | The two loops compute the diff; nothing is reported when the inventory is not ready |
| Transitions.DiffReplays | platform-ownership-guard/internal/controller/transition.go:26-98 | Replaying the diff over the old ID to level map gives exactly the new map, and each transition is true where it stands |
| Transitions.DiffTells | platform-ownership-guard/internal/controller/transition.go:46-95 | For any two lists, each transition says truly what happened to its finding and carries the finding it was before, and no finding with an ID goes without one |
| Transitions.ReplayExactly | platform-ownership-guard/internal/controller/transition.go:26-98 | For any two lists, repeated IDs or not, the published events replay to the new map exactly when no ID that ends at its old level was also listed at another; unique IDs suffice |
| Transitions.PublishedReplays | platform-ownership-guard/internal/controller/ownershipaudit_controller.go:201-243 | Leaving out unchanged transitions loses nothing an observer needs |
| Transitions.PublishedLegal | platform-ownership-guard/internal/controller/ownershipaudit_controller.go:201-243 | Every published event is true where it stands |
| Transitions.AddedAlternates | platform-ownership-guard/internal/controller/transition.go:48-59 | Between two Added events of an ID there is a Resolved one |
| Transitions.ResolvedAlternates | platform-ownership-guard/internal/controller/transition.go:79-95 | Between two Resolved events of an ID there is an Added one |
| Transitions.RepeatedIdBreaksReplay | platform-ownership-guard/internal/controller/transition.go:38-43 | An ID listed at a higher level and then at its old one makes the events miss the way back |
| AuditStatus.WorstIsFirstWorst | platform-ownership-guard/internal/controller/status_builder.go:115-137 | The reported snapshot failure is the first error of the highest priority, and there is one exactly when there is an error |
| AuditStatus.SummaryAddsUp | platform-ownership-guard/internal/controller/status_builder.go:165-178 | Confirmed, suspected and insufficient counts add up to the total |
| AuditStatus.SummarizeFindings | platform-ownership-guard/internal/controller/status_builder.go:165-178 | Each count is the number of places that hold its confidence, and the three add up to the total |
| AuditStatus.ReadyExactly | platform-ownership-guard/internal/controller/status_builder.go:61-71 | A scan is ready exactly when collection raised nothing, discovery is available or not needed and no classed error leads the evidence (or the discovery error has no class); such an error gives the reason |
| AuditStatus.StatusAccounts | platform-ownership-guard/internal/controller/status_builder.go:73-97 | Kept plus truncated is the total, each count is that of its confidence, a status that is not ready reports missing evidence, both conditions carry the verdict with its reason and message, and the heartbeat moves exactly when a ready scan is due |
| AuditStatus.PassLeavesWanted | platform-ownership-guard/internal/controller/ownershipaudit_controller.go:131-138 | After a pass that does not fail, written or skipped, the persisted generation, heartbeat, counts, findings and both conditions with status, reason, message, generation and time are those the scan wants |
| AuditStatus.WrittenExactly | platform-ownership-guard/internal/controller/status_builder.go:248-267 | With no ID and no kind twice, a status is written exactly when more than list order and transition times differs |
| SnapshotFailures.WorstErrorDecides | platform-ownership-guard/internal/controller/status_builder.go:115-163 | Without an error in any evidence the scan is ready; otherwise the reason is an error raised, and no error of a known class is passed over for one of a lesser class |
| SnapshotFailures.UncollectedFails | platform-ownership-guard/internal/controller/status_builder.go:61-71 | A collection error gives the reason; without one a missing snapshot counts as a failed read |
| SnapshotFailures.UndiscoveredFails | platform-ownership-guard/internal/controller/status_builder.go:103-113 | A failed discovery gives the class of its error, or the one its state stands for |
| SnapshotFailures.SelectFailure | platform-ownership-guard/internal/controller/status_builder.go:99-137 | The three loops select the first error of the highest priority over applications, protections and owners |
| AuditStatus.AuditReconciler.ReconcileOnce | platform-ownership-guard/internal/controller/ownershipaudit_controller.go:55-199 | A pass that does not fail leaves the wanted status with both conditions and their reasons in place, and then publishes; a failed status write publishes nothing |
| AuditRuns.EventsReplayRun | platform-ownership-guard/internal/controller/ownershipaudit_controller.go:88-148 | Over any run of ready scans the published events, replayed over the starting map, give exactly the map of the final persisted findings |
| AuditRuns.ScanReplaysExactly | platform-ownership-guard/internal/controller/ownershipaudit_controller.go:128-148 | A scan's events account for the change exactly when it was ready with no failed-but-effective write, or nothing was written, or no level changed |
| AuditRuns.UnreadyScanBreaksReplay | platform-ownership-guard/internal/controller/transition.go:26-29 | A scan that is not ready can drop persisted findings without an event |
| AuditRuns.SilentExactly | platform-ownership-guard/internal/controller/transition.go:26-98 | Nothing is published exactly when no finding appeared, disappeared or changed level |
| AuditRuns.EqualStatusIsSilent | platform-ownership-guard/internal/controller/status_builder.go:247-267 | Semantically equal statuses publish nothing, so a skipped patch never publishes |
| AuditRuns.SameEvidenceSameStatus | platform-ownership-guard/internal/controller/status_builder.go:38-97 | Two passes over the same evidence want semantically equal statuses, whatever is persisted and whenever they run |
| AuditRuns.RescanIsQuiet | platform-ownership-guard/internal/controller/ownershipaudit_controller.go:117-148 | Reconciling again over unchanged evidence publishes nothing and wants the persisted status but for the heartbeat |
| AuditRuns.TransitionTimeIsLastFlip | platform-ownership-guard/internal/controller/status_builder.go:217-245 | Over any run a condition's transition time is the time of the last scan that flipped it |
| AuditRuns.HeartbeatStep | platform-ownership-guard/internal/controller/status_builder.go:92-95 | The heartbeat becomes the scan's time exactly when the scan was ready, the resync interval has passed and the write took effect |
| AuditRuns.HeartbeatPace | platform-ownership-guard/internal/controller/status_builder.go:92-95 | Over any run, whatever the clock does, the heartbeat advances by at least the intervals of the scans that moved it |
| CounterOrder.Order.Apply | internal/counter/domain/order.go:112-132 | Marks the first line of the type and nothing else, completes the order exactly when all lines are done, refuses exactly an unknown type, without change, and accepts any type for an empty order |
| CounterOrder.CheckFulfilledStatus | internal/counter/domain/order.go:134-142 | The loop says whether every line is Fulfilled |
| CounterOrder.RunIsOutcome | internal/counter/domain/order.go:112-132 | Serial updates of one order give a result that depends only on the set of item types delivered |
| CounterOrder.Confluent | internal/counter/domain/order.go:112-132 | Updates in another order or repeated give the same order |
| CounterOrder.FulfilledExactly | internal/counter/domain/order.go:112-142 | A new order ends Fulfilled exactly when it has lines, no type twice, and every line's type was delivered |
| OrderConcurrency.StatusLink | internal/counter/events/handlers/barista_order_updated.go:27-52 | For any number of handlers in any interleaving, a committed order with lines is Fulfilled exactly when all its lines are, and each Fulfilled line's type was in a committed update |
| OrderConcurrency.ExecKeeps | internal/counter/events/handlers/barista_order_updated.go:27-52 | Every run of reads, applies, writes and failures keeps that link in the tables and in every private copy |
| OrderConcurrency.ReadJustified | internal/counter/infras/repo/orders_postgres.go:103-164 | A read copy, in any row order, carries the link of the tables it was read from |
| OrderConcurrency.CommitMeans | internal/counter/infras/repo/orders_postgres.go:219-259 | A whole-order write makes the order's rows those of the copy and leaves every other row alone |
| OrderInterleaving.LinesConserved | internal/counter/infras/repo/orders_postgres.go:166-259 | In every run no line is lost, added to an existing order or changed but for its status |
| OrderInterleaving.WriteReverts | internal/counter/events/handlers/barista_order_updated.go:42-49 | A write takes a line back from Fulfilled exactly when the handler read it before it was Fulfilled and carries another line's update |
| OrderInterleaving.CurrentWriteIsSerial | internal/counter/events/handlers/barista_order_updated.go:27-52 | If nothing was written to the order since the read, the write is one serial update of the committed order |
| OrderInterleaving.TurnsLoseNothing | pkg/rabbitmq/consumer/consumer.go:97-99 | When handlers of one order never overlap, a line of an order with distinct types is Fulfilled exactly when its update was committed, and so is the order exactly when all were |
| OrderInterleaving.OverlapLosesUpdate | pkg/rabbitmq/consumer/consumer.go:97-99 | Two overlapping handlers: both updates commit and the first line goes back from Fulfilled |
| OrderRepository.OrderRepo.GetByID | internal/counter/infras/repo/orders_postgres.go:103-164 | Returns a new object with each row once, in some order; fails exactly for an order without lines |
| OrderRepository.OrderRepo.Create | internal/counter/infras/repo/orders_postgres.go:166-217 | Inserts the order with all its lines, or nothing; a commit may land and still report an error |
| OrderRepository.OrderRepo.Update | internal/counter/infras/repo/orders_postgres.go:219-259 | Writes the status of the order and of all its lines by line ID, or nothing; a commit may land and still report an error |
| OrderRepository.OrderRepo.Handle | internal/counter/events/handlers/barista_order_updated.go:27-52 | Succeeds exactly when the order has a line of the type and the commit is confirmed; when the commit lands it is one read, apply, write run, and otherwise the tables are left alone |
| Menu.SplitJoined | internal/counter/infras/grpc/product_client.go:46-57 | Splitting the trimmed request gives back the joined names, for any comma-free names with a non-empty first |
| Menu.GetByTypes | internal/product/infras/repo/products_inmem.go:100-114 | One menu entry per name in order, and a panic exactly when some name is not on the menu |
| Menu.GetItemsByType | internal/product/usecases/products/service.go:35-44 | The client's loop and the service together answer the split of the joined request |
| Menu.PriceList | internal/product/infras/repo/products_inmem.go:20-83 | The menu entry of each item type, with its price |
| Menu.EveryItemAnswered | internal/counter/infras/grpc/product_client.go:39-71 | The round trip through string and menu answers every requested item, in order |
| PlaceOrder.CreateOrderFrom | internal/counter/domain/order.go:37-110 | For every product answer, event i is BaristaOrdered exactly when line i is the barista's and carries the order, line ID and item type; it fails exactly when a product call it needs fails |
| PlaceOrder.PriceFromMenu | internal/counter/domain/order.go:54-58 | The first match in the answer gives the menu price, and only type 10 finds none |
| PlaceOrder.EveryItemServed | internal/counter/domain/order.go:37-110 | End to end, an order has one line per requested item of types 0 to 9, in order, at the menu price |
| PlaceOrder.NothingDroppedExactly | internal/pkg/shared_kernel/enums.go:67-81 | No requested item is dropped exactly when type 10 is not requested; then line i has the requested type, and name, type and price of one menu entry |
| PlaceOrder.StationsAnnounced | internal/counter/domain/order.go:37-110 | End to end, a request without type 10 makes its barista items, in order, BaristaOrdered events and its kitchen items KitchenOrdered ones |
| PlaceOrder.PlacedOrderStarts | internal/counter/usecases/orders/service.go:55-80 | With new UUIDs a placed order is one the concurrent system can create |
| PlaceOrder.PlacedOrderCompletes | internal/counter/domain/order.go:37-142 | From request to completion: with distinct types the order is Fulfilled exactly when every requested type was delivered |
| PlaceOrder.SentIsPrefix | internal/counter/usecases/orders/service.go:87-118 | What reaches the broker is a prefix of the events, confirmed but for its last, cut short only by a failed publish |
| PlaceOrder.OrderService.PublishAll | internal/counter/usecases/orders/service.go:87-118 | The loop publishes that prefix, each event on the queue of its station, and succeeds exactly when every publish was confirmed |
| PlaceOrder.OrderService.PlaceOrder | internal/counter/usecases/orders/service.go:55-119 | Nothing is published unless the commit of the order was confirmed; then a prefix of its events is, all of them on success; a request without type 10 puts the barista's items in order on the barista queue and the rest on the kitchen queue |

## Left out

- DrillEngine.RestoreDrillEngine.Run: a crash inside the call is a step of the transition system, not of this method, which always returns.
- DrillEngine.RestoreDrillEngine.Cleanup: the same holds for a crash inside this call.
- DrillResume.ResumedRunCompletes: assumes that the outside leaves the source as preflight saw it, the target usable, no other tagged target in the way before the restore, and the application tables in the restored snapshot.
- DrillTarget.SingleTarget: assumes nobody outside the drill creates, alters or removes its target; without that assumption EveryEffectAuthorized still holds.
- PruneRisk.Evaluate: which of several findings with one ID survives is left open, since the sort before deduplication is not stable.
- PlaceOrder.CreateOrderFrom: item types outside 0 to 10 panic in the source and are excluded by precondition.
- OrderRepository.OrderRepo.GetByID: orders that do not exist are excluded; the handler dereferences a nil order for them.
- Drill state fields LastError, CreatedAt, UpdatedAt, RestoreRequestedAt, TargetAvailableAt and CleanedAt; ValidatedAt is kept as a flag.
- The drill's Secret hash and its snapshot, managed-secret and Job inventories are one arbitrary outcome; polling loops are one step that observes success or fails.
- Late effects of a migration Job that outlives its call, whether the call returned or the engine crashed before its deferred delete; in particular a late marker write between the marker cleanup and the deletion of Jobs by label.
- More than one operator at a time.
- Freshness of the random drill ID is assumed; the action dispatch and ID pattern of the migration job add only field checks.
- Times are integers; condition times and heartbeats are whole seconds as stored in the API.
- Nil and empty lists are one value, so the claim of quiet rescans is about equal content, not about whether a patch call is sent.
- Finding summary and remediation texts are parameters; the StaleOwnerReference detector's findings and the inventory snapshot are arbitrary.
- Sorting calls of the library are an insertion sort here; with unique IDs the result is shown to be the only one.
- Telemetry, requeue timing, event text, evidence recording and logging.
- Prices are exact reals: every menu price is exact in the source's floating-point types.
- Which messages reach the counter: any update event may arrive at any time, any number of times.
- The kitchen handler is the barista handler with another event type.
- The leaked, never committed transaction after a failed insert or update has no effect on the tables.
- Order location, order source and loyalty member; `GetAll` grouping; AWS, Kubernetes, Terraform, Helm and CI tooling; the other environment engines, catalogs, web UI and generated code.
