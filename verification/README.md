# Tau: proofs about the metrics collector and its neighbours

This project models the parts of Tau where a mistake costs data or trust, and
proves what they promise. It has one large core and seven smaller ones.

**The crash-safe metrics collector.** It tails growing JSONL files, projects
complete records to events, writes one immutable pending chunk to disk, delivers
it to a sink, advances a durable checkpoint and removes the chunk; a crash may
fall between any two of these steps, and a delivery may succeed without being
reported. `CollectorProtocol` is the protocol as a transition system over what
survives a crash (checkpoint file, pending directory, ready and done files, the
sink), the files the workload writes meanwhile, which may change in any way between
two steps, and a record of the past that the program never reads.
`CollectorSafety` and `CollectorTheorems` prove the invariant and what follows
from it in every state. `CollectorRuns` and `CollectorOutcomes` are about whole runs:
every text the theorems speak of is one the file held when it was read, the done file
means that what the listed files held is in the sink, and nothing below a baseline is.
`CollectorProgress` shows that no reachable state is stuck, and exactly which statuses can
be recorded; `CollectorFaults` why a failed checkpoint write must end the process.
`CollectorRunner` is the program itself, a class whose
methods reassign the files and the in-memory checkpoints in the source's order;
each method is proved to take only steps of the protocol (the shapes of those steps are
in `CollectorSteps`), so every state any number of crashing processes can leave
satisfies the theorems.
Below it lie the texts and records (`SourceText`, `Telemetry`, `Ndjson`), the
manifests and checkpoints (`Spool`), the names in the pending directory
(`SpoolNames`), the durable file operations over a file system that loses what
was not synced (`DurableFiles`), the making of storage directories
(`StorageDirectories`), and the time budget of one delivery (`DeliveryBudget`).

**Around it.**
`Publication` is the staged publication script as an interleaving of system calls
of any number of publishers, `PublicationRestarts` lets them be killed and started
again, and `PublicationLimits` shows where the naming conditions are needed.
`EditDistance`, `ConfigKeys`, `ConfigTables` and `ConfigFields` are the
configuration-key checker. `ProfileCatalogue`, `ProfileSnapshots` and
`ProfileSelection` are the workload-profile catalogue. `RunSnapshot`, `RunPhases`
and `RunStatus` derive the state of a run. `RunHistory` merges durable history into
the live board, over the stable sort of `StableOrder`. `ShellQuoting` and
`LabelValues` are the quoting of arguments and the making of label values.

## What the proofs found

- The zero-event branch of a drain updates the in-memory checkpoint before the
  durable write. A process that goes on after that write failed, as one whose context was
  cancelled does, can leave a chunk that every later start refuses
  (`CollectorFaults.GoingOnWedges`), from the very first drain on
  (`CollectorFaults.GoingOnIsPossible`), so the theorems are about crashes: a failed durable
  write ends the process.
- A workload's status can be recorded, and the done file written, if and only if its
  completion time is set and of a four-digit year and no configured tag is named like a
  field of an event (`CollectorProgress.StatusRecordedIff`,
  `CollectorProgress.WorkloadConcludedIff`). A completion file with the zero time, as a
  program with an unset time writes it, is accepted when it is read and refused by every
  attempt to record it (`CollectorProgress.UnsetTimeIsNeverRecorded`), and so is every
  status with a tag such as `source` (`CollectorProgress.ProtectedTagBlocksStatus`).
- A terminal record's tag is distinct for distinct accepted statuses exactly when the
  configured tags do not stand in for an empty reason or message, or no status is accepted
  (`CollectorTheorems.StatusesHaveDistinctTags`).
- A drain with trailing records that meets an unterminated record counts its line at once.
  The line counter is ahead by one for every later slice that starts inside a record, so it
  is right exactly when there is no such slice (`Telemetry.TornSlicesMiscount`); if the text
  goes on with the newline the next drain refuses the file
  (`Telemetry.LateNewlineIsRefused`). Only trailing drains can tear a record
  (`CollectorRuns.TornSlicesAreTrailing`).
- Between the rename and the sync of the directory a durable write is already visible and
  can still be lost (`DurableFiles.SeenRenameCanRevert`), and a removal that only finds an
  earlier unsynced removal reports success without a sync
  (`DurableFiles.Disk.RemoveDurable`).
- Looking up a single configuration path agrees with the walk over a document exactly when,
  over tables that contain the parent of every key, no schema-only key is decided by a
  descending passthrough key and no descending passthrough key lies below a key the walk
  stops at (`ConfigTables.LookupAgreesWithWalk`). The second half is easy to overlook; the
  shipped tables meet both.
- Two publication scripts with one process id (two pods on one volume) that stage one name
  can change a committed file, and a file staged under the temporary name of another script
  can be deleted after it was committed; otherwise committed files are safe
  (`PublicationLimits.StableIffTempIsApart`). One process id in runs that stage different
  names, or that follow each other, does no harm (`Publication.CommittedNeverChanges`,
  `PublicationRestarts.CommittedOutlivesRestarts`).
- A run can be watch-complete and watch-failed at once in exactly one situation
  (`RunStatus.BothVerdictsIff`). The headline agrees with the lifecycle state on every
  snapshot a status query builds (`RunStatus.HeadlineAgreesWithLifecycle`); it would not if
  a Job's conditions were filled in without the Job having been found
  (`RunStatus.HeadlineAgreesIff`, `RunStatus.StrayConditionsDisagree`), which
  core/status/hydrate_jobs.go:65-69 does only after core/status/fetch.go:32, 62 or 128.
- A run of a RayJob alone counts as started only once the RayJob has succeeded, however
  healthy its pods are (`RunStatus.RayJobStartedIff`): the release phase stays pending while
  it runs.
- Normalising a profile name twice is normalising it once exactly when the name, trimmed of
  white space and then of dots, has no white space other than a blank at an end
  (`ProfileCatalogue.NameIsFixpointIff`); `".\ta"` does
  (`ProfileCatalogue.NameNormalizationCanMove`). The catalogue's fixpoint rests on the
  validation after it.
- A resource key names one resource exactly when its parts hold no slash but one at the very
  ends of the key or a namespace that is one (`RunHistory.ResourceKeyIdentifies`); among
  namespaces and uids without slashes, as those of Kubernetes, it always does
  (`RunHistory.KubernetesKeysIdentify`).

## Model

| member | source | states |
|---|---|---|
| CollectorTheorems.StepKeepsInv | metrics/experiment-metrics-collector/collector.go:153-444 | every durable step, submission, crash or observation keeps the whole protocol invariant |
| CollectorTheorems.ReachableStatesAreSafe | metrics/experiment-metrics-collector/collector.go:285-356 | every state reachable from an empty disk by any run, restarts anywhere, satisfies the invariant |
| CollectorTheorems.ExactlyOnce | metrics/experiment-metrics-collector/collector.go:358-444 | the sink's measurements of a source are exactly the projection of the text consumed so far, once and in order, plus at most the one pending chunk |
| CollectorRuns.WholeFileOnce | metrics/experiment-metrics-collector/collector.go:446-486 | over every run whose reads of a source, but for the last, end at record ends, shutdowns and restarts included, the sink holds the source as projected in one go: everything consumed after its baseline, and at most the chunk in flight beyond that |
| CollectorTheorems.SinkHoldsLogEvents | metrics/experiment-metrics-collector/adx_queued.go:289-304 | an idempotent sink given a log's chunks holds each source's events once, because history chunks have distinct tags |
| CollectorTheorems.HistoryTagIsNew | core/exptelemetry/history.go:104-114 | path and line tags make a history chunk's digest differ from every earlier one |
| CollectorTheorems.AcknowledgedMeansAccepted | metrics/experiment-metrics-collector/collector.go:423-433 | acknowledged sequence numbers are 1, 2, 3 and on without a gap, and each chunk's tag is in the sink exactly once |
| CollectorTheorems.RestartAcceptsEveryState | metrics/experiment-metrics-collector/collector.go:159-203 | whatever a crash leaves loads: at most one pending chunk, valid, and either next (the checkpoint can advance for it) or last (already acknowledged) |
| CollectorTheorems.RedeliveryCarriesSameBytes | metrics/experiment-metrics-collector/collector.go:186-192 | two submissions with one sequence number carry the same payload |
| CollectorTheorems.TerminalsAreRecordedOnce | metrics/experiment-metrics-collector/collector.go:496-572 | each terminal observation is recorded by at most one chunk, the one in flight included, over all restarts and cancellations, and once acknowledged the sink holds it |
| CollectorTheorems.AtMostOneTagRecords | metrics/experiment-metrics-collector/collector.go:496-572 | the sink accepts at most one tag for a terminal observation |
| CollectorTheorems.StatusesHaveDistinctTags | metrics/experiment-metrics-collector/collector.go:506-513 | different accepted statuses have different events if and only if no configured tag replaces an empty reason or message, or the tags are such that no status is accepted |
| CollectorTheorems.DoneMeansEverythingDelivered | metrics/experiment-metrics-collector/collector.go:574-607 | with the done file out, each text of the final drain was at some time all that was consumed of its source, and the log holds the record of the workload's own status, accepted by the sink |
| CollectorOutcomes.DoneMeansFilesWereDrained | metrics/experiment-metrics-collector/collector.go:574-607 | for every run that ends with the done file: the files drained last were all the matching files at a listing made after completion was seen, each drained text is what its file held when it was read after that and is fully consumed, and the status recorded and accepted is a valid one read from the completion file |
| CollectorOutcomes.RefusedStatusIsNeverConcluded | metrics/experiment-metrics-collector/collector.go:517-529 | a run in which every status read was refused never writes the done file |
| CollectorOutcomes.SinkHoldsEveryListedFile | metrics/experiment-metrics-collector/collector.go:574-607 | for every run that ends with the done file: the sink's events of a listed file start with the projection of everything the file held at the final drain beyond its baseline, slice by slice, and in one go if no read but the last ended inside a record |
| CollectorOutcomes.SinkStartsWith | metrics/experiment-metrics-collector/collector.go:358-444 | what the sink holds of a source starts with the projection of whatever had been consumed of it earlier |
| CollectorOutcomes.BaselineIsNeverDelivered | metrics/experiment-metrics-collector/collector.go:306-317 | a baseline is the complete part of a text the file held, and no event of a line below it is ever in the sink |
| CollectorRuns.RunsAreTrue | metrics/experiment-metrics-collector/history.go:84-142 | every text, listing and status the protocol speaks of was read from the world at some moment of the run |
| CollectorRuns.TornSlicesAreTrailing | metrics/experiment-metrics-collector/history.go:122-129 | without trailing drains every read ends at a record end, and if trailing drains come last every read but the last does |
| CollectorRuns.CutsAreReads | metrics/experiment-metrics-collector/history.go:115-142 | the slices of a source are cut where its reads ended, over all restarts |
| CollectorTheorems.NothingIsSkippedAfterReady | metrics/experiment-metrics-collector/collector.go:306-322 | in baseline mode, once the ready file is out no later byte is skipped and no restart sets a baseline again |
| CollectorTheorems.StepOnlyGrows | metrics/experiment-metrics-collector/collector.go:358-444 | what was skipped, consumed, acknowledged or accepted stays so after any step |
| CollectorProgress.RecoveryCanComplete | metrics/experiment-metrics-collector/collector.go:153-203 | from every reachable state some steps empty the spool, and the chunk that was pending ends up acknowledged: a crash never wedges the collector |
| CollectorProgress.WorkloadCanBeConcluded | metrics/experiment-metrics-collector/collector.go:574-607 | once every listed source is consumed to its end and the spool is empty, a status that is accepted can be recorded and the done file written for it |
| CollectorProgress.StatusRecordedIff | metrics/experiment-metrics-collector/collector.go:517-529 | from every reachable state, the status in the completion file can be recorded if and only if its time is set and of a four-digit year and no configured tag is protected |
| CollectorProgress.WorkloadConcludedIff | metrics/experiment-metrics-collector/collector.go:574-607 | with everything listed consumed and an empty spool, the done file can be written for it if and only if the same holds |
| CollectorProgress.UnsetTimeIsNeverRecorded | core/exptelemetry/metric.go:160-168 | no steps from any reachable state record a status with the zero time |
| CollectorProgress.ProtectedTagBlocksStatus | core/exptelemetry/metric.go:146-150 | with a tag named source no steps record any status |
| CollectorFaults.GoingOnWedges | metrics/experiment-metrics-collector/collector.go:395-404 | a process that goes on after a failed checkpoint write of a silent read leaves a valid chunk, next in sequence, that the checkpoint on the disk cannot be advanced for |
| CollectorFaults.GoingOnIsPossible | metrics/experiment-metrics-collector/collector.go:395-404 | one record without metrics and one with, read in two drains of a new file, are such a case |
| CollectorProgress.StatusCanBeRecorded | metrics/experiment-metrics-collector/collector.go:496-572 | from every state with an empty spool a status that was read and is accepted can be recorded |
| CollectorRunner.Runner.Run | metrics/experiment-metrics-collector/collector.go:285-356 | a process takes only protocol steps and never refuses its own spool; if it completes, the spool is empty, a final drain has reached the ends of all files it listed, the workload's own status is recorded and the done file written; if it ends without completion or error, no complete record of the files listed last is left; it counts exactly what it acknowledged; and it fails only if something outside failed, a file or the completion file is unfit, or the terminal event is refused |
| CollectorRunner.Runner.Lifetime | metrics/experiment-metrics-collector/collector.go:285-356 | any number of processes in a row, each ending anywhere, keep the protocol invariant |
| CollectorRunner.Runner.Start | metrics/experiment-metrics-collector/collector.go:290-322 | load, replay, listing, baseline and ready in this order leave an empty spool, memory in step with the disk, and the ready file; a first start in baseline mode leaves exactly the baseline of the listed files as they were read |
| CollectorRunner.Runner.ReplaySpool | metrics/experiment-metrics-collector/collector.go:153-203 | a pending chunk is redelivered and acknowledged, or removed when already acknowledged, and never rejected |
| CollectorRunner.Runner.Redeliver | metrics/experiment-metrics-collector/collector.go:178-202 | the next chunk is accepted before the checkpoint advances, and the checkpoint advances before the file goes |
| CollectorRunner.Runner.Send | metrics/experiment-metrics-collector/collector.go:411-433 | a chunk in the spool is delivered, then checkpointed, then removed and counted, each only if the one before succeeded |
| CollectorRunner.Runner.Drain | metrics/experiment-metrics-collector/collector.go:358-444 | the listed files are read and exactly they are consumed, each to the last newline of what it held, or to the end with trailing records; a final drain records the texts whose ends it reached; a vanished source that is no baseline fails the drain |
| CollectorRunner.Runner.DrainSource | metrics/experiment-metrics-collector/collector.go:372-442 | one source moves to the last newline, or the end, of what its file held when it was read, a final drain records that text, and no other source moves |
| CollectorRunner.Runner.RebindMoved | metrics/experiment-metrics-collector/collector.go:381-390 | a replaced file is checkpointed under its new identity before a chunk is written from it |
| CollectorRunner.Runner.ProjectRead | metrics/experiment-metrics-collector/collector.go:446-486 | the loop over records yields the projection of the read, or fails exactly when that does |
| CollectorRunner.Runner.DeliverHistory | metrics/experiment-metrics-collector/collector.go:406-441 | write, deliver, checkpoint and remove happen in this order, each only if the one before succeeded |
| CollectorRunner.Runner.WritePending | metrics/experiment-metrics-collector/spool.go:261-293 | a new pending chunk is written under its own name; an existing file of that name is kept, and refused unless it is the same chunk |
| CollectorRunner.Runner.LoadPending | metrics/experiment-metrics-collector/spool.go:295-325 | the spool of any earlier process loads as nothing or as its one valid chunk |
| CollectorRunner.Runner.LoadCheckpoints | metrics/experiment-metrics-collector/spool.go:73-111 | the checkpoint file of any earlier process loads |
| CollectorRunner.Runner.Deliver | metrics/experiment-metrics-collector/collector.go:735-744 | delivery succeeds only if the sink holds the chunk's tag, whatever attempts were lost or unreported, and fails only if every attempt made went wrong |
| CollectorRunner.Runner.PublishCompletion | metrics/experiment-metrics-collector/collector.go:496-572 | success means the observation is in the durable terminals: recorded before, or recorded now by exactly one more acknowledged chunk, that status' terminal manifest; it is refused exactly if it was not recorded before and its event is not valid |
| CollectorRunner.Runner.FinishCompleted | metrics/experiment-metrics-collector/collector.go:574-607 | it completes only after a final drain that reached the ends of all listed files and with the workload's own status recorded, and writes the done file after both |
| CollectorRunner.Runner.FinishCancelled | metrics/experiment-metrics-collector/collector.go:609-663 | shutdown ends with everything listed consumed to its end, and either the workload's own status and the done file, or the configuration's one synthetic cancellation recorded |
| CollectorRunner.Runner.PublishOutcome | metrics/experiment-metrics-collector/collector.go:642-662 | a seen completion ends with the workload's own status recorded and the done file, an unseen one with one synthetic cancellation for the configuration |
| CollectorRunner.Runner.Baseline | metrics/experiment-metrics-collector/collector.go:306-317 | every listed file gets a checkpoint behind its last complete record, no other source gets one, and this is durable before anything else happens |
| CollectorRunner.Runner.ExpandHistory | metrics/experiment-metrics-collector/history.go:43-82 | the listing is the set of existing files the patterns name, each once and in increasing order |
| CollectorRunner.Runner.CompletionExists | metrics/experiment-metrics-collector/collector.go:815-827 | completion is seen exactly when a completion file is configured and exists, unless asking fails |
| CollectorRunner.Runner.PublishStatus | metrics/experiment-metrics-collector/collector.go:488-494 | the status read from the completion file is the one recorded |
| Spool.DrainAgreesWithReplay | metrics/experiment-metrics-collector/collector.go:423-429 | a drain and the replay of the chunk it left behind write the same checkpoint |
| Spool.TerminalAgreesWithReplay | metrics/experiment-metrics-collector/collector.go:245-283 | the same for a terminal chunk |
| Spool.StaleStartIsRefused | metrics/experiment-metrics-collector/collector.go:395-404 | a chunk that starts where only a lost checkpoint stood is refused on restart |
| SourceText.SlicedLineCount | metrics/experiment-metrics-collector/history.go:144-150 | line counters of two slices add up if and only if the cut is at a record end or the second slice is empty, and are one too high otherwise |
| SourceText.RecordsConcat | metrics/experiment-metrics-collector/collector.go:449-452 | cutting text at a record end splits its records in two |
| SourceText.RecordsCarryText | metrics/experiment-metrics-collector/collector.go:449-452 | records written back give the text again |
| SourceText.CompletePart | metrics/experiment-metrics-collector/history.go:122-129 | a drain without trailing records reads up to the last newline and leaves no newline behind |
| Telemetry.SlicingIndependence | metrics/experiment-metrics-collector/history.go:115-150 | however drains cut at record ends, line counters are true line numbers and the events are those of one projection |
| Telemetry.ProjectConcat | metrics/experiment-metrics-collector/collector.go:446-486 | projecting consecutive records is projecting each part at its own line |
| Telemetry.ProjectedLines | core/exptelemetry/history.go:104-114 | every projected event names its file and a line among those projected |
| Telemetry.TornSlicesMiscount | metrics/experiment-metrics-collector/history.go:144-150 | for any cuts the line counter exceeds the true number of lines by the number of non-empty slices that start inside a record, so it is right if and only if there is none |
| Telemetry.LateNewlineIsRefused | metrics/experiment-metrics-collector/collector.go:453-455 | a newline that arrives after its record was consumed makes the next projection fail |
| Ndjson.RoundTrip | metrics/experiment-metrics-collector/spool.go:479-506 | decoding an encoded chunk gives its events, UTC-normalised, in number and order |
| Ndjson.DecodedIsCanonical | metrics/experiment-metrics-collector/spool.go:479-506 | only canonical bytes decode: encoding the result gives the input back |
| Ndjson.PayloadDeterminesEvents | core/exptelemetry/metric.go:178-193 | two payloads are equal if and only if their normalised events are |
| Ndjson.DecodeCanonicalEvents | metrics/experiment-metrics-collector/spool.go:479-506 | the line loop refuses exactly the payloads with a bad line |
| SpoolNames.PendingNamesAreValid | metrics/experiment-metrics-collector/spool.go:257-259 | a pending name is accepted if and only if its sequence number fits twenty digits, which every uint64 does |
| SpoolNames.PendingNameIsInjective | metrics/experiment-metrics-collector/spool.go:257-259 | a pending name determines its sequence number and digest |
| SpoolNames.TempsAreRecognized | metrics/experiment-metrics-collector/spool.go:443-453 | a leftover temporary file is recognised and attributed to the file it was for |
| SpoolNames.PendingNamesAreNoTemps | metrics/experiment-metrics-collector/spool.go:443-469 | no pending name is taken for a temporary one |
| SpoolNames.SpoolFiles | metrics/experiment-metrics-collector/spool.go:412-441 | listing removes exactly the recognised leftovers and lists the rest in increasing order, and in the collector's own directory lists valid names only |
| DurableFiles.PowerLossDuringOperation | metrics/experiment-metrics-collector/spool.go:179-218 | a power loss anywhere in an operation leaves its file with one of the contents promised, and every other file with one it could have had before, settled from then on |
| DurableFiles.Disk.WriteFileDurable | metrics/experiment-metrics-collector/spool.go:179-218 | whatever possible contents earlier failed writes left of a file, at every system call and after a failure it reads as one of those or as the new content, and no other file is disturbed; on success only the new content remains, for good |
| DurableFiles.Disk.WriteTemp | metrics/experiment-metrics-collector/spool.go:184-206 | staging a write disturbs no reader, whichever call fails |
| DurableFiles.Disk.RemoveDurable | metrics/experiment-metrics-collector/spool.go:228-239 | a removal shows one of the old contents or no file; a successful one is lasting if and only if it found the file or its absence was lasting already |
| DurableFiles.RenameIsAtomic | metrics/experiment-metrics-collector/spool.go:207-217 | the rename switches the file over in one step, and syncing the directory makes it final |
| DurableFiles.WithinIsWhatSurvives | metrics/experiment-metrics-collector/spool.go:179-218 | a set of contents is possible for a file if and only if every power loss leaves the file with one of them |
| DurableFiles.Disk.PowerLoss | metrics/experiment-metrics-collector/spool.go:179-218 | after a power loss every file has one of its possible contents, settled |
| DurableFiles.SeenRenameCanRevert | metrics/experiment-metrics-collector/spool.go:211-217 | between rename and directory sync the new content is visible, and a power loss can bring the old one back |
| StorageDirectories.Storage.EnsureDirectory | metrics/experiment-metrics-collector/spool.go:146-177 | it ends; it makes exactly the missing ancestors, never asks for a directory whose parent is missing, and leaves a tree wherever it stops; nothing above, or a file in the way, is refused without a change |
| StorageDirectories.Storage.FindMissing | metrics/experiment-metrics-collector/spool.go:149-165 | the loop upwards finds the missing ancestors innermost first, or what stands in their way |
| StorageDirectories.Storage.MakeMissing | metrics/experiment-metrics-collector/spool.go:167-175 | making them in reverse never lacks a parent directory |
| StorageDirectories.ParentIsShallower | metrics/experiment-metrics-collector/spool.go:160-164 | taking the parent shortens a cleaned path except at the root and the working directory, where it stops |
| DeliveryBudget.TimeoutIsBudgetPlusGrace | core/metricsoffload/delivery.go:21-66 | no 64-bit overflow: a configuration is accepted if and only if its values are in range and attempts, backoffs and grace fit two hours, and the timeout is that exact sum |
| DeliveryBudget.WaitIsExact | metrics/experiment-metrics-collector/adx_queued.go:334-340 | no back-off of an accepted configuration wraps around |
| DeliveryBudget.Deliver | metrics/experiment-metrics-collector/adx_queued.go:272-343 | the retry loop stays within timeout minus grace, uses all of it when every attempt times out, and delivers exactly when some attempt is ingested after only retryable ones |
| DeliveryBudget.ShutdownLeavesOneDelivery | metrics/experiment-metrics-collector/collector.go:693-699 | the shutdown wait leaves one whole delivery budget |
| Publication.RunKeepsInv | cli/internal/artifactpublish/publish.go:114-212 | every interleaving of publishers keeps each one's progress justified by the directory |
| Publication.CommittedNeverChanges | cli/internal/artifactpublish/publish.go:165-194 | a committed file keeps its inode and content whatever publishers do that share no temporary name |
| Publication.DistinctPidsAreCompatible | cli/internal/artifactpublish/publish.go:165-166 | publishers with different process ids share no temporary name |
| Publication.MarkerMeansPublished | cli/internal/artifactpublish/publish.go:202-212 | from any justified state on, a publisher that wrote the marker has every staged file committed with equal content |
| Publication.FinishedPublishersAgree | cli/internal/artifactpublish/publish.go:154-163 | two publishers that wrote the marker agree on every shared name |
| Publication.StepTouchesScratch | cli/internal/artifactpublish/publish.go:165-194 | a step changes nothing but the publisher's own temporary names and the marker |
| PublicationRestarts.MarkerVouchesForAll | cli/internal/artifactpublish/publish.go:202-212 | a reader that finds the marker where there was none: some run has every file it staged present with equal content, and the marker holds its id, however many runs were killed and restarted |
| PublicationRestarts.CommittedOutlivesRestarts | cli/internal/artifactpublish/publish.go:165-194 | a committed file keeps inode and content over any number of restarts, where runs at the same time share no temporary name; a run may reuse the process id of the one it follows |
| PublicationRestarts.RestartsKeepInv | cli/internal/artifactpublish/publish.go:114-212 | every publisher's progress stays justified over restarts |
| PublicationRestarts.StepSparesMarker | cli/internal/artifactpublish/publish.go:114-212 | only starting and finishing runs touch the marker |
| PublicationLimits.CommittedIsStaged | cli/internal/artifactpublish/publish.go:167-182 | an artifact that appears holds content some publisher staged under that name |
| PublicationLimits.StableIffDistinctPids | cli/internal/artifactpublish/publish.go:165-183 | in particular two that stage one name are safe if and only if their process ids differ |
| PublicationLimits.SharedPidIsUnstable | cli/internal/artifactpublish/publish.go:165-183 | with one process id some interleaving changes a committed file |
| PublicationLimits.StableIffTempIsApart | cli/internal/artifactpublish/publish.go:165-183 | of two publishers each staging one non-empty file under any name into an empty directory, the second one's file is stable in all interleavings if and only if the first one's temporary name is neither that file's name nor its temporary name |
| PublicationLimits.TempNameClashIsUnstable | cli/internal/artifactpublish/publish.go:165-183 | with such a name some interleaving deletes the committed file |
| PublicationNames.EveryEntryVisitedOnce | cli/internal/artifactpublish/publish.go:138-139 | the three glob patterns visit every entry but . and .. exactly once |
| PublicationNames.TempNamesDistinct | cli/internal/artifactpublish/publish.go:165-166 | temporary names are equal if and only if destination and process id are, and never the marker's |
| EditDistance.Levenshtein | core/runconfig/unknown.go:257-282 | the two-row loop computes the recursive edit distance |
| EditDistance.DistanceIsLowerBound | core/runconfig/unknown.go:257-282 | no edit script is cheaper than the distance |
| EditDistance.DistanceIsAttained | core/runconfig/unknown.go:257-282 | some edit script costs exactly the distance |
| EditDistance.DistanceZeroIffEqual | core/runconfig/unknown.go:257-282 | the distance is zero if and only if the strings are equal |
| EditDistance.DistanceSymmetric | core/runconfig/unknown.go:257-282 | the distance is symmetric |
| EditDistance.TriangleInequality | core/runconfig/unknown.go:257-282 | the distance satisfies the triangle inequality |
| EditDistance.SuggestFieldPath | core/runconfig/unknown.go:211-236 | the suggestion is the first minimiser of (distance, path distance) within the limit, and there is none if and only if all candidates are beyond it |
| ConfigKeys.IsKnownManagedKey | core/runconfig/unknown.go:57-76 | the loop over shortened paths decides by the longest deciding prefix |
| ConfigKeys.CollectUnknownNode | core/runconfig/unknown.go:112-124 | appending through the output computes the reports of the node |
| ConfigKeys.CollectUnknown | core/runconfig/unknown.go:126-154 | the same over the entries of a mapping |
| ConfigKeys.WalkReportsAll | core/runconfig/unknown.go:112-154 | whatever is unknown on the way to a path that occurs is reported |
| ConfigKeys.WalkReportsOnly | core/runconfig/unknown.go:112-154 | whatever is reported is unknown on the way to some path that occurs |
| ConfigTables.LookupAgreesWithWalk | core/runconfig/unknown.go:57-76 | over closed tables lookup and walk agree on all paths if and only if two conditions on the tables hold |
| ConfigTables.ReportedIffUnknown | core/runconfig/unknown.go:112-154 | in a document, a path is unknown to the lookup if and only if it or a path above it is reported |
| ConfigTables.ShippedTablesAgree | core/runconfig/unknown.go:14-46 | with any schema table of the shape the configuration types yield, the shipped passthrough table meets the conditions |
| ConfigFields.ShippedConfigAgrees | core/runconfig/unknown.go:14-46 | lookup and walk agree on every path over the shipped passthrough table and the schema of the configuration types |
| ConfigFields.ConfigTypesYieldSchema | core/runconfig/config.go:28-384 | the fields of the configuration types yield a schema table of that shape |
| ConfigFields.SchemaLeads | core/runconfig/schema.go:277-303 | reflection yields exactly the paths that lead from field to field |
| ConfigFields.SchemaIsClosed | core/runconfig/schema.go:277-303 | whatever the types, the parent of a schema path is a schema path |
| ConfigTables.JoinCutsAtLastDot | core/runconfig/unknown.go:61-66 | cutting a dotted path at its last dot drops its last key |
| ConfigTables.JoinIsInjective | core/runconfig/unknown.go:134-137 | dotted paths of different dot-free keys differ |
| ProfileCatalogue.NormalizeIsFixpoint | core/resourceprofile/workload.go:247-289 | normalising an accepted profile again gives it back |
| ProfileCatalogue.NormalizeResolved | core/resourceprofile/workload.go:247-289 | the loops over queues, sets and names compute the normal form or refuse |
| ProfileCatalogue.SetIsCanonical | core/resourceprofile/workload.go:521-540 | a normalised set is strictly increasing and holds exactly the non-empty normalised values |
| ProfileCatalogue.CollectSet | core/resourceprofile/workload.go:521-540 | the loop with its seen set computes the normalised set |
| ProfileCatalogue.CollectQueues | core/resourceprofile/workload.go:473-499 | the loop with its seen keys refuses exactly duplicate queues and sorts the rest |
| ProfileCatalogue.QueuesAreFixpoint | core/resourceprofile/workload.go:473-499 | valid normalised queues are normal |
| ProfileCatalogue.NameIsFixpointIff | core/resourceprofile/workload.go:554-556 | normalising a name a second time changes nothing if and only if the name, trimmed of white space and then dots, has no white space other than a blank at an end |
| ProfileCatalogue.NameNormalizationCanMove | core/resourceprofile/workload.go:554-556 | a tab behind a leading dot is such white space |
| ProfileSnapshots.NormalizeProfiles | core/resourceprofile/workload.go:452-471 | the loop refuses bad and duplicate profiles and sorts the rest by name, their conditions by type |
| ProfileSnapshots.NormalizeAllIsFixpoint | core/resourceprofile/workload.go:452-471 | normalising a set twice is normalising it once |
| ProfileSnapshots.HashProfiles | core/resourceprofile/workload.go:291-320 | the hashing loop computes the digest of the canonical set or refuses |
| ProfileSnapshots.HashIgnoresOrderAndConditions | core/resourceprofile/workload.go:291-320 | sets equal but for order and conditions have one hash, or are both refused |
| ProfileSnapshots.HashSurvivesNormalization | core/resourceprofile/workload.go:336-346 | a set that normalises has a hash, the same before and after |
| ProfileSnapshots.SnapshotRoundTrip | core/resourceprofile/workload.go:332-386 | decoding a snapshot that was built returns it |
| ProfileSnapshots.DecodedWasBuilt | core/resourceprofile/workload.go:356-386 | a snapshot that decodes is one that could have been built from its profiles |
| ProfileSnapshots.ExportHashAlwaysMatches | cli/internal/cli/cluster_profiles.go:80-94 | the export command's hash refusal is unreachable |
| ProfileSnapshots.ExportedSetReadsBack | core/resourceprofile/provider.go:279-309 | the exported snapshot reads back as the cluster's own set |
| ProfileSelection.SearchIsMembership | core/resourceprofile/workload.go:572-578 | binary search in a sorted list agrees with membership |
| ProfileSelection.AuthorizationIsMembership | core/resourceprofile/provider.go:374-398 | a normalised profile authorises exactly the scopes its lists name |
| ProfileSelection.SelectUnique | core/resourceprofile/provider.go:159-216 | the accumulating loop selects the single matching profile |
| ProfileSelection.UniqueSelectionIff | core/resourceprofile/provider.go:159-216 | selection without a name succeeds if and only if exactly one profile is ready, authorised and of the requested GPU count |
| ProfileSelection.SelectionByOwnName | core/resourceprofile/provider.go:118-149 | naming the selected profile selects it again |
| ProfileSelection.SelectedProfileRenders | core/resourceprofile/workload.go:388-427 | whatever is selected renders for the scope it was selected for |
| RunSnapshot.PlacementState | core/status/multikueue.go:54-102 | the flag loop computes the placement stated without flags |
| RunSnapshot.ReadyChecksAreNotRejected | core/status/multikueue.go:133-154 | all checks ready excludes any check rejected |
| RunPhases.CountKueue | core/status/phases.go:320-379 | the admission counters decide the phase stated with quantifiers |
| RunPhases.CountScheduling | core/status/phases.go:500-526 | the same for pod scheduling |
| RunPhases.CountInits | core/status/phases.go:617-649 | the same for init containers |
| RunPhases.CountStarted | core/status/phases.go:651-695 | the same for started containers |
| RunPhases.CountReady | core/status/phases.go:697-719 | the same for ready pods |
| RunPhases.RewriteWhenOver | core/status/phases.go:91-118 | rewriting the phases in place gives each one its overridden status |
| RunPhases.PodLifecyclePhases | core/status/phases.go:82-119 | the six pod phases in order, overridden once the RayJob is over |
| RunStatus.FailureVerdictsAgree | core/status/phases.go:136-211 | StartupFailed equals WatchFailed on every snapshot |
| RunStatus.CompleteExcludesFailed | core/status/phases.go:178-211 | outside the manager's view a run is never complete and failed |
| RunStatus.RayJobStartedIff | core/status/phases.go:121-134 | a run of a RayJob alone is startup-complete if and only if the RayJob has succeeded |
| RunStatus.JobStartedIff | core/status/phases.go:121-134 | a run of a batch Job is startup-complete if and only if it has succeeded, or outside the manager's view it has workloads, all admitted or finished, some container, every pod placed, pulled, initialised, started and ready with its claims granted, and no image pull that fails |
| RunStatus.BothVerdictsIff | core/status/phases.go:178-211 | complete and failed hold together if and only if the manager's view of an open run shows it Running with a check Rejected |
| RunStatus.BothVerdictsCanHold | core/status/phases.go:185-209 | such a snapshot exists among those a status query builds |
| RunStatus.LifecycleAgrees | core/status/status.go:179-213 | the lifecycle state is failed if and only if the run is found and failed; succeeded implies complete and not failed |
| RunStatus.HeadlineAgreesIff | core/status/status.go:219-230 | the headline says Failed or Complete exactly with the lifecycle state if and only if no Job conditions are reported without the Job in the manager's view of an open run |
| RunStatus.HeadlineAgreesWithLifecycle | core/status/fetch.go:56-65 | on every snapshot a status query builds the headline says Failed or Complete exactly with the lifecycle state |
| RunStatus.StrayConditionsDisagree | core/status/status.go:219-230 | a snapshot with stray conditions, which no query builds, whose headline says Failed and whose lifecycle state does not |
| RunHistory.MergeHistory | core/runs/history.go:198-230 | the index, the edits in place and the sort produce the specified board |
| RunHistory.MergeConserves | core/runs/history.go:198-230 | newest first; every live run once, changed only in durable id and tracking, plus exactly the rows that share no key with any live run |
| RunHistory.UnmatchedIffStranger | core/runs/history.go:207-215 | a row matches no live run if and only if it shares no key with any |
| RunHistory.TrackedIffVouchedFor | core/runs/history.go:216-222 | a live run ends tracked if and only if it was, or some tracked row matches it by a stronger key than the run key |
| RunHistory.PromotionNeedsIdentity | core/runs/history.go:220-222 | tracking is promoted only through a shared durable or resource key |
| RunHistory.FirstIdIsTaken | core/runs/history.go:217-219 | a missing durable id is the first one offered by a matching row |
| RunHistory.ResourceKeyIdentifies | core/runs/history.go:237-239 | a resource key names one resource if and only if no slash stands in its parts but at the very ends or as the whole namespace; without slashes it always does |
| RunHistory.AmbiguousTwin | core/runs/history.go:237-239 | any other slash gives a second resource with the same key |
| RunHistory.KubernetesKeysIdentify | core/runs/history.go:237-239 | among namespaces and uids without slashes a key names one resource, whatever the cluster is called |
| StableOrder.StableSortIsUnique | core/runs/runs.go:176-180 | the stable sort is the only ordered arrangement that keeps ties in order, so the library's algorithm does not matter |
| StableOrder.SortForgetsOrder | core/resourceprofile/workload.go:469-470 | without ties, sorting does not depend on the order of the input |
| StableOrder.PrecedesIsTotal | core/resourceprofile/workload.go:469 | string order is total and strict |
| ShellQuoting.JoinedLineReadsBack | core/experiment/metadata.go:408-426 | the shell reads a joined command line as exactly its arguments, for every list |
| ShellQuoting.ScanShellQuote | core/experiment/metadata.go:416-426 | a quoted argument reads back as itself whatever follows |
| ShellQuoting.ScriptQuoteReadsBack | cli/internal/artifactindex/finalize.go:29-31 | the double-quote spelling reads back as the same string |
| LabelValues.KubernetesLabelValue | core/experiment/metadata.go:290-327 | the builder loop computes the specified label |
| LabelValues.LabelValueIsValid | core/experiment/metadata.go:290-327 | every text becomes a valid label of at most 63 characters; only blank text becomes empty |
| LabelValues.LabelValueIsFixpoint | core/experiment/metadata.go:310-316 | a label of a label is the label |
| LabelValues.LongLabelsCarryTheHash | core/experiment/metadata.go:317-326 | two texts too long for a label share one only if their hashes agree |

## Assumptions

- SHA-256 is a free constructor in `Spool` and an arbitrary function in `ProfileSnapshots`
  and `LabelValues`. Decoding one JSON row is an arbitrary function, which also stands for what
  the configured tags make of its events. A chunk's payload is its
  event sequence, which `Ndjson.PayloadDeterminesEvents` justifies for every codec that
  satisfies `Ndjson.Lawful`.
- Checkpoint and manifest files read back as they were written, so paths are valid UTF-8 (JSON
  replaces other bytes), and the clock gives valid times for exported events.
- The sink is idempotent by ingest-by tag. A source file may change in any way; what the
  collector refuses (a shrunk file, a different prefix) it refuses. The file system applies
  directory changes in order.
- In `CollectorRunner` a durable write that failed took effect or did not, and whatever a
  restarted process can read stays: a process may be killed anywhere, but power is not lost
  between the rename of a file that a later process reads and the next sync of its
  directory. `DurableFiles` shows what a power loss in that window can undo.
- `mv -n` is one atomic rename that does not replace; a checksum stands for the content;
  publishers running at the same time have plain process ids, distinct or of runs that stage
  different names under one publication id, and nobody stages a file under a name that a run
  uses for its own temporary files. `PublicationLimits` shows what happens otherwise.
- Trimming and lower-casing are arbitrary functions with the few properties proofs need
  (`Text.GoLike`, `KeepsDnsNames`, `KeepsLabels`, `ProfileCatalogue.CharWise`).
- Token recognition and quoting follow sections 2.2.1 to 2.2.3 and 2.3 of the POSIX Shell
  Command Language.

## Left out

- CollectorRunner.Runner.Deliver: an attempt has an arbitrary outcome; Azure and Kusto calls, HTTP caching, credentials and the classification of errors are foreign code.
- CollectorRunner.Runner.Run: the watch loop is bounded by a number of polls, and wall-clock deadlines, timers and goroutines are arbitrary choices.
- CollectorRunner.Runner.WritePending: a durable write that fails ends the process, with or without its effect; continuing after a failed write is not modelled.
- CollectorRunner.Runner.ExpandHistory: a pattern is the set of absolute paths it names; how glob patterns match and how paths are made absolute is left out.
- CollectorRunner.Runner.FinishCancelled: which context error the process returns is not modelled, and the polls while waiting for the completion file are one look at the end of the wait.
- DurableFiles.Disk.WriteFileDurable: file modes and closing are not modelled.
- StorageDirectories.Storage.EnsureDirectory: nobody else makes or removes directories meanwhile, and the durability of each new directory is not stated.
- ConfigFields.ConfigTypesYieldSchema: field names are the yaml tags; reading a tag is not modelled.
- ConfigKeys.CollectUnknown: deduplication and sorting of the reports, YAML parsing and message wording are left out.
- RunHistory.MergeHistory: the clock stands still during one merge, so an age is a function of the creation time.
- RunPhases.PodLifecyclePhases: statuses only; details, hints and start times of phases are left out.
- ProfileCatalogue.NormalizeResolved: error texts are left out, and an empty list is not told from an absent one.
- ShellQuoting.JoinedLineReadsBack: alias and reserved-word recognition, assignments before a command, and expansions are not modelled; an unquoted special character is no plain word at all.
- 64-bit overflow of file offsets, line counters and sequence numbers in the collector.
- The Azure acknowledgement's sample count, tag and metric-card tables, and per-field configuration checks.
- Kubernetes, Helm and kubectl plumbing, command-line parsing, table rendering, KQL text and the portal.
- Presets of a queue group whose team is empty.
