# Ingest-to-inventory pipeline of Icinga for Kubernetes v2

A Dafny model of the path that a Kubernetes observation takes: the collector's sender and its spool, the PostgreSQL
inbox with its shard heads, the last-writer-wins inventory with tombstones and watermarks, and the notification
outbox; beside it the federation client, cursor pagination, the lookups that merge remote answers, and the
collector's choice of what to watch. `dafny verify dfyconfig.toml` checks everything.

## How it is built

- Every database transaction is one atomic step. `Pipeline` gives the step functions and runs of steps, in any
  interleaving of API servers, workers and notifiers; a failed transaction is a step that changes nothing. `Store` is
  the same transactions as methods that update the tables in place, statement by statement, each proved equal to its
  step. `Worker` and `Notifier` are the loops over that class.
- `Delivery` is the interleaving of the sending threads, with lost acknowledgements, rejections, a full spool, and
  crashes that lose everything but the directory. `Sender` is the client code on a spool directory, each method
  proved to be a run of that machine. `EndToEnd` joins `Delivery` and `Pipeline`, and `EndState` follows the events
  on into the live inventory.
- `Changes` is the view of a run from the inventory: the events of the blocks, the recovery passes and the retention
  runs, one after the other. `RunIsPerformed` says that every run of the pipeline is such a sequence; `Convergence`,
  `Tombstones`, `Snapshot`, `SettledEvents` and `Notices` (what is announced, and when) speak of these sequences, and
  `Recoveries` of single changes: which evidence settles a warning event. `Exceptions` has concrete runs.
- `Federation.Pool`, `Watches.Collector`, `ShardWatch.Watcher` hold the maps of the source and are updated under the
  same guards; the theorems speak of the log of starts and completions, of sequences of rounds, or of the
  interleavings of a shard's loop with the updates it gets.
- JSON content is an opaque value with an encoded size, times are integers (nanoseconds as observed, microseconds as
  stored), ids are numbers or the pairs they are hashed from, checksums are function parameters. What the network,
  the disk, the clock, RBAC and discovery answer are parameters.
- Rows that retention removed stay in the modelled inbox and outbox with a `pruned` mark that no query looks at, so
  that properties can speak about the whole history.
- Automatic induction is switched off in every lemma; each inductive proof is written out.

Hypotheses, all of them stated in the contracts: clocks do not run backwards, so `received_at` and spool file names
strictly increase; one thread sends for a shard; upserts of the resource in question carry no `DeletedAt`, which the
collector never sets; event ids of different shards differ, as they are derived from kind and object; the receiver of
notifications ignores an event id it has processed already (`Outbox.Receive`); for convergence, an id travels through
one shard and two different events of an id differ in their microsecond. `EqualStampsDiverge` and `TwoShardsDiverge`
show that the last two cannot be dropped.

## Where the code does not do what one might expect

- A write keeps incidents and inventory in agreement exactly when it is not an upsert of a problem that already
  carries a deletion time (`Incidents.WriteAgrees`); retention keeps them exactly when it drops no live problem, which
  only Event rows can be (`Incidents.PruneAgrees`). `Exceptions` has a run for each.
- `canWrite` adds its slack in 64 bits. For sizes within 64 KiB of the top the sum wraps and a write larger than the
  disk is admitted (`SpoolSpace.HugeWriteWraps`); `AdmitsExactly` gives the condition, and lengths of byte slices
  never meet it.
- With `OrderByID` and a name prefix together, `Store.List` ignores the cursor and returns the first page again
  (`Pagination.IgnoredCursorRepeats`). The API handler refuses that combination (`internal/v2/api/server.go:1070`);
  cursors continue exactly under `Follows` and `Encodable` (`CursorRoundTrip`).
- A page of a list that is lost does not hold back the list's marker, which then removes resources that exist
  (`Snapshot.LostPageTombstones`, `Exceptions.LostPageRemoves`). A page is lost in part when its sending is interrupted
  by a cancellation or a disk fault, and as a whole when one of its events is too large (`Sender.Sender.Send`).
  `Snapshot.CycleOverSends` gives the condition.
- The marker of a revoked namespace is tried once. If its sending fails it is not repeated
  (`ShardWatch.LostMarkerIsNotRepeated`), although the log line says that it was spooled, and the namespace's live rows
  stay for good (`Tombstones.SilentShardStays`).
- A batch that is replayed after its ids left the inbox is applied again (`EndToEnd.ForgottenIsRepeated`,
  `Exceptions.ForgottenIsAppliedAgain`). What it says is held back by a newer row or by the shard's watermark, and by
  nothing else: once retention has taken the tombstone of a deleted resource, an upsert that is older than the deletion
  but not behind the watermark brings the resource back (`Exceptions.DeletedComesBack`). `Tombstones` has the exact
  conditions, `NeverLiveIffHeld`, `DeletedStaysDeleted` and `RetentionIsInvisible`; a tombstone that is still stored
  whenever such an upsert is applied is enough (`YoungTombstoneHolds`).
- A notifier that is cancelled, or cannot reach the database, after a failed send leaves its claim, and the row waits
  for the lease to expire (`Notifier.Round`).
- A row observed in the very microsecond in which a list began survives that list's reconcile marker
  (`Snapshot.SameInstantSurvives`).

## Model

| member | source | states |
|---|---|---|
| Model.RoundingIsMonotone | internal/v2/store/store.go:400-402 | rounding observation times to database precision never swaps two of them |
| Inbox.PickShard | internal/v2/store/store.go:313-322 | a worker gets the shard of the earliest available head that nobody else has locked, and none only if there is none |
| Inbox.ReadablePrefix | internal/v2/store/store.go:346-363 | a block is applied up to, and not including, its first undecodable event |
| Inbox.FreshIds | internal/v2/store/store.go:259-277 | the rows one batch adds carry the first occurrences of its ids that are not known yet, in batch order |
| Inbox.InsertAppends | internal/v2/store/store.go:259-277 | inserting one event after the other only appends those rows |
| Inbox.PendingAfterMark | internal/v2/store/store.go:364-375 | marking ids as applied removes exactly the rows with these ids from a shard's backlog |
| InboxRuns.ClaimedIsPrefix | internal/v2/store/store.go:312-345 | the block a worker claims is the beginning of the shard's whole backlog, because only heads are ever backed off |
| InboxRuns.PendingLeft | internal/v2/store/store.go:346-389 | after a block the shard's backlog is what was left, with the failed event first |
| InboxRuns.OthersLeft | internal/v2/store/store.go:346-389 | a block leaves the backlog of every other shard as it was |
| InboxRuns.PickedEffect | internal/v2/store/store.go:303-397 | one call applies the readable beginning of the backlog of one shard, at most `limit` events, and fails only at an undecodable one |
| InboxRuns.EnqueueKeepsInv | internal/v2/store/store.go:248-293 | Enqueue keeps row order, unique ids, the head index and the conservation of events |
| InboxRuns.ApplyKeepsInv | internal/v2/store/store.go:303-397 | so does ApplyShard |
| InboxRuns.RunKeepsInboxInv | internal/v2/store/store.go:248-397 | so does every run of transactions, retention included |
| InboxRuns.StrictShardOrder | internal/v2/store/store.go:312-396 | in every run the applied events of a shard are a prefix of the accepted ones, in accepted order, and the rest is pending |
| InboxStatus.HeadIndexAgreesWithScan | internal/v2/store/store.go:278-291 | in every run each head row counts its shard's unapplied events and names their first |
| InboxStatus.TotalIsBacklog | internal/v2/store/store.go:813-816 | the sum of the head counters is the number of unapplied events |
| InboxStatus.HeadIsNotLater | internal/v2/store/store.go:813-816 | no unapplied event is older than every head, so the minimum over heads is the true minimum |
| InboxStatus.JoinedIsUnapplied | internal/v2/store/store.go:813-816 | no head points at an applied event |
| InboxStatus.OtherShardsProceed | internal/v2/store/store.go:312-322 | a worker finds work exactly when some unlocked shard has a first event that is not backed off |
| InboxStatus.PoisonedShardWaits | internal/v2/store/store.go:348-357 | in every run an undecodable event that is first in its shard stays first, and the shard applies nothing more |
| InboxStatus.FailedEventWaits | internal/v2/store/store.go:348-357 | a block that fails does so at an undecodable event, which then has one attempt more and waits as many seconds as it has attempts, at most 60 |
| InboxStatus.WaitingIsNotPicked | internal/v2/store/store.go:312-322 | while the first event of a shard waits no call picks the shard, and a call picks another one that has an available first event |
| InboxStatus.FailedShardLetsOthersPass | internal/v2/store/store.go:346-389 | so in every run of calls within that time after a failure |
| InboxStatus.BlockStamps | internal/v2/store/store.go:364-389 | a block stamps the rows it completes, no others, and its shard's head with its time |
| InboxStatus.KnownForRetention | internal/v2/store/store.go:848-860 | in every run an event is known, so that its replay is dropped, until a retention run reaches back to its application |
| Drain.DrainStep | internal/v2/store/store.go:303-397 | with available, decodable events a call processes something and saves exactly one of the calls left, and an empty inbox yields nothing |
| Drain.DrainBound | internal/v2/worker/worker.go:67-93 | the inbox empties after exactly the sum over shards of ceil(pending/limit) productive calls |
| Drain.DrainedStaysIdle | internal/v2/worker/worker.go:67-93 | once empty, every further call does nothing |
| Worker.Loop | internal/v2/worker/worker.go:46-95 | all three tickers in any order, failures included, are a run of the pipeline; after a block the next one follows at once exactly when this one processed something, after the retry delay on an error, else after the idle delay; readiness is that of the last block |
| Worker.ApplyUntilIdle | internal/v2/worker/worker.go:67-93 | on available, decodable events the apply ticker makes exactly the number of productive calls that `Drain` counts and then finds nothing |
| EventRecovery.FindOccurrence | internal/v2/store/event_recovery.go:46-58 | the occurrence of an event is the latest of its four timestamps that are after the zero time, or none |
| EventRecovery.RecoveryNeedsEvidence | internal/v2/store/event_recovery.go:60-81 | no event is resolved without an old occurrence or an observation of the referenced resource at or after it |
| Recoveries.OccurrenceIsLastSeen | internal/v2/store/event_recovery.go:46-58 | the occurrence is the latest of the four named timestamps, and after the zero time |
| Recoveries.PassDecides | internal/v2/store/event_recovery.go:124-180 | the pass closes a live, unlocked warning event exactly when it last occurred ten minutes ago or earlier, or when the row of its cluster and namespace with the uid it refers to was observed since and is tombstoned, or is ok and of a proving kind; with the reason and lifecycle of the case, and nothing else is touched |
| Recoveries.UpsertDecides | internal/v2/store/event_recovery.go:83-118 | an upsert that is not held back stores anything but a warning event as it is, an event that this version has settled already with its old reason, and any other as the same evidence says |
| Changes.RunIsPerformed | internal/v2/store/store.go:303-397 | the inventory after any run is what the events, recovery passes and retention runs of the run make of it, one after the other |
| Convergence.LiveExactly | internal/v2/store/store.go:399-483 | after any changes an id whose row retention spares is live exactly when its latest event is an upsert not before the newest reconcile cutoff, and then with that event's content |
| Convergence.Converges | internal/v2/store/store.go:399-483 | two sequences of changes with the same events, in any order and with any repetitions, leave the same live inventory |
| Convergence.RunsConverge | internal/v2/store/store.go:303-397 | so do any two runs of the pipeline that applied the same events |
| Convergence.WatermarkIsNewest | internal/v2/store/store.go:417-422 | a shard's watermark is the newest cutoff of its markers, whatever else was done |
| Convergence.EqualStampsDiverge | internal/v2/store/store.go:466-468 | with equal microseconds the order of two events decides |
| Convergence.TwoShardsDiverge | internal/v2/store/store.go:423-425 | with one id in two shards the order decides whether it is live |
| Resurrection.RunProgresses | internal/v2/store/store.go:406-438 | in every run watermarks never fall or vanish, and every live row is observed at or after its shard's watermark |
| Resurrection.StepProgresses | internal/v2/store/store.go:848-883 | each transaction keeps that, and stored observation times never fall, cleanup included |
| Resurrection.ReconcileLeavesWatermark | internal/v2/store/store.go:417-422 | a committed marker leaves a watermark of at least its cutoff |
| Resurrection.NoResurrection | internal/v2/store/store.go:406-416 | after a marker and any further run, nothing observed before the cutoff has any effect, even when its tombstone is gone |
| Tombstones.NeverLiveIffHeld | internal/v2/store/store.go:466-468 | an id that is not live stays so at every point of a run, also inside transactions, exactly when each of its upserts (that carries no deletion time) is held back by the watermark or a newer row when it is applied |
| Tombstones.DeletedStaysDeleted | internal/v2/store/store.go:848-883 | a deleted resource of which only older upserts still arrive is live at no point exactly when each of them finds a row still stored or is behind the watermark |
| Tombstones.YoungTombstoneHolds | internal/v2/store/store.go:861-873 | which is so when no retention run is late enough to take the tombstone |
| Tombstones.DeletedInEveryRun | internal/v2/store/store.go:303-397 | then no query between two transactions of a run sees the resource |
| Tombstones.DeleteStamps | internal/v2/store/store.go:469-473 | a delete that is not held back stores its content, shard and times, the deletion time being that of its application |
| Tombstones.MarkerStamps | internal/v2/store/store.go:417-438 | a marker that is not behind the watermark becomes the watermark and removes exactly the older live rows of its shard, stamped with the time of its application and as old as the marker |
| Tombstones.DeletionIsRemembered | internal/v2/store/store.go:861-873 | a delete holds back every older upsert for as long as no retention run reaches back to its application |
| Tombstones.RemovalIsRemembered | internal/v2/store/store.go:861-873 | and so does a marker for the rows it removes |
| Tombstones.RetentionIsInvisible | internal/v2/store/store.go:848-883 | beside an inventory that forgets nothing, one under retention shows the same live rows at every point exactly as long as no upsert gets through that the other holds back |
| Tombstones.LiveExactlyInRetention | internal/v2/store/store.go:399-483 | and then an id is live exactly when its latest event is an upsert not before the newest cutoff, retention or not |
| Tombstones.ConvergesInRetention | internal/v2/store/store.go:399-483 | and the same events leave the same live inventory, whatever retention ran in between |
| Tombstones.SilentShardStays | internal/v2/collector/collector.go:573-581 | live rows of a shard of which nothing arrives any more, no marker either, stay live |
| Tombstones.SilentShardInEveryRun | internal/v2/collector/collector.go:573-581 | in every run of the pipeline |
| Exceptions.DeletedComesBack | internal/v2/store/store.go:861-873 | a run from the empty database in which a replayed upsert brings a deleted resource back after retention took the tombstone |
| Incidents.WriteAgrees | internal/v2/store/store.go:499-516 | exactly which writes keep "open incident" and "live and not ok" in agreement |
| Incidents.ReconcileAgrees | internal/v2/store/store.go:423-437 | tombstoning by a marker keeps the agreement |
| Incidents.PruneAgrees | internal/v2/store/store.go:861-873 | exactly which retention runs keep it |
| Exceptions.DeletedUpsertDisagrees | internal/v2/store/store.go:499-516 | a run from the empty database whose upsert of a problem carries a deletion time: an open incident without a live row |
| Exceptions.RetentionDisagrees | internal/v2/store/store.go:861-873 | a run from the empty database whose retention takes a live Event problem: its incident stays open |
| Incidents.ResolveAgrees | internal/v2/store/event_recovery.go:166-178 | the recovery pass keeps it |
| Incidents.IncidentAgreement | internal/v2/store/store.go:499-516 | in every run the fold of a resource's outbox rows is open exactly when its stored row is live and not ok |
| Notices.ChangeAnnounces | internal/v2/store/store.go:499-516 | an event or a recovery pass queues a note for a resource exactly when its row shows something else afterwards: a new problem, another state, reason or set of relations of a problem, a recovery, a removal; one note, with what is stored |
| Notices.NewNotesAreDue | internal/v2/store/store.go:511-516 | what is queued is appended, due at once, and unclaimed |
| Notices.LastNoteTells | internal/v2/store/store.go:499-516 | in every run, without exception, the last note of a live resource that is not ok carries exactly its stored state, reason and relations |
| Notices.DrainedReceiverKnows | internal/v2/notifier/notifier.go:165-169 | and whenever the outbox is drained that is what the receiver was told last |
| SettledEvents.ResolvedStaysResolved | internal/v2/store/event_recovery.go:83-118 | replays of the same version, other resources' events, recovery passes and retention runs that keep the row leave a resolved event ok, with the same reason and lifecycle, and queue nothing for it |
| SettledEvents.ResolvedInEveryRun | internal/v2/store/event_recovery.go:83-118 | the same for every run of the pipeline |
| SettledEvents.RecoverySettles | internal/v2/store/event_recovery.go:114-117 | an upsert with evidence of recovery settles the event |
| Snapshot.CycleLeavesListed | internal/v2/collector/collector.go:622-658 | when every page is handed over, after a list's pages and its marker exactly the listed ids are live in the shard, and unlisted rows of other shards are untouched |
| Snapshot.CycleOverSends | internal/v2/collector/collector.go:637-658 | with a marker that arrives whatever became of the pages, exactly the listed ids are live if and only if each of them was on a page that was handed over |
| Snapshot.LostPageTombstones | internal/v2/collector/collector.go:712-722 | a listed, live resource that was only on lost pages is tombstoned by the marker |
| Exceptions.LostPageRemoves | internal/v2/collector/client.go:56-59 | a run from the empty database in which the only page of a list is refused or lost and the marker removes a listed, existing resource |
| Snapshot.CycleAmongOthers | internal/v2/collector/collector.go:622-658 | the same cycle with transactions of other shards, recovery passes and retention between its pages leaves exactly the committed ids live |
| Snapshot.CycleInEveryRun | internal/v2/collector/collector.go:622-658 | so does every run of the pipeline that ends with the marker |
| Snapshot.SameInstantSurvives | internal/v2/store/store.go:425 | a row observed in the instant the list began is not removed |
| Outbox.NextClaim | internal/v2/notifier/notifier.go:43-53 | the candidate is the lowest id that is waiting, due, unclaimed or expired, unlocked, and first in its resource's line |
| Outbox.ClaimFindsWork | internal/v2/notifier/notifier.go:43-53 | such a row is always found, whatever the others are |
| Outbox.ClaimIsDue | internal/v2/notifier/notifier.go:43-53 | and what is found is such a row |
| Outbox.RetryDoubles | internal/v2/notifier/notifier.go:88-98 | the wait starts at one second and doubles with every attempt, up to a minute |
| Outbox.DeliveredPrefixAndOneClaim | internal/v2/notifier/notifier.go:47-51 | delivered rows of a resource are a prefix, and at most one row is claimed |
| OutboxRuns.DeliveredForGood | internal/v2/notifier/notifier.go:75-98 | in every run a delivered row keeps its delivery time, claim and attempts |
| OutboxRuns.AcknowledgedOnce | internal/v2/notifier/notifier.go:75-98 | in every run at most one acknowledgement of a row has an effect, and no retry has one after it |
| OutboxRuns.StaleHolderIsIgnored | internal/v2/notifier/notifier.go:75-98 | after a takeover the old holder's acknowledgements and retries change nothing, in every run in which it does not claim the row again |
| OutboxRuns.ReleasedWaits | internal/v2/notifier/notifier.go:88-98 | in every run a released row rests, unclaimed and unchanged, until its wait is over |
| OutboxRuns.LeaseExcludesOthers | internal/v2/notifier/notifier.go:42-73 | in every run a claimed row that its holder leaves alone stays its own for thirty seconds |
| Outbox.OpenByLast | internal/v2/notifier/notifier.go:181-183 | an incident is open exactly when the resource's last note does not close it |
| Outbox.DrainedReceiverAgrees | internal/v2/notifier/notifier.go:165-169 | with nothing waiting, the receiver's incident is the fold of the whole outbox, whatever was sent twice |
| OutboxRuns.RunDelivery | internal/v2/notifier/notifier.go:42-98 | in every run rows of a resource are claimed, received and delivered in id order |
| OutboxRuns.HeadOfLineInEveryRun | internal/v2/notifier/notifier.go:47-51 | in every run, of two rows of one resource the later is delivered only after the earlier, and not both are claimed |
| OutboxRuns.DrainedReceiverMatchesInventory | internal/v2/notifier/notifier.go:181-183 | whenever the outbox is drained the receiver's open incidents are exactly the live resources that are not ok |
| Notifier.Round | internal/v2/notifier/notifier.go:116-151 | one turn is a run of pipeline steps that claims the right row and changes nothing else: the row ends acknowledged if the receiver took it and said so, otherwise released for the wait of its attempts, or after a cancellation or a failed release still leased for thirty seconds, after which it can be claimed again |
| Store.StepSound | internal/v2/store/store.go:248-397 | every transaction keeps the inbox, inventory, watermark and outbox invariants together |
| Store.Store.constructor | internal/v2/store/store.go:248-251 | the empty tables satisfy the invariants |
| Store.Store.Enqueue | internal/v2/store/store.go:248-293 | validation, row by row insertion and the two head statements have the effect of the Enqueue step, and an invalid batch changes nothing |
| Store.Store.ApplyShard | internal/v2/store/store.go:303-397 | choosing, claiming, applying, marking and moving the head has the effect of the ApplyShard step, of which `FailedEventWaits`, `BlockStamps` and `PickedEffect` say what it is; a limit outside 1..64 changes nothing |
| Store.Store.ApplyPicked | internal/v2/store/store.go:323-396 | the same for the shard that was picked |
| Store.Store.ApplyEvents | internal/v2/store/store.go:346-363 | the loop completes the readable prefix of the block and backs off the event that stops it, by the wait of `FailedEventWaits` |
| Store.Store.ApplyResource | internal/v2/store/store.go:399-518 | the branches on action, watermark, stored row and notification decision have the effect of the specification, of which `UpsertDecides`, `DeleteStamps`, `MarkerStamps` and `ChangeAnnounces` say what it is |
| Store.Store.ReconcileShard | internal/v2/store/store.go:417-438 | a marker raises the watermark and tombstones every unseen live row of the shard, queueing the problems among them |
| Store.Store.RemoveUnseen | internal/v2/store/store.go:423-437 | the row by row form of that update |
| Store.Store.ResolveEvents | internal/v2/store/event_recovery.go:124-180 | deciding on a snapshot first and writing then has the effect of the pass, of which `PassDecides` says what it is |
| Store.Store.Publish | internal/v2/store/event_recovery.go:166-178 | the writing loop updates and notifies each decided event once |
| Store.DecisionsSound | internal/v2/store/event_recovery.go:140-158 | the decided list names every event that recovers, once, and no other |
| Store.Store.Cleanup | internal/v2/store/store.go:848-883 | retention has the effect of its step and never takes an unapplied event, an undelivered note, a watermark, the head of a shard with a backlog, or a live row other than an old Event |
| Store.RetentionTakesExactly | internal/v2/store/store.go:861-873 | which rows a retention run takes from each of the tables, and that it leaves all others as they are |
| Store.Store.Claim | internal/v2/notifier/notifier.go:42-73 | the scan claims the specified candidate and sets its lease |
| Store.Store.Delivered | internal/v2/notifier/notifier.go:75-86 | the acknowledgement succeeds exactly for the holder and otherwise leaves the table alone |
| Store.Store.Retry | internal/v2/notifier/notifier.go:88-98 | the release reschedules the row exactly for the holder |
| Store.Store.Status | internal/v2/store/store.go:810-842 | reading only the heads yields the true backlog and its true oldest event |
| Splitter.SplitBatch | internal/v2/collector/client.go:78-113 | fails exactly for an empty batch or at the first event that cannot fit; otherwise the chunks keep order and origin, respect the limit, and none could take the next one's first event |
| Splitter.SplitIsOptimal | internal/v2/collector/client.go:90-111 | no order-preserving split that respects the limit has fewer chunks |
| Splitter.NoSplitOfAnOversizedEvent | internal/v2/collector/client.go:95-97 | with an event that cannot fit, every split breaks the limit |
| SpoolSpace.Reserve | internal/v2/collector/spool_space.go:9-10 | the reserve is the larger of 64 MiB and a twentieth of the disk |
| SpoolSpace.AdmitsExactly | internal/v2/collector/spool_space.go:9-16 | exactly when the admission means that more than the reserve and enough inodes are left |
| SpoolSpace.SpoolWritesDoNotWrap | internal/v2/collector/client.go:217 | for the length of a byte slice it always does |
| SpoolSpace.HugeWriteWraps | internal/v2/collector/spool_space.go:11 | a size for which the unsigned sum wraps |
| SpoolDirectory.RemoveFirst | internal/v2/collector/client.go:284-288 | removing a replayed file by name removes that file and nothing else |
| Sender.SpoolUsage | internal/v2/collector/client.go:294-314 | counts exactly the visible .json files and their sizes |
| Sender.Sender.constructor | internal/v2/collector/client.go:36-53 | after a restart the counters are exact again for whatever directory was left |
| Sender.Sender.Spool | internal/v2/collector/client.go:191-252 | a batch is stored exactly when it fits capacity, reserve and disk; a failed attempt leaves spool files and counters alone; storing never exceeds the capacity |
| Sender.Sender.Replay | internal/v2/collector/client.go:254-292 | the files are delivered and removed strictly in order up to the first that fails, which is kept even if it was delivered; everything else in the directory stays, and success means that the spool is empty |
| Sender.Sender.Deliver | internal/v2/collector/client.go:68-76 | succeeds exactly when every spooled file is acknowledged and removed and then the post is acknowledged; the API has then taken the spooled chunks in order and this one; otherwise the files that passed are gone and the others stay |
| Sender.Sender.SpoolWithBackpressure | internal/v2/collector/client.go:115-141 | ends exactly as `Waiting` says: with the batch as the last file of the spool, with the batch delivered after an emptied spool, or given up |
| Sender.LostOnlyByGivingUp | internal/v2/collector/client.go:115-141 | it is given up only if every round that had room came after a disk error that is not about space |
| Sender.LostOnlyWithoutWayOut | internal/v2/collector/client.go:129-133 | and if no round before such an error could replay a readable spool and post |
| Sender.Sender.SendChunk | internal/v2/collector/client.go:68-76 | succeeds exactly when the direct delivery does or the waiting ends in the spool or the API; on success the chunk is the last one accepted or the last file of the spool, as the next one of its shard; it is lost only when the direct delivery failed and the waiting was given up; other shards are untouched; with an empty spool a full disk does not stand in the way of direct delivery |
| Sender.Sender.Send | internal/v2/collector/client.go:55-66 | success hands over exactly the events of the batch in order, an interruption a beginning of them, and only because one chunk was lost in that way; a refusal hands over nothing |
| Sender.Sender.Durable | internal/v2/collector/client.go:68-76 | in every life of the sender each completed chunk has been accepted or lies in the directory, and the API's log is a stuttering prefix |
| Delivery.RunKeepsInv | internal/v2/collector/client.go:55-141 | every interleaving of threads, faults and crashes keeps the relation of log, files and sent chunks |
| Delivery.NothingLostNothingReordered | internal/v2/collector/client.go:191-292 | the accepted batches of a shard are a stuttering prefix of the sent ones, and every completed chunk is accepted or spooled, in order |
| Delivery.DrainedSpoolMeansDelivered | internal/v2/collector/client.go:254-292 | with an empty spool and an idle thread everything sent has been accepted |
| EndToEnd.StutterVanishes | internal/v2/store/store.go:264-265 | deduplication by event id undoes the sender's repetitions |
| EndToEnd.RunHolds | internal/v2/store/store.go:259-277 | in every run, retention included, in which no batch returns after its ids have left the inbox, a shard's inbox has held exactly the first occurrences of the ids of the batches committed for it |
| EndToEnd.HoldsExactlyInRetention | internal/v2/store/store.go:264-265 | and a run keeps this for all shards only if it is such a run |
| Exceptions.ForgottenIsAppliedAgain | internal/v2/store/store.go:848-860 | a run from the empty database in which a replayed event is stored and applied twice because retention took its row |
| EndToEnd.ExactlyOnceInOrder | internal/v2/collector/client.go:115-141 | across lost acknowledgements, spooling, replays, crashes and retention a shard's inbox has held exactly the first occurrences of what was sent so far, in send order, and the events applied are a beginning of them |
| EndToEnd.PrefixOfSent | internal/v2/collector/client.go:55-66 | which is a prefix of the first occurrences of everything sent |
| EndState.RunAppliedOf | internal/v2/store/store.go:346-375 | in every run the events that took effect are those of the rows that are marked as applied |
| EndState.RunTells | internal/v2/store/store.go:259-277 | inside the inbox retention each row carries what the first committed event with its id says |
| EndState.AppliedIsSaid | internal/v2/collector/client.go:115-141 | once spool and inbox are drained, what was applied is what the shards said: for each event id the first event sent with it |
| EndState.LiveOnceDrained | internal/v2/store/store.go:399-483 | then an id is live exactly when the latest of what was said is an upsert not behind the newest marker, and with that content |
| EndState.DrainedSystemsAgree | internal/v2/store/store.go:399-483 | two systems whose shards said the same have the same live inventory once drained, whatever was lost, repeated, spooled, interleaved or forgotten on the way |
| Freshness.Worse | internal/v2/api/server.go:1594-1600 | the worse of two levels, an unrecognized one ranking with live |
| Freshness.OfAge | internal/v2/api/server.go:1617-1625 | an answer is live exactly when it is younger than both bounds, unavailable from the second bound on, and stale in between |
| Federation.Bounded | internal/v2/api/federation.go:85-93 | at most 32 calls are open, at most one per request, and at most one probe per target |
| Federation.FinishesOnce | internal/v2/api/federation.go:96-115 | every call finishes at most once, after its start |
| Federation.CooldownHolds | internal/v2/api/federation.go:86-108 | after a failure no call to the target starts within the cooldown unless one to it succeeded meanwhile, and the next start is a probe |
| Federation.ProbeIsAlone | internal/v2/api/federation.go:87-93 | while a probe is open nothing else starts for its target |
| Federation.GuardAgrees | internal/v2/api/federation.go:85-87 | the guard on the maps means the same as the guard on the history |
| Federation.Pool.Read | internal/v2/api/federation.go:60-138 | a call starts exactly when the history allows it; the answer is the cache entry with the worse of its own freshness and that of its age, or without a usable one "known to have failed", "busy" or a wait, each exactly in its case |
| Federation.Pool.Complete | internal/v2/api/federation.go:96-115 | a completion removes its own entry and no other, and sets cooldown and probe flag to what the history says |
| Federation.Pool.WithinLimits | internal/v2/api/federation.go:80-117 | the limits on the maps, and a probe flag exactly for the one pending probe |
| Lookup.Gather | internal/v2/api/server.go:1223-1274 | the merging loops find every id that any asked server supplies, first come first kept, and are certain exactly when everyone answered live and valid |
| Lookup.BatchGet | internal/v2/api/server.go:1193-1296 | a full lookup is refused as incomplete exactly when a requested id is neither stored here nor supplied by anyone who was asked and someone who could know it has not answered properly; a partial one lists these ids as unavailable; items are unique, requested and no fresher than the reply says |
| Graph.ResolvesExactly | internal/v2/api/server.go:1422-1468 | which claims of an answer count |
| Graph.TakenAsStated | internal/v2/api/server.go:1450-1472 | a parent gets the worse of the target's freshness and the one stated for it, or for the whole answer, and its children are at least as stale |
| Graph.MergeAnswer | internal/v2/api/server.go:1422-1482 | one answer resolves exactly its believable claims for parents still missing |
| Graph.ResolveGraph | internal/v2/api/server.go:1367-1507 | an unresolved parent is labelled live exactly when everyone answered properly, and the overall freshness is the worst of the local one and all requested parents |
| Graph.UniqueKeepsFirst | internal/v2/api/server.go:1494-1504 | of repeated children the first is kept |
| Graph.UniqueKeepsIds | internal/v2/api/server.go:1494-1504 | and every child id is kept once |
| Pagination.PageSize | internal/v2/store/store.go:521-526 | a limit below one becomes 100, one above 1000 becomes 1000, any other is kept |
| Pagination.List | internal/v2/store/store.go:520-582 | a page is the next rows in order, with a cursor exactly when rows remain; exactly the cursors of another kind than the order calls for are refused, none where both orders are combined |
| Pagination.PositionMeans | internal/v2/store/store.go:651-671 | which rows come behind a cursor, case by case |
| Pagination.CursorRoundTrip | internal/v2/store/store.go:584-600 | exactly when a returned cursor continues after its row |
| Pagination.IgnoredCursorRepeats | internal/v2/store/store.go:528-544 | with both orders combined every page is the first one |
| Pagination.SamePage | internal/v2/store/store.go:545-548 | a table and a position determine the page |
| Pagination.WalkAscends | internal/v2/store/store.go:531-544 | whatever changes between pages, the returned keys strictly increase |
| Pagination.NoKeyTwice | internal/v2/store/store.go:651-671 | no row is returned twice |
| Pagination.NothingMissed | internal/v2/store/store.go:651-671 | a row that matches throughout is returned |
| Pagination.ExactlyOnce | internal/v2/store/store.go:651-671 | exactly once |
| Pagination.FixedTable | internal/v2/store/store.go:545-580 | on a fixed table all rows come back in max(1, ceil(n/limit)) pages |
| Watches.PartitionNamespaces | internal/v2/collector/collector.go:343-359 | every wanted pair is placed under its own target and nothing else is |
| Watches.PartitionsCover | internal/v2/collector/collector.go:343-359 | partitions of a kind are below 16, disjoint, and cover its wanted namespaces |
| Watches.PartitionOf | internal/v2/collector/collector.go:348-351 | the partition is the checksum of the namespace modulo 16, and 0 for cluster-wide watches |
| Watches.Preserve | internal/v2/collector/collector.go:332-341 | an incomplete round keeps everything that was watched |
| Watches.DroppedOnProof | internal/v2/collector/collector.go:280-306 | a round drops a pair only with complete permissions that no longer want it |
| Watches.ShrinksOnlyOnProof | internal/v2/collector/collector.go:280-306 | so over any sequence of rounds |
| Watches.WantedIsWatched | internal/v2/collector/collector.go:287-297 | a round watches everything it wants |
| Watches.AppliedOnce | internal/v2/collector/collector.go:502-527 | over any sequence of rounds a resync request is applied at most once and never changes its meaning |
| Watches.RestartNeedsRequest | internal/v2/collector/collector.go:502-527 | a shard that stays is restarted exactly in the rounds that apply a request of its kind |
| Watches.EachRestartItsOwnRequest | internal/v2/collector/collector.go:502-527 | two restarts of a shard are due to two different requests |
| Watches.RequestsApplied | internal/v2/collector/collector.go:502-527 | of a list of requests exactly those for wanted kinds before the first that contradicts an applied one are applied |
| Watches.Collector.ApplyResyncRequests | internal/v2/collector/collector.go:502-527 | applies these requests, and drops exactly the shards of the newly applied kinds; fails only on a request whose id is known for another kind |
| Watches.Collector.Reconcile | internal/v2/collector/collector.go:229-326 | a round leaves exactly the watches and the applied requests its findings call for, the two maps keep equal keys, and a running shard is restarted only by a newly applied request |
| Watches.Collector.Elect | internal/v2/collector/collector.go:287-297 | running shards are updated in place and the others started afresh |
| ShardWatch.NoUpdateIsLost | internal/v2/collector/collector.go:78-86 | however updates fall between reading the namespaces and starting and stopping the watches, a loop that waits without a signal watches exactly what is wanted |
| ShardWatch.OneMarkerPerWatch | internal/v2/collector/collector.go:573-581 | in every interleaving each watch ever started still runs or was closed by exactly one attempt to send its marker |
| ShardWatch.LostMarkerIsNotRepeated | internal/v2/collector/collector.go:573-581 | a namespace that is closed gets no further marker handed over until it is watched again, whatever became of the first |
| ShardWatch.Watcher.Reconcile | internal/v2/collector/collector.go:559-583 | the round, with updates arriving during it, ends watching exactly the namespaces it read; each revoked one got one marker, handed over exactly when its sending succeeded; any newer update is still signalled |

## Left out

- HTTP handlers, authentication, rate limits, metrics, SSE, tracing, configuration and process start-up.
- Kubernetes clients, the watch transport and leader election; nothing here says that only one collector watches a shard.
- SQL planning and isolation: a transaction is one step with one clock reading, and `FOR UPDATE ... SKIP LOCKED` is the set of keys others hold. Splitting Enqueue into two steps under the head lock is not modelled.
- `change_log` and `resource_owner` rows: written together with the resource row and read by nobody in the model; owners, annotations and conditions are one opaque value.
- `federation_cache` retention and the cache table itself: a read gets the entry it finds as a parameter.
- Byte-level JSON, UUID, SHA, CRC32 and base64: injective ids, sizes, and function parameters; marshalling does not fail.
- Collations: names are ordered by character code, and `lower()` is the one for ASCII letters.
- Signed 64-bit counters: `spoolBytes` and `pending_events` are unbounded integers; only the unsigned arithmetic of `canWrite` is modelled with its width.
- Power loss between rename and directory sync: a committed spool file is durable.
- Database outbox ids are positions without gaps, and the rows one statement queues come in table order; the order across resources is not promised by SQL and nothing proved depends on it.
- `available_at` of a new inbox row equals its `received_at`.
- The JSON body `null` and other request-parsing details of the lookups; ids are taken as valid UUIDs.
- Cancelled readers of a federation call: they stop waiting and change nothing.
- Removed local directories: a missing spool directory reads as an empty one.
- The gauges "blocked" and "ready" of the metrics, except the readiness a reconcile round reports.
- Event normalization, adapters, native state rules, selectors and aggregation.
- Convergence.Converges: speaks of resources that are no warning events, whose content also depends on the time at which they are applied; with retention, of rows it spares, or by `Tombstones.ConvergesInRetention` of ids that are no events at all.
- EndState.DrainedSystemsAgree: of two events sent with one id only the first counts, as in the inbox; a watch that is reopened may send an object's version again under its id with a later observation time, and which of the two counts is decided by the order in which they were sent.
- Incidents.IncidentAgreement: excludes rows under event retention and upserts that carry a deletion time; `Incidents.PruneAgrees` and `Incidents.WriteAgrees` show that these are the exceptions.
- Sender.Sender.Replay: runs without interruption, as the source holds its lock; threads interleave in `Delivery`, where the lock is released between a replay and the post that follows.
- Worker.ApplyUntilIdle: runs one worker against an inbox that nobody fills meanwhile; other workers appear in `Drain` only as locked shards, and failures and the other tickers in `Worker.Loop`.
