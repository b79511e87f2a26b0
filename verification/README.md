# Aerobag operations tools, verified

This project models the parts of Aerobag's operations tooling whose correctness depends on order,
crashes or interleaving, and proves what they are meant to guarantee. It is self-contained:
`dafny verify dfyconfig.toml` checks everything. Nothing of the original program is executed here.

**The live-feed archive** (`LiveSource`, `FullFrames`, `ArchiveModel`, `ArchiveSafety`, `ArchiveTheorems`,
`ArchiveContents`, `Gains`, `Collector`, `ArchivedFrames`, `BorgWorker`, `Export`). A collector appends baselines, deltas and
replacements to one batch a day, rotates at midnight and recovers after a crash at any durable write;
a second process stores sealed batches in Borg and removes them under part of the locks.
`ArchiveModel` has one action per durable write of either process, so a crash is a run that ends
early. The classes `DailyCapture` and `BorgStore` perform these writes in the code's order and log them,
so that every theorem about all runs applies at each of their crash points. `BorgStore` lets arbitrary
collector runs happen wherever it does not hold the lock.

**The release controller** (`Releases`, `Reconcile`, `Convergence`, `ActionCount`, `ControlLoop`,
`ReleaseController`, `Promotion`, `Compatibility`). The planner, the live-feed bindings and the compatibility
comparison are functions, as in the code. `Reconcile` gives the effect of every action that succeeds; `ActionCount` gives, in
closed form, how many actions a run will take from where it starts, and proves that each planned action lowers
this number by one. The class `ReleaseController.Controller` runs the bounded loop and performs the refresh and
the activation record by record, in the code's order. `Promotion` is a transition system over many controller
runs, restarts and failures, with the controller's memory and its saved state kept apart.

**Channel generations and GC roots** (`Generations`, `Retention`, `ChannelRoot`). One action per durable
write to leases, registry, link and files; the class `ArtifactRoot` performs retention, activation with
rollback, pinning, maintenance and the rebuilding of a failed generation.

**Daemon retirement** (`InstanceRetirement`, `DaemonRetirement`). The same style for the stop, unroot, mark and
delete sequence, with the class `Daemons`.

**Small kernels** (`TerrainCodec`, `PolygonKey`, `TfrAudit`, `LatestPreview`).

Conditions that the code does not meet everywhere are kept as they are, shown by a concrete example, and
bounded exactly:

- A gap record that the capture service writes without the collector's lock can reach a sealed batch while
  Borg reads it; the archived copy then misses that one record and nothing else
  (`ArchiveTheorems.CopyMissesIffLateGap`, `LateGapIsNotArchived`, `ArchiveContents.ArchiveMissesAtMostOneAlarm`).
- The same record can bring back the directory of a batch that has left. If a rotation then seals it, it is a
  sealed directory without a descriptor: recovery passes over it, and every later Borg pass raises on it. A run
  contains such a directory if and only if one of its writes sealed what was left of a departed batch, which a
  caller can tell beforehand by the missing descriptor (`ArchiveTheorems.PoisonedRunIff`,
  `DepartedLacksDescriptor`, `LateGapPoisons`).
- The final capture of a day asks only for what was published before midnight, and yet can commit a state dated
  after it: exactly if a full state was asked for, has gone, and the current head is dated after midnight
  (`LiveSource.TakenLateIff`, `Gains.DrainedLateIff`). It then carries a gap exactly if that head is another
  version or the update itself came after a gap (`LiveSource.TakenLateGapIff`): an expired frame gives one with a
  gap, a frame whose file was renamed one without (`ExpiredIsTakenLate`, `RenamedIsTakenLate`).
- A poll delivers a full frame again exactly if the head is not the version committed last but one delivered before
  that (`FullFrames.RepeatIffHeadRepeats`, `HeadSetBackRepeats`).
- A successful collection leaves a frame up to the head it read unarchived exactly if that head had been committed
  before and the frame, bearing its time, came later; it waits for the next head (`ArchivedFrames.CollectDelivers`,
  `FullFrames.LateTwinWaits`).
- An export joins end to end exactly if no selected delta starts at a version that was left out and that
  differs from the last selected one (`Export.ExportJoinsIff`, `BackdatedDeltaBreaks`).
- The preview queue strands a submission exactly if the failure callback itself throws after submitting
  again (`LatestPreview.IdleMeansAnswered`, `ThrowingFailStrands`).
- Deleting a failed generation before it is built again leaves the GC registry with missing paths exactly if
  some of its manifests are still listed. After a switch that was taken back they all are, so building the
  generation again repairs the registry exactly if every manifest of the first attempt is written again;
  otherwise no retention can be planned from then on (`Generations.ClearedIsClosedIff`, `RebuiltIsClosedIff`,
  `ChannelRoot.RebuildWedgesIff`, `RebuildWedges`).
- The action loop gives up exactly if the number of actions counted from the starting observations is a hundred
  or more, although every action succeeds. Wherever the release on staging is built, as it is in every reachable
  state (`Promotion.StagedIsBuilt`), that number is at most four for each release on the production channel plus
  five. A first run on a fresh installation reaches it, so it takes 24 such releases
  (`ReleaseController.Controller.Reconcile`, `ActionCount.ServedCountBound`, `ControlLoop.BoundIsReached`,
  `ReleaseController.CrowdGivesUp`).

## Model

| member | source | states |
|---|---|---|
| `TerrainCodec.DecodeEncode` | tools/analyze_terrain_compression.py:58-93 | decoding the gradient residuals of any raster of signed 16-bit samples gives the raster back, through both cumulative sums modulo 2^32 |
| `TerrainCodec.EncodeDecode` | tools/analyze_terrain_compression.py:58-93 | the other direction: any residuals, decoded and encoded again, are unchanged |
| `TerrainCodec.GridSumOfResiduals` | tools/analyze_terrain_compression.py:58-61 | the two cumulative sums of gradient residuals equal the sample modulo 2^16, at every cell |
| `TerrainCodec.RasterBytesRoundTrip` | tools/analyze_terrain_compression.py:64-73 | reading little-endian words row by row and writing them back loses no byte |
| `TerrainCodec.RasterWord` | tools/analyze_terrain_compression.py:64-73 | the word at a row and column is the low byte at its position in the payload plus 256 times the byte after it |
| `TerrainCodec.TileRoundTrip` | tools/analyze_terrain_compression.py:64-93 | header and re-encoded samples of every tile that parses are the original bytes |
| `TerrainCodec.ParsedIff` | tools/analyze_terrain_compression.py:64-73 | a tile parses if and only if it begins with ABT2, has its size, low bytes first, at bytes 4 to 7, and as many words after 20 bytes as that size says |
| `TerrainCodec.ParsedSample` | tools/analyze_terrain_compression.py:58-73 | every sample of a parsed tile differs from left plus above minus diagonal by exactly the little-endian word stored for it, modulo 2^16 |
| `TerrainCodec.FillResiduals` | tools/analyze_terrain_compression.py:82-91 | the slice assignments that fill the prediction yield, cell by cell, left plus above minus diagonal, with the edges predicted from one neighbour |
| `TerrainCodec.GradientPayload` | tools/analyze_terrain_compression.py:64-93 | succeeds exactly on well-formed tiles with at least one column and then returns the input; names the error otherwise |
| `PolygonKey.KeyIdentifiesShape` | tools/audit_tfr_attribution.py:27-31 | two polygons have equal keys if and only if, after dropping one closing duplicate, one is a rotation or a reversed rotation of the other |
| `PolygonKey.ClosingIsIgnored` | tools/audit_tfr_attribution.py:27-31 | repeating the first vertex at the end leaves the key unchanged if and only if the ring was not closed already |
| `PolygonKey.KeyIsShape` | tools/audit_tfr_attribution.py:27-31 | the key is itself one of the rotations or reversed rotations |
| `PolygonKey.Least` | tools/audit_tfr_attribution.py:31 | the chosen ring is one of the candidates and not above any of them in tuple order |
| `TfrAudit.CountersDecidePairing` | tools/audit_tfr_attribution.py:77-90 | the two counters are equal if and only if published and XML areas can be paired one to one with equal shape and with limits that say the same: the surface for height 0, feet qualified as MSL or AGL by the datum, any other unit as it is |
| `TfrAudit.MultisetGivesPermutation` | tools/audit_tfr_attribution.py:84-90 | equal counters give an explicit pairing |
| `TfrAudit.PermutationGivesMultiset` | tools/audit_tfr_attribution.py:84-90 | a pairing gives equal counters |
| `TfrAudit.CountXml` | tools/audit_tfr_attribution.py:78-83 | the counting loop counts every drawable area's polygon and normalised limits |
| `TfrAudit.AuditExactAreas` | tools/audit_tfr_attribution.py:76-90 | reports exactly the notices whose areas cannot be paired, in order, with the number of areas checked |
| `TfrAudit.ReportedExcess` | tools/audit_tfr_attribution.py:88-90 | a reported notice has something missing or something unexpected, never neither |
| `LatestPreview.Queue.constructor` | tools/chart_cutline_editor_assets/latest-preview.js:9-12 | starts idle with nothing submitted |
| `LatestPreview.Queue.Submit` | tools/chart_cutline_editor_assets/latest-preview.js:32-36 | replaces whatever was pending and starts the pump if it was idle |
| `LatestPreview.Queue.Reset` | tools/chart_cutline_editor_assets/latest-preview.js:37-40 | outdates everything submitted so far |
| `LatestPreview.Queue.Settle` | tools/chart_cutline_editor_assets/latest-preview.js:14-26 | a response reaches its callback only if nothing newer was submitted or reset meanwhile |
| `LatestPreview.Queue.CallbackEnds` | tools/chart_cutline_editor_assets/latest-preview.js:20-31 | after a callback returns or throws, the pump goes on with what is pending or stops |
| `LatestPreview.OneInFlight` | tools/chart_cutline_editor_assets/latest-preview.js:13-31 | in every interleaving a request is sent only when none is in flight |
| `LatestPreview.OnlyLatestIsAnswered` | tools/chart_cutline_editor_assets/latest-preview.js:18-24 | a delivered response is always for the newest submission with no later reset |
| `LatestPreview.AnswersAreBrought` | tools/chart_cutline_editor_assets/latest-preview.js:14-26 | event by event: a response or a failure is reported exactly if the request that ended was for the submission still wanted, and a throwing response callback reports a failure under the same condition |
| `LatestPreview.AnsweredAtMostOnce` | tools/chart_cutline_editor_assets/latest-preview.js:13-31 | a submission gets at most one response and at most one failure, and both only if the response callback threw |
| `LatestPreview.IdleMeansAnswered` | tools/chart_cutline_editor_assets/latest-preview.js:13-31 | when the pump is idle the last un-reset submission has been answered, except exactly after a failure callback that throws having submitted again |
| `LatestPreview.ThrowingFailStrands` | tools/chart_cutline_editor_assets/latest-preview.js:20-31 | such a run exists: a submission is left pending with the pump stopped |
| `LiveSource.HeadsAreCurrent` | tools/live_feed_archive.py:124-137 | the heads read are exactly the current manifests with their times, one for each product, and reading fails exactly if one of them is missing |
| `LiveSource.MakeBaseline` | tools/live_feed_archive.py:139-177 | a baseline is the head asked for, or its version under the name it has now, or carries a gap: an expired head is replaced by the current one, and a head that is itself current and gone is an error |
| `LiveSource.BaselineIff` | tools/live_feed_archive.py:139-177 | what is taken for a head, read off the files: its own state if it is there and good; otherwise, if its manifest or state is gone, the good state of the current head, provided that is another file, with a gap exactly if it is another version; nothing else |
| `LiveSource.MakeUpdate` | tools/live_feed_archive.py:241-255 | a stored delta starts at the version archived last and ends at the head; anything that does not reach the head carries a gap; a delta that does not join is refused |
| `LiveSource.UpdateIff` | tools/live_feed_archive.py:241-255 | the event made for an update, read off the files: the good delta from the version archived last to this one if the manifest has a delta, otherwise a replacement by such a state, and after a gap a baseline that carries it; nothing else |
| `LiveSource.TakenLateIff` | tools/live_feed_archive.py:139-149 | what is taken for an update from before a time is dated at or after it if and only if a full state was to be read, is gone, and the current head is dated at or after that time |
| `LiveSource.TakenLateGapIff` | tools/live_feed_archive.py:139-149 | and it then carries a gap if and only if that head is another version, or the update came after a gap |
| `LiveSource.ExpiredIsTakenLate` | tools/live_feed_archive.py:142-149 | a store on which an expired frame is replaced by a later one, with a gap |
| `LiveSource.RenamedIsTakenLate` | tools/live_feed_archive.py:142-149 | a store on which a renamed frame is taken with the later time of its new file, without a gap |
| `LiveSource.WalkChain` | tools/live_feed_archive.py:189-214 | the cursor loop over parent manifests computes the recursive walk and ends on every finite store; `ParentFound`, `WalkExact` and `BreaksOffIff` say what that is in terms of the files |
| `LiveSource.ParentFound` | tools/live_feed_archive.py:207-212 | a parent is read from its plain manifest if there is one, else from its checkpoint, and is missing exactly if the store has neither |
| `LiveSource.WalkExact` | tools/live_feed_archive.py:193-214 | the walk finds a chain if and only if the manifests link the previous version to the head without a repetition, and then exactly that chain |
| `LiveSource.BreaksOffIff` | tools/live_feed_archive.py:189-214 | the walk ends in a gap if and only if manifests lead back from the head, each the parent of the next, to one without a parent or whose parent has no manifest left |
| `LiveSource.ChainBecomesDeltas` | tools/live_feed_archive.py:189-214 | every link of a found chain is stored as a delta onto the one before it |
| `FullFrames.Candidates` | tools/live_feed_archive.py:215-226 | gathers exactly the listed frames that are newer than the cursor, or of its time and not yet seen, up to the head, each under its own path |
| `FullFrames.Order` | tools/live_feed_archive.py:227-231 | sorts the candidates by time, the head last among those of its time and the others by version, losing and repeating none |
| `FullFrames.Annotate` | tools/live_feed_archive.py:232-239 | every update carries the set of versions delivered so far at its time |
| `FullFrames.FrameUpdates` | tools/live_feed_archive.py:215-239 | yields every fresh frame up to the head, in time order, annotated, each read from the manifest the listing shows; fails as missing exactly if a listed file is gone |
| `FullFrames.DeliveredIff` | tools/live_feed_archive.py:215-231 | a poll delivers the head, everything published after the cursor up to it, and of the cursor's own time what the cursor does not name; by time, then in dictionary order of versions, the head last |
| `FullFrames.Updates` | tools/live_feed_archive.py:183-239 | nothing if the head is the one committed last; one gapped head exactly if its manifest is gone, its chain of parents breaks off, plain and checkpoint manifests considered, or a listed frame is gone; an error exactly if the manifest is another version's, frames go back in time or the chain is malformed; otherwise a delta product's linked chain and nothing else, or every fresh frame whenever the listing shows the published ones |
| `FullFrames.DeliverPrefix` | tools/live_feed_archive.py:215-239 | committing any prefix of the updates keeps the delivery record exact, even when many frames share one time |
| `FullFrames.EveryFrameOnce` | tools/live_feed_archive.py:215-239 | over every sequence of polls with non-decreasing times and new heads, each frame up to the last delivered one has been delivered exactly once and in time order |
| `FullFrames.WholePollCatchesUp` | tools/product_archive.py:298-300 | a poll that completes has delivered every frame up to its head |
| `FullFrames.RepeatIffHeadRepeats` | tools/live_feed_archive.py:183-239 | a poll whose frames have not expired answers with a version delivered before if and only if its head is not the one committed last and was delivered before |
| `FullFrames.HeadSetBackRepeats` | tools/live_feed_archive.py:183-239 | two frames of one time, the head set back to the first: the source answers with it again |
| `FullFrames.LateTwinWaits` | tools/live_feed_archive.py:183-239 | a frame of the head's time that appears after the head was committed is not answered while the head stays |
| `ArchivedFrames.ArchivedOnce` | tools/product_archive.py:253-301 | over every sequence of polls and rotations during which nothing expires, the events archived for a full-frame product are every frame published since the first, once and in order, across days, each dated at its publication |
| `ArchivedFrames.PollKeeps` | tools/product_archive.py:260-264 | an advance, as `Collect` makes them, during which nothing expires extends that record exactly, idle polls included |
| `ArchivedFrames.RotateKeeps` | tools/product_archive.py:273-276 | a new day that opens with the committed state continues it without a repetition |
| `ArchivedFrames.CollectSteps` | tools/product_archive.py:232-302 | what `Collect` ensures comes, for every product the day follows, to such steps: one advance, or the old day's whole advance up to midnight, a rotation and an advance of the new day; on success the last one is whole |
| `ArchivedFrames.CollectDelivers` | tools/product_archive.py:290-301 | after a successful `Collect` of a product whose frames are shown and not expired, a frame up to the head read, published since the first, is archived if and only if the head was new, or the frame is older than it, or was delivered before |
| `ArchivedFrames.ExportReachesFrame` | tools/archive_service.py:254-266 | so the export of a day at any time from its opening on joins and ends with a frame published by then, or the state the day opened with, and no archived frame published by then is newer |
| `ArchiveSafety.InvStep` | tools/product_archive.py:166-382 | every durable write of either process keeps pointers valid, published batches held and unsealed batches current |
| `ArchiveSafety.SweepSparesPublished` | tools/product_archive.py:216-225 | what recovery sweeps was never named by an active pointer |
| `ArchiveTheorems.NothingPublishedIsLost` | tools/product_archive.py:207-382 | in every run, each batch an active pointer ever named is in the buffer or was stored and verified in Borg before it left |
| `ArchiveTheorems.RecoveryDeletesUnpublished` | tools/product_archive.py:207-230 | recovery deletes only batches that were never published |
| `ArchiveTheorems.MovedBatchIsStored` | tools/product_archive.py:363-382 | a batch that the worker moves away is the one it stored and verified |
| `ArchiveTheorems.SealedIsFrozen` | tools/product_archive.py:166-168 | once sealed and not active, no run appends to a batch, changes its heads or points at it again |
| `ArchiveTheorems.CopyMissesIffLateGap` | tools/archive_service.py:99-104 | the copy in Borg misses a gap record if and only if the capture service wrote one after the copy was made |
| `ArchiveTheorems.HauntedIffLateGap` | tools/archive_service.py:99-104 | a batch that has left reappears in the buffer only through such a record |
| `ArchiveTheorems.PoisonedIff` | tools/product_archive.py:209-215 | one write makes a sealed directory without a descriptor if and only if it seals a batch that has departed |
| `ArchiveTheorems.DepartedLacksDescriptor` | tools/product_archive.py:209-215 | which can be told before sealing: of the batches a rotation may seal, exactly the departed ones lack their descriptor |
| `ArchiveTheorems.PoisonedRunIff` | tools/product_archive.py:367-375 | in every run such a directory is there if and only if some write of the run sealed what was left of a departed batch |
| `ArchiveTheorems.PoisonIsPermanent` | tools/product_archive.py:216-225 | recovery passes over it and no other write removes it |
| `ArchiveTheorems.LateGapIsNotArchived` | tools/archive_service.py:99-104 | a run in which a recorded gap is lost from the archive |
| `ArchiveTheorems.LateGapPoisons` | tools/product_archive.py:367-375 | a run that leaves such a directory behind, on which every later Borg pass raises |
| `ArchiveContents.BatchesAreSound` | tools/product_archive.py:166-205 | in every reachable state, of every published batch in the buffer and of the archived copy of every departed one: events start with a baseline, deltas start where the event before ended, heads are the last events, usage is the bytes committed, gaps have their records and event directories exist |
| `ArchiveContents.ArchiveMissesAtMostOneAlarm` | tools/archive_service.py:99-104 | the archived copy has everything the batch held when it left, except at most the one gap record written without the lock |
| `ArchiveContents.DaysAreContinuous` | tools/product_archive.py:250-289 | a new day starts with the previous day's final version or carries a gap |
| `ArchiveContents.QuotaHolds` | tools/product_archive.py:107-128 | total recorded usage never exceeds the quota |
| `ArchiveContents.RunContents` | tools/product_archive.py:166-302 | all of these together, over every run |
| `Gains.ProgressArrives` | tools/product_archive.py:290-301 | a product that took all its source answered ends at the head asked for, or at an event added just now that carries a gap |
| `Gains.ProgressOpens` | tools/product_archive.py:273-276 | a batch opened from the old heads starts each product at its old version or with a gap |
| `Gains.DrainedLateIff` | tools/product_archive.py:253-264 | every event of a drain is what its source yielded at some look for an update from before midnight, and is dated after midnight if and only if that update's state was gone and superseded |
| `Collector.DailyCapture.constructor` | tools/product_archive.py:146-150 | an empty buffer |
| `Collector.DailyCapture.BufferBytes` | tools/product_archive.py:107-128 | the loop adds up exactly the recorded usage of all batches |
| `Collector.DailyCapture.Commit` | tools/product_archive.py:186-205 | one transaction adds the event, its head and its bytes, with its gap record written before |
| `Collector.DailyCapture.Append` | tools/product_archive.py:166-205 | appends the one event with its head, bytes and gap record, dated at its publication if it is a delta, a replacement or comes after a gap and at the capture otherwise, or changes nothing and names the reason; succeeds exactly if the batch is open, the source yielded it and the quota allows it |
| `Collector.DailyCapture.FinishRotation` | tools/product_archive.py:209-215 | the predecessor of an active batch ends sealed |
| `Collector.DailyCapture.Sweep` | tools/product_archive.py:216-225 | deletes every unsealed batch of this source but the active one, and every unsealed one without a descriptor, and nothing else |
| `Collector.DailyCapture.SweepPayloads` | tools/product_archive.py:226-230 | afterwards the active batch's event directories are exactly those its events name |
| `Collector.DailyCapture.Recover` | tools/product_archive.py:207-230 | brings any crashed state back to a settled one without touching a committed event; exactly the sealed, the active, the other sources' described batches and the active one's predecessor remain |
| `Collector.AskUpdates` | tools/live_feed_archive.py:183-187 | asks the source, at one look and with its listing, for what follows the archived head |
| `Collector.DailyCapture.CommitUpdates` | tools/product_archive.py:260-264 | commits a prefix of the updates in order, each event exactly what the source yields for its update on top of the head before, dated by its publication; on success up to the first update at or after the cut-off |
| `Collector.DailyCapture.Follow` | tools/product_archive.py:260-264 | asks once and commits from that answer, all of it up to the cut-off on success and a prefix of it on failure; no other product changes |
| `Collector.DailyCapture.CatchUpProduct` | tools/product_archive.py:293-300 | a full state for a new product, otherwise all that the source answers up to the head; on failure a part of it |
| `Collector.DailyCapture.CatchUp` | tools/product_archive.py:290-301 | does this for every product published at one look and nothing else; on success each ends at its published version, or at an event added by this call that carries a gap |
| `Collector.DailyCapture.Drain` | tools/product_archive.py:253-264 | gives each product of the old day, between its committed head and the head read at the first look, what its source answers from before midnight: all of that on success, part of it on failure, and nothing to any other product |
| `Collector.DailyCapture.CreateBatch` | tools/product_archive.py:266-272 | a new batch, unpublished and empty, that remembers its predecessor |
| `Collector.DailyCapture.SeedBatch` | tools/product_archive.py:273-276 | opens every product with the full state the source yields for the old head |
| `Collector.DailyCapture.OpenDay` | tools/product_archive.py:265-289 | swaps the active batch only to one fully seeded from the old day's final heads and seals the old one afterwards; a swap that raises is undone only if it did not take effect |
| `Collector.DailyCapture.Rotate` | tools/product_archive.py:250-289 | after success the active batch is the day's own, the one there was or one seeded from where the old day ended, and the old day has gained all that its drain takes, towards the heads read at the first look, and nothing else |
| `Collector.DailyCapture.Collect` | tools/product_archive.py:232-302 | no published batch loses an event and a long absence is recorded; a day that is over gains its drain, all of it before today's batch is used, and nothing else; today's batch is the one there was or is seeded from the old one, and every product takes what its source answers within this call, all of it up to the head read on success |
| `Collector.DailyCapture.Retire` | tools/product_archive.py:304-313 | seals and unpublishes the batch of every source that is gone, and unpublishes only those |
| `BorgWorker.WorkerInvisibleUnderLock` | tools/product_archive.py:363-382 | a worker step neither enables nor disables what the collector may do |
| `BorgWorker.StaysOnItsWay` | tools/product_archive.py:363-382 | the check made without the lock is still true when the lock is taken: the batch is sealed, not active and unchanged |
| `BorgWorker.DepartedStays` | tools/product_archive.py:376-382 | what has left the buffer does not come back as the same batch |
| `BorgWorker.BorgStore.DeleteOldest` | tools/product_archive.py:340-342 | the oldest archive goes if and only if its deletion succeeds, even if the compaction after it fails |
| `BorgWorker.BorgStore.Prune` | tools/product_archive.py:334-344 | deletes nothing if the first answer is within budget and reserve; otherwise only the oldest archives, never the newest, each right after an answer above the target or below the reserve; where it returns with more than one archive left, the last answer was within both, and it raises for its budget exactly if the last answer is above it |
| `BorgWorker.BorgStore.PruneCrowded` | tools/product_archive.py:338-344 | the loop itself: one occasion for each archive deleted, and an end with enough space, with one archive left, or with a failed command |
| `BorgWorker.BorgStore.Commit` | tools/product_archive.py:346-361 | initialise, prune, refuse for lack of space, replace the archive of that name, read it back, prune again: where it returns, the newest archive is the batch's copy, read back, and archives went only by these two prunes, each as `Prune` does it; where it raises, the batch stays |
| `BorgWorker.OthersStay` | tools/product_archive.py:351-356 | replacing an archive keeps exactly those of other names, in their order |
| `BorgWorker.BorgStore.StoreBatch` | tools/product_archive.py:363-382 | the batch leaves the buffer only while a verified copy is the newest archive, whatever the collector does meanwhile |
| `BorgWorker.BorgStore.CommitSealed` | tools/product_archive.py:363-382 | first deletes what an interrupted pass moved away; a pass that succeeds has stored and moved away every batch sealed and inactive when it began, with the contents it had then; on a host where nothing fails and space suffices it fails only on a sealed directory without a descriptor |
| `Export.ExportLive` | tools/archive_service.py:254-266 | the comprehension and slice select the newest full event and what follows it up to the time, or report that there is none |
| `Export.TimelineIsTail` | tools/archive_service.py:254-266 | that selection is the tail of the product's events from the newest full one |
| `Export.ExportJoinsIff` | tools/archive_service.py:254-266 | the export joins end to end if and only if no selected delta starts at a left-out version other than the last selected one |
| `Export.ExportReachesState` | tools/archive_service.py:254-266 | and then its last version is the last state at or before the time |
| `Export.ArchivedDayExports` | tools/archive_service.py:254-266 | for every batch the collector can build whose effective times do not decrease |
| `Export.BackdatedDeltaBreaks` | tools/archive_service.py:254-266 | a run of the collector, which commits a delta of time 2 and one on top of it dated back to time 1, whose export at time 1 does not join |
| `Compatibility.ShapeIsComplete` | tools/live_feed_compatibility.py:71-82 | a value accepted by the shape check has every field path of the contract, and no other |
| `Compatibility.CompatibleMeans` | tools/live_feed_compatibility.py:107-121 | compatible means equal wire inventories and equal catalogs, on both sides valid |
| `Compatibility.CompatibleIff` | tools/live_feed_compatibility.py:85-197 | a daemon is accepted if and only if both documents are complete and well formed, field by field, the daemon is ready with a published state, the wire inventories and catalogs are equal and every product is served, each named once |
| `Compatibility.StateAdvanceIsInvisible` | tools/live_feed_compatibility.py:171-207 | the decision and the recorded evidence do not change when a daemon publishes a newer, non-blank state |
| `Compatibility.RecordedIff` | tools/live_feed_compatibility.py:200-207 | two envelopes are recorded alike if and only if they agree in everything but which state was published |
| `Releases.OwnOrShared` | tools/release_reconciler.py:610-687 | a release is bound to its own daemon or, for a sunset release that did not opt out, to production's ready and compatible one |
| `Releases.SharedMeansEqual` | tools/release_reconciler.py:610-639 | sharing implies equal wire formats and catalogs and evidence that names that daemon's launch |
| `Releases.SharedIff` | tools/release_reconciler.py:610-687 | a sunset release that did not opt out is bound to production's daemon if and only if that daemon is up, not draining, fits the release's requirements and names its own tag, launch and startup publication; every other release to its own |
| `Releases.BoundToProvider` | tools/release_reconciler.py:642-687 | a binding to a ready provider holds that provider's own daemon and its address, or the provider's legacy listener |
| `Releases.BindingsIgnoreStates` | tools/release_reconciler.py:642-687 | ordinary product advances change no binding and no verification |
| `Releases.SameBindingIff` | tools/release_reconciler.py:642-702 | a verified binding is found again if and only if commit, manifest and requirements of both releases and the provider, its daemon up to the published state or its legacy listener, are unchanged |
| `Releases.PlannedActivationIsReady` | tools/release_reconciler.py:718-788 | whenever the planner asks for an activation, every guard of the activation holds |
| `Releases.PlannedIsDue` | tools/release_reconciler.py:718-788 | whatever is planned is due: only unbuilt releases are built, only built ones started, only the one on staging qualified, only unchecked ones checked, and production changes only to a release that is qualified, or forced while on staging |
| `Releases.ServedIsReady` | tools/reconcile_prod_releases.py:869-914 | with no production work left, every release to be served is built and its provider ready |
| `Reconcile.NormalizeSettles` | tools/reconcile_prod_releases.py:375-393 | each turn of the loop plans on observations that another refresh or adoption would not change |
| `Reconcile.RefreshedIsFixed` | tools/reconcile_prod_releases.py:375-393 | refreshing twice is refreshing once |
| `Reconcile.RefreshMeans` | tools/reconcile_prod_releases.py:375-393 | record by record: exactly the desired and built releases are described anew, daemons they call for are launched anew exactly if unknown or removed, whatever was started is found up with its evidence, and nothing else changes |
| `Reconcile.ActivationSwitchesOver` | tools/reconcile_prod_releases.py:1054-1084 | record by record: a release begins to drain if and only if it is not served, runs and does not drain yet, and then to the deadline; routed daemons no longer drain; every other daemon ends stopped, or removed if expired and wanted by no desired release, with its first deadline kept; the bypass is marked exactly on a forced new production |
| `Convergence.BuildLeaves` | tools/reconcile_prod_releases.py:704-763 | building a release changes nothing that any other release's binding depends on |
| `Convergence.StartLeaves` | tools/reconcile_prod_releases.py:800-861 | neither does starting its daemon |
| `Convergence.ServedIsBound` | tools/reconcile_prod_releases.py:895-1084 | an activation leaves every release it serves built, its provider ready and the recorded binding current |
| `ActionCount.ActionCounts` | tools/release_reconciler.py:718-788 | every action the planner asks for leaves exactly one action less to do, as counted from the observations, and keeps these consistent |
| `ActionCount.NothingLeft` | tools/release_reconciler.py:718-788 | a plan without an action leaves nothing to count |
| `ActionCount.CountBound` | tools/release_reconciler.py:718-788 | the count is at most four for each release on the production channel, and six, from any observations |
| `ActionCount.ServedCountBound` | tools/release_reconciler.py:718-788 | and at most four for each and five wherever the release on staging is built |
| `ControlLoop.ConvergedMeans` | tools/release_reconciler.py:718-788 | the planner reports convergence if and only if every desired release is built, served by a ready provider, recorded so and checked, and staging is qualified |
| `ControlLoop.BlockedMeans` | tools/release_reconciler.py:734-753 | a plan without an action is blocked if and only if production is neither active, nor on staging, nor about to be adopted, and is forced or unqualified |
| `ControlLoop.ActionKeepsBlock` | tools/reconcile_prod_releases.py:1238-1281 | no action changes whether the run is bound to block |
| `ControlLoop.StepsAreCounted` | tools/reconcile_prod_releases.py:1238-1281 | the number of actions a run takes is the one counted where it starts |
| `ControlLoop.BoundIsReached` | tools/reconcile_prod_releases.py:1238-1281 | a first run on a fresh installation beside a legacy deployment takes four actions for each and five, for every assignment with a staging release in which no sunset release shares a daemon |
| `ControlLoop.RunEnds` | tools/reconcile_prod_releases.py:1238-1281 | it ends with everything as desired, or blocked, and which of the two is decided by the observations it starts from |
| `ReleaseController.Controller.RefreshLiveFeeds` | tools/reconcile_prod_releases.py:375-393 | the loop over desired releases and the loop over daemons change exactly what `RefreshMeans` says; it raises exactly if a built release has a daemon and its publication describes none |
| `ReleaseController.Controller.AdoptProduction` | tools/reconcile_prod_releases.py:1191-1236 | production is adopted exactly if none is recorded, no generation was made, and the desired one is built, listening and of the deployed commit; it then counts as qualified and nothing else changes |
| `ReleaseController.Controller.Build` | tools/reconcile_prod_releases.py:704-763 | the record has what was built, and neither qualification nor check count any more; no other record changes |
| `ReleaseController.Controller.StartLiveFeeds` | tools/reconcile_prod_releases.py:800-861 | the release's own daemon, or its legacy listener at the address it had, runs and no longer drains; nothing else changes |
| `ReleaseController.Controller.Qualify` | tools/reconcile_prod_releases.py:1147-1181 | this release alone is checked and qualified |
| `ReleaseController.Controller.Activate` | tools/reconcile_prod_releases.py:1054-1084 | bypass, channels, the bindings, the invalidated checks, both draining loops and retirement, one record at a time, change exactly what `ActivationSwitchesOver` says of the observations before and after, and come to what the planner's theory assumes of an activation |
| `ReleaseController.Controller.Reconcile` | tools/reconcile_prod_releases.py:1238-1281 | gives up exactly if a hundred or more actions are counted at the start; otherwise completes with everything as desired, or blocks exactly if that was bound to happen; with a release that has lost its description it never completes, and raises at once if that release is built |
| `ReleaseController.CrowdGivesUp` | tools/reconcile_prod_releases.py:1238-1281 | 25 releases on a fresh installation take 101 actions |
| `Promotion.PlanEarns` | tools/release_reconciler.py:734-753 | the planner lets a release go live only if it is production already, was qualified on staging or is forced while on staging |
| `Promotion.InvStep` | tools/reconcile_prod_releases.py:576-1236 | every step of any run, with failures, rollbacks and restarts, keeps this, keeps built releases rooted and qualified ones built |
| `Promotion.ProductionIsEarned` | tools/reconcile_prod_releases.py:576-630 | in every reachable state the recorded, the saved and the served production were active on staging before and qualified or forced there, or are the one adopted deployment |
| `Promotion.PromotionHasACause` | tools/reconcile_prod_releases.py:1147-1236 | some earlier step of the run qualified or forced it while it was on staging, unless it is the single adopted one |
| `Promotion.PromotionIsCurrent` | tools/reconcile_prod_releases.py:1147-1236 | an activation that promotes another release unforced promotes the very commit, product manifest and files with which that release was qualified on staging, or adopted, at some step before, over every run with crashes |
| `Promotion.StagedIsBuilt` | tools/reconcile_prod_releases.py:869-879 | in every reachable state the release on staging is built, in memory and as saved |
| `Promotion.QualifiedThen` | tools/reconcile_prod_releases.py:1147-1181 | the qualification recorded happened while the release was on staging |
| `Promotion.ForcedThen` | tools/reconcile_prod_releases.py:966-974 | the force recorded named the exact tag while it was on staging |
| `Promotion.StagedThen` | tools/reconcile_prod_releases.py:1054-1060 | what counts as staged was recorded as staging at some point of the run |
| `Promotion.ReachableActivationIsReady` | tools/reconcile_prod_releases.py:895-914 | in every reachable state a planned activation finds manifests, roots, ready providers and endpoints |
| `Promotion.FailedActivation` | tools/reconcile_prod_releases.py:1046-1053 | an activation that fails, wherever, leaves the link on what was served before, unless nothing was; the link then stays where it was put |
| `Promotion.RecoveryCompletes` | tools/reconcile_prod_releases.py:576-630 | an activation interrupted after the switch is completed by the next run with the same assignment to exactly what would have been recorded, the bypass included |
| `Promotion.ActivationAgrees` | tools/reconcile_prod_releases.py:1054-1084 | channels and verdicts recorded by an activation are those the controller's own activation leaves |
| `Promotion.RecordsAgree` | tools/reconcile_prod_releases.py:704-1236 | so are the records of builds, checks, qualifications and the adoption |
| `Promotion.ServeSound` | tools/reconcile_prod_releases.py:576-630 | taking over a generation's metadata, after an activation or in recovery, introduces no unearned qualification |
| `Promotion.RecordSound` | tools/release_retirement.py:45-65 | no change of a release's record, forgetting its removed artifacts included, leaves a build without its files or a qualification that was not earned |
| `Generations.RootedStep` | tools/release_reconciler.py:1247-1284 | every durable write keeps all manifests of the serving generation listed; a switch makes it so |
| `Generations.ServedIsListed` | tools/release_reconciler.py:1254-1284 | at every point of every run, from the first activation's registry write on, the registry lists every manifest of the generation that is served |
| `Generations.DeletionIsUnlisted` | tools/reconcile_prod_releases.py:557-574 | maintenance deletes from a generation only after all its manifests have left the registry, and never from the serving one |
| `Generations.ClosedStep` | tools/reconcile_prod_releases.py:927-932 | no step leaves a listed path missing, except deleting a generation that is to be built again and pinning a daemon whose files are gone |
| `Generations.PinnedIsClosedIff` | tools/reconcile_prod_releases.py:1086-1092 | pinning leaves a listed path missing exactly if some pinned daemon's launch files are gone |
| `Generations.ClearedIsClosedIff` | tools/reconcile_prod_releases.py:927-932 | that deletion does so exactly if some manifest of the generation is still listed |
| `Generations.RebuiltIsClosedIff` | tools/reconcile_prod_releases.py:927-938 | building it again repairs the registry exactly if every listed manifest is written again |
| `Generations.WedgedStays` | tools/reconcile_prod_releases.py:482-493 | nothing a later run does before planning retention repairs it |
| `Retention.LeasesDoNotSlide` | tools/release_reconciler.py:1209-1236 | a lease never moves except to the still future drain deadline of a release that the generation roots; a first lease is one grace period |
| `Retention.ActiveIsKept` | tools/release_reconciler.py:1213-1215 | the serving generation and all its manifests are always retained |
| `Retention.RetainedIff` | tools/release_reconciler.py:1207-1238 | a generation is retained if and only if it serves, or its marker is in the future, or it is listed and has no marker or roots a release that still drains; every other one is expired; listed are exactly the retained ones' manifests and the pins |
| `Retention.ProtectedIff` | tools/release_reconciler.py:1238-1244 | the releases a plan protects are exactly those of which a generation that stays holds the manifest |
| `Retention.PlannedIff` | tools/release_reconciler.py:1164-1244 | a plan is made if and only if pinned launches exist and, if something is served, that exists, so does everything listed, and every generation that stays or whose drains are looked up is readable |
| `Retention.RetentionIsIdempotent` | tools/release_reconciler.py:1164-1244 | planning again at the same instant writes nothing and plans the same |
| `Retention.RetentionShrinks` | tools/release_reconciler.py:1164-1244 | with registry and drains unchanged, a later plan succeeds and retains only what was retained before |
| `Retention.RollbackIsPossible` | tools/reconcile_prod_releases.py:1046-1053 | after any switch the plan for switching back cannot fail |
| `Retention.SwitchMeans` | tools/release_reconciler.py:1254-1284 | after a switch the registry lists exactly the manifests of the new generation and of those that stay, and the pins; both sides have one grace period, unlisted others keep their marker, and the rest get the plan's |
| `Retention.BothSidesAreKept` | tools/release_reconciler.py:1257-1278 | for a grace period after a switch both generations are listed and retained, whatever drains meanwhile |
| `Retention.WedgedHasNoPlan` | tools/release_reconciler.py:1183-1205 | with a listed manifest missing, neither maintenance nor activation can plan retention |
| `ChannelRoot.ArtifactRoot.EveryPointIsRooted` | tools/release_reconciler.py:1254-1284 | wherever the methods below may be interrupted, what is served is listed |
| `ChannelRoot.ArtifactRoot.Renew` | tools/release_reconciler.py:1216-1236 | one generation's turn writes exactly its lease, and raises only where its roots are needed and unreadable |
| `ChannelRoot.ArtifactRoot.Retain` | tools/release_reconciler.py:1164-1244 | the nested loops compute the plan and write exactly its leases: retained is who serves, has a marker in the future, or is listed without a marker or with a release that drains; a listed generation's marker becomes the latest of its own, or one grace period, and those drain deadlines |
| `ChannelRoot.ArtifactRoot.PinLaunches` | tools/reconcile_prod_releases.py:1086-1092 | adds the daemons' launch paths and removes nothing |
| `ChannelRoot.ArtifactRoot.ReleaseLaunches` | tools/reconcile_prod_releases.py:470-474 | removes those launch paths and nothing else |
| `ChannelRoot.ArtifactRoot.ActivateGeneration` | tools/release_reconciler.py:1254-1284 | succeeds exactly if the generation is readable and retention can be planned, and then leaves link, registry and markers as `SwitchMeans` says; otherwise changes no root and no link |
| `ChannelRoot.ArtifactRoot.SwitchChannels` | tools/reconcile_prod_releases.py:1037-1053 | a switch that fails its checks leaves the link where it was, if there was one |
| `ChannelRoot.ArtifactRoot.Maintain` | tools/reconcile_prod_releases.py:482-574 | afterwards exactly the retained generations exist and exactly their manifests and the pins are listed; every generation that does not stay by its marker, listing or drains is gone and unlisted |
| `ChannelRoot.ArtifactRoot.Rebuild` | tools/reconcile_prod_releases.py:924-938 | refuses the serving generation, and otherwise leaves exactly the new manifests under that number |
| `ChannelRoot.RebuildWedges` | tools/reconcile_prod_releases.py:927-932 | generation 2, with staging, is switched to and taken back, then built again without staging: all retention planning ends |
| `ChannelRoot.TakenBackIsFine` | tools/reconcile_prod_releases.py:1046-1053 | for every disk and every switch that is taken back: nothing listed is missing, the former generation serves, and the failed one is still listed in full |
| `ChannelRoot.RebuildWedgesIff` | tools/reconcile_prod_releases.py:927-938 | building the failed generation again repairs the registry if and only if every manifest of the first attempt is written again; otherwise no retention can be planned |
| `InstanceRetirement.InvStep` | tools/live_feed_retirement.py:85-133 | every step, crashes included, keeps the files of every daemon that memory or saved state counts on, and keeps removals behind their deadlines |
| `InstanceRetirement.DeletionIsSafe` | tools/live_feed_retirement.py:117-133 | launch files are deleted only of a daemon that is unused, stopped, past its deadline, unlisted and saved as removed |
| `InstanceRetirement.LiveKeepsFiles` | tools/live_feed_retirement.py:85-133 | at every point of every run a daemon not marked as removed has all its files |
| `InstanceRetirement.PinsExist` | tools/reconcile_prod_releases.py:1086-1092 | which never happens: at every point of every run the daemons listed, and those that pinning would add, have their launch files |
| `InstanceRetirement.PinningIsClosed` | tools/reconcile_prod_releases.py:1086-1092 | so pinning keeps the registry free of missing paths |
| `InstanceRetirement.ActiveIsSpared` | tools/live_feed_retirement.py:85-90 | a call never stops or removes a daemon that a served release uses |
| `InstanceRetirement.CandidateIsKept` | tools/live_feed_retirement.py:114-116 | a candidate that was not removed before keeps its record and files |
| `InstanceRetirement.DeadlineIsFixed` | tools/live_feed_retirement.py:102-108 | a saved deadline never slides, whatever happens, until the daemon is used again |
| `DaemonRetirement.Daemons.StopDaemon` | tools/live_feed_retirement.py:102-113 | deadline saved first, then stopped, then recorded; fails exactly if the service stays up |
| `DaemonRetirement.Daemons.RetireInstances` | tools/live_feed_retirement.py:44-133 | the whole call, whatever the clock says: refuses exactly on unknown or unstoppable daemons, otherwise reaches the state given by `Retired`, which is what `RetiredMeans` says daemon by daemon, and reports exactly what it removed |
| `DaemonRetirement.RetiredRecord` | tools/live_feed_retirement.py:85-133 | daemon by daemon: used ones lose only their deadline, others end stopped, and removed exactly if no candidate and past the deadline |
| `DaemonRetirement.RetiredMeans` | tools/live_feed_retirement.py:85-133 | used daemons lose only their deadline; every other live one is down, without evidence, with its first deadline or one grace period, removed with all its files if it is no candidate and that deadline had passed, else stopped with its files; what was removed before has no files left |
| `DaemonRetirement.InterruptedRemovalEnds` | tools/live_feed_retirement.py:92-101 | a deletion that was interrupted is finished by the next call |
| `DaemonRetirement.RetiringAgain` | tools/live_feed_retirement.py:85-133 | a second call at the same time finds nothing to do |

## Left out

- Cycle snapshots (`pin_cycle` and the cycle half of `store_once`): directory copying without a clean invariant.
- NOTAM materialisation, ZIP and CRC verification, Borg's internals, disk-usage measurement: outcomes are parameters.
- SSH, systemd, nginx, git, cargo, HTTP probes, page rendering: outcomes are parameters or the success of a step.
- fsync, file hashing, path-safety and JSON field validation: writes are atomic and digests injective.
- The average predictor of the terrain analysis and its gzip and xz size report: there is no decoder for it.
- The audit's review candidates (collapsed limits and schedules, coarse bounds): easier comparisons.
- The chart editor, backlog, tool-cache, notice-publishing, CI and administration tools: easier or mostly I/O.
- Floating-point and microsecond rounding of effective times: times are integers.
- Error message texts and progress reports.
- Candidates: the frame listing is a parameter; that it shows what was published is a condition of the guarantee.
- Commit: the growth of the SQLite index and directory sizes is one parameter, `overhead`.
- RemoveTree: deletes a batch in two steps, a partial deletion and the rest; the transition system allows any order.
- CommitSealed: the tests that select a batch are one step; between any two steps the collector may run.
- Reconcile: actions succeed and daemons stay up, which is the premise of convergence; failures of single actions are in `Promotion`, not in the loop. Launch identities belong to one release each and listeners have an address. When a release that has lost its description is not built yet, whether the run raises, blocks or gives up first is not told apart.
- ArchivedOnce: while something expires or is renamed between the answer and its reading, nothing is claimed; the events then carry a gap or the time of the renamed file.
- Launch files of which some were already deleted are not taken up again, because maintenance finishes an interrupted removal before anything is prepared (`DaemonRetirement.InterruptedRemovalEnds`).
- Collect: if writing the pointer raises after it took effect, that today's batch is a seeded one is stated by `OpenDay` only.
- Maintain: the release files that maintenance deletes beside generations are not part of the disk modelled here; forgetting them is a step of `Promotion`.
- Retain: failures leave leases already renewed in place; which ones depends on the directory order, which is arbitrary.
- SwitchChannels: the clock does not go back between a switch and its rollback.
- Renew: registry and lease files are well-formed where they exist; malformed ones make the code raise before it writes.
- RetireInstances: malformed records and unexpected paths make the code raise before it changes anything and are not modelled.
- ProductionIsEarned: digests in qualification records are not modelled; a qualification that no longer matches its artifacts may lapse at any time.
