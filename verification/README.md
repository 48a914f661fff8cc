# Drive deletion, blob teardown and cluster bootstrap, verified in Dafny

This project models the parts of the storage gateway and of its deployment tooling whose correctness
depends on interleavings, lost replies and crashes, and proves what they promise.

- **Force delete of a drive.** A drive is a record in the root service, stored under compare-and-set, that
  names one incarnation of a bucket. A force delete takes a lease on the record, sweeps the bucket in
  batches while renewing the lease, deletes the bucket and drops the record. `DriveStore` holds the record
  and the contract of its store. `LeaseProtocol` is a step system in which any number of gateways, deletes,
  clocks, lost replies, late writes and process crashes interleave. `LeaseInvariant` proves what every step
  keeps, `LeaseTheorems` and `DropTheorems` what every reachable state and every continuation guarantees.
  `LeaseLife` says how long a lease lives and what others can do meanwhile, `DeleteAnswers` exactly when a
  delete ends how, and `DeleteRuns` that an undisturbed one completes.
  `LeaseLimits` states exactly when the promises hold that do not always hold, and `LeaseExamples` gives runs
  in which they fail. `Sweep` is the sweep itself, with its loops.
- **Creating a drive.** `CreateRace` is the race of concurrent creates for one record.
- **Listing drives.** `DrivePages` is the paged listing and the walk that follows its cursor.
- **Blob teardown.** `BlobTeardown` is one background deletion with its marker, grace window, blocks and
  paged rows; `DeletionWorker` is the loop that schedules deletions and retries.
- **Bootstrap.** `StageGraph`, `Kahn` and `Stages` are the stage graph, its topological order, the key names
  and the dependency lookup. `Barrier`, `BarrierInvariant` and `BarrierTheorems` are the roles' scripts over
  the completion markers, for any number of nodes; `BarrierStages` ties the markers to the declared stage
  dependencies.
- `Options`, `Sets`, `Text` and `Listing` hold what these share: optional values, set sizes, string order and
  the name store's paged listing.

Remote stores appear as contracts. A call that reports an error may have taken effect, now or, where the
`strict` flag of `LeaseProtocol.World` is off, later. Clocks, tokens, replies and the choice of the next step
are arbitrary.

## Where the code and its own description differ

The model follows the code. These are the places where a comment or a name says something else; each has a
member below that states what holds instead, or exactly when the description does.

- "Lost" after a read-back does not mean that another gateway holds the lease
  (`crates/s3_gateway/src/drive_sweep.rs:11-12`, `:212-214`): a renewal that failed without being applied is
  read back as lost while the record still carries the worker's own token, and a renewal that met a removal
  is read back as lost with no record and no lease stored at all. `LeaseLimits.LostMeansRivalIff`,
  `LeaseLimits.ReadBackIsExact`, `LeaseExamples.LostWithoutRival`, `LeaseExamples.LostToNobody`.
- A start call that answered "busy" can leave a lease without a sweeper behind it
  (`crates/s3_gateway/src/drive_sweep.rs:86-91`) if a write whose error was already reported can still land.
  `LeaseLimits.BusyLeavesNoLeaseIff`, `LeaseExamples.StragglerStrandsLease`.
- A worker that ended can leave its lease stored too: after a failed sweep, or after a loss it found while it
  was still the holder, the slot is released (`crates/s3_gateway/src/drive_sweep.rs:207-218`) and the record
  keeps the token. Until that lease expires, a further delete is answered as if a sweeper were renewing it
  (`crates/s3_gateway/src/drive_routes.rs:468-470`). `LeaseLimits.LeaseOutlivesWorkerIff`,
  `LeaseExamples.FailedSweepLeavesLease`.
- After a loss in the middle of a batch, keys of that batch that were not issued yet are issued too, not only
  the calls already issued (`crates/s3_gateway/src/drive_sweep.rs:252-254`). `LeaseLimits.IssuesAfterLossIff`,
  `LeaseLimits.LossIsSettled`, `LeaseExamples.IssuesKeyAfterLoss`; the bound of one batch in
  `LeaseTheorems.TakeoverBound` counts them.
- A plain delete reads any error text containing "not found" as "the bucket is gone"
  (`crates/s3_gateway/src/drive_routes.rs:516`), and the record of a live bucket is removed when the text
  meant something else, for example a missing API key. `LeaseLimits.NotFoundIsSafeIffGone`,
  `LeaseExamples.NotFoundTextDropsLiveRecord`.
- A create that lost the race for the record takes a record with another bucket root for an earlier
  incarnation (`crates/s3_gateway/src/drive_routes.rs:331-344`); it can be a later, live one, in this race or,
  with an attempt left, in the next. `CreateRace.RaceDropIsSafeIffGone`, `CreateRace.CreateSparesLiveIff`,
  `CreateRace.RaceDropsLiveRecord`.
- The teardown marker is taken as written although the name store answered the put with an error of its own
  (`crates/s3_gateway/src/blob_client.rs:525-540` does not look into the reply). The promise that a crash in
  the middle of a cleanup stays recoverable (`:44-47`) then fails for every mapped blob of two items or more. `BlobTeardown.RecoverableIffHonoured`,
  `BlobTeardown.RecoverableIffAccepted`, `BlobTeardown.RefusedPutLosesCover`.
- When the tree that held a mapped blob's rows is gone, the row sweep ends early
  (`crates/s3_gateway/src/blob_client.rs:614`) but the deletion of the marker then fails for the same reason,
  so the request is retried for ever. `BlobTeardown.Request.DeleteBlobOnce`,
  `BlobTeardown.GoneTreeNeverFinishes`.
- With all four slots busy and a due retry at the head of the queue, the worker's sleep ends at once and
  nothing changes, again and again (`crates/s3_gateway/src/blob_client.rs:275-280`).
  `DeletionWorker.Worker.Select`, `DeletionWorker.IdleWakeUp`.
- Key names sort in topological order only up to ten stages (`xtask/common/src/stages.rs:124-126`); there are
  eleven. `Stages.KeysSortedIffTen`, `Stages.BootstrapOrder`.
- `services-ready` declares `nss-journal-ready` and `bss-ready` as dependencies
  (`xtask/common/src/stages.rs:244-250`), but followers, storage nodes and name servers that do not own the
  journal complete it without waiting for the former, and followers without the latter; and in metadata-stack
  tests storage nodes are configured before `rss-initialized`. `BarrierStages.DependenciesComeFirst` names the
  exemptions, `BarrierStages.ConfiguredEarlyIff` is the exact condition of the last one.
- The example "10-etcd-ready" in the comment on key names (`xtask/common/src/stages.rs:125`) is "20-etcd-ready"
  by the code. `Stages.BootstrapOrder`.
- With etcd, the leader stops with an error if it counts the registered storage nodes too early
  (`infra/fractalbits-bootstrap/src/root_server.rs:385-397`). `BarrierTheorems.GivesUpIff`,
  `BarrierTheorems.AllFinishIff`.

## Model

| member | source | states |
|---|---|---|
| LeaseInvariant.StepKept | crates/s3_gateway/src/drive_sweep.rs:78-381 | every step of every gateway, store, clock and crash keeps the joint invariant of record history, bucket incarnations, lease tokens, worker slots and delete tasks |
| LeaseInvariant.ReachableIsSound | crates/s3_gateway/src/drive_sweep.rs:78-381 | the invariant holds in every reachable state |
| LeaseInvariant.LeaseNamesPut | crates/s3_gateway/src/drive_sweep.rs:126-139 | among all writes ever sent, token and heartbeat single out one |
| LeaseInvariant.ReadBackIsTheWrite | crates/s3_gateway/src/drive_sweep.rs:130-159 | a read-back that reconciles has found the very write it was reconciling, under the version it was stored as |
| LeaseTheorems.LandedWritesAreContiguous | crates/s3_gateway/src/drive_sweep.rs:92-174 | whatever replies were lost, all writes a worker was told had landed were applied, and no other change of the record lies between two of them or between the first and the record its request resolved |
| LeaseTheorems.LeaseIdentifiesChange | crates/s3_gateway/src/drive_sweep.rs:237-250 | no two changes of the record carry the same lease token and heartbeat |
| LeaseTheorems.EveryLeaseWriteIsFenced | crates/s3_gateway/src/drive_sweep.rs:92-125 | each lease write in the history renews the change right before it by the same worker, or takes over exactly the record its request saw without a live lease |
| LeaseTheorems.TakeoverSupersedes | crates/s3_gateway/src/drive_sweep.rs:8-13 | once the record no longer carries the token of a worker that has held the lease, whether or not that worker knew, the worker is superseded |
| LeaseTheorems.BudgetNeverGrows | crates/s3_gateway/src/drive_sweep.rs:255-381 | no step of anyone lets a superseded worker delete more than it could before |
| LeaseTheorems.SupersededRun | crates/s3_gateway/src/drive_sweep.rs:255-381 | over every continuation a superseded worker stays superseded and its budget of deletes does not grow |
| LeaseTheorems.TakeoverBound | crates/s3_gateway/src/drive_sweep.rs:9-13 | after a takeover, over every continuation, the former holder deletes at most one batch of 100 objects or one fenced bucket, never both; also if its first lease write had landed without its knowing |
| LeaseTheorems.OneIncarnationPerTask | crates/s3_gateway/src/drive_sweep.rs:285-381 | every listing, object delete and bucket delete of a request aims at the bucket root it resolved; no renewal, read-back or re-read moves its handle to another drive or incarnation |
| LeaseTheorems.CheckedRemovalIsPermanent | crates/s3_gateway/src/drive_routes.rs:153-202 | a record removed after a bucket read or a fenced delete named an incarnation that is gone and stays gone over every continuation |
| LeaseTheorems.SlotMeansOneWorker | crates/s3_gateway/src/drive_sweep.rs:78-125 | a process has the drive registered exactly while one start call or worker for it is alive there, never two |
| LeaseTheorems.ReleasedExactlyOnce | crates/s3_gateway/src/drive_sweep.rs:92-219 | each registration is released exactly once: never before its start call or worker has ended, and always by then, short of a process death |
| LeaseTheorems.NoLeaseWithoutWorker | crates/s3_gateway/src/drive_sweep.rs:86-125 | if errors are reported only for writes no longer on their way, "busy" leaves no lease behind, and a lease stored without its sender knowing has a sender that holds its slot, short of a process death |
| LeaseLife.AliveIff | crates/common/data_types/src/drive.rs:91-94 | a lease is alive exactly until a full lease time after its heartbeat |
| LeaseLife.RenewalIsLeast | crates/s3_gateway/src/drive_sweep.rs:242-244 | a renewal carries the least heartbeat that is neither before the clock nor one written before, changes nothing else, and keeps the lease alive for a full lease time from the clock |
| LeaseLife.TakingStartsLease | crates/s3_gateway/src/drive_sweep.rs:102-108 | taking a lease starts it at the clock and keeps drive, bucket and first deletion time |
| LeaseLife.EveryWriteIsMade | crates/s3_gateway/src/drive_sweep.rs:92-250 | over every run, each lease write takes the record its request resolved or renews the write before it, at the clock reading it was sent at |
| LeaseLife.HistoryIsMade | crates/s3_gateway/src/drive_sweep.rs:92-250 | over every run, each lease write in the record's history is a takeover or a renewal of the very record before it |
| LeaseLife.FirstDeletionTimeStays | crates/s3_gateway/src/drive_sweep.rs:103-106 | no renewal or takeover changes the drive, its bucket or the time its deletion was first asked for |
| LeaseLife.TakeoverWaitsOut | crates/s3_gateway/src/drive_routes.rs:468-480 | over every run, a takeover had read the record at least a full lease time after the clock reading at which the write it replaced was sent |
| LeaseLife.StoredLeaseIsSeen | crates/s3_gateway/src/drive_routes.rs:426-430 | whoever resolves the record while a lease write is stored has that write in hand |
| LeaseLife.LiveLeaseIsRespected | crates/s3_gateway/src/drive_routes.rs:468-480 | a force delete that resolved a lease write answers "in progress" exactly while that lease is alive and takes over exactly once it is not, if its process is free |
| DeleteAnswers.DeleteOutcomeIff | crates/s3_gateway/src/drive_routes.rs:417-523 | over every run, short of a process death: accepted, busy, not taken, lease lost, dropped, not droppable or failed, each exactly if the delete met what stands for it; dropped exactly if its removal was answered or a re-read found another drive or none, given up exactly after three re-reads of its own drive |
| DeleteRuns.UndisturbedDelete | crates/s3_gateway/src/drive_sweep.rs:285-380 | from every reachable state in which a force delete holds the stored record of a live bucket without a live lease and its process is free, and for every listing, it can delete exactly the listed keys in order, the bucket and the record, report so and free its process |
| DeleteRuns.UndisturbedPlainDelete | crates/s3_gateway/src/drive_routes.rs:494-522 | the same for a plain delete |
| DeleteRuns.ReplacedBucketIsSpared | crates/s3_gateway/src/drive_sweep.rs:364-373 | if the bucket is replaced while the fenced delete is on its way, the delete can still drop its own record and report so, and the new bucket stays |
| DeleteAnswers.ForceDecides | crates/s3_gateway/src/drive_routes.rs:450-499 | in every reachable state, only a force delete has taken a lease or sweeps, and only a plain one deletes the bucket without either |
| LeaseLimits.ReadBackIsExact | crates/s3_gateway/src/drive_sweep.rs:130-139 | reconciling succeeds if and only if the last write is the stored record at that moment |
| LeaseLimits.LostMeansRivalIff | crates/s3_gateway/src/drive_sweep.rs:145-159 | when a read-back does not find its write, the stored token is nevertheless the worker's own exactly if an earlier write of it landed and the record read still has the version the write was to replace; and another delete's token is stored exactly if that is not the case and the record read carries a token at all |
| LeaseLimits.BusyLeavesNoLeaseIff | crates/s3_gateway/src/drive_sweep.rs:109-118 | after a start call answered "busy" on a lost write, its token is not stored now or in any continuation exactly if it is not stored now and either errors are reported only for writes no longer on their way or the record has left the version the write was to replace |
| LeaseLimits.LeaseOutlivesWorkerIff | crates/s3_gateway/src/drive_sweep.rs:86-219 | a start call or worker that ended short of a process death leaves its token stored exactly if the record still has the version of its last write that landed or, where errors are reported for writes still on their way, is its last write; the token is out for good exactly if it is not stored and, in that case, no first write of it can land late |
| LeaseLimits.IssuesAfterLossIff | crates/s3_gateway/src/drive_sweep.rs:255-283 | after a loss, some continuation issues further object deletes exactly if the loss came in the middle of a batch with keys left |
| LeaseLimits.LossIsSettled | crates/s3_gateway/src/drive_sweep.rs:255-283 | over every continuation, a worker that reports the loss has issued exactly the rest of its batch, and no other ending issues more |
| LeaseLimits.NotFoundIsSafeIffGone | crates/s3_gateway/src/drive_routes.rs:494-522 | after a "not found" text, no continuation has this delete remove the record of a live bucket, re-reads and retries included, exactly if the bucket its record names is not live at that moment |
| LeaseExamples.StragglerStrandsLease | crates/s3_gateway/src/drive_sweep.rs:92-125 | a reachable state in which a late write left a lease nobody sweeps under |
| LeaseExamples.LostWithoutRival | crates/s3_gateway/src/drive_sweep.rs:145-159 | a reachable state in which a worker found its lease lost while its own token is the stored one |
| LeaseExamples.LostToNobody | crates/s3_gateway/src/drive_sweep.rs:145-159 | a reachable state in which a worker finds its lease lost and no lease is stored |
| LeaseExamples.FailedSweepLeavesLease | crates/s3_gateway/src/drive_sweep.rs:207-218 | a reachable state after a failed sweep: the slot is free, the worker's own token is stored and its lease still reads as alive |
| LeaseExamples.IssuesKeyAfterLoss | crates/s3_gateway/src/drive_sweep.rs:271-281 | a reachable state after a loss with no key of the batch issued, and the next step that issues one |
| LeaseExamples.NotFoundTextDropsLiveRecord | crates/s3_gateway/src/drive_routes.rs:516 | a reachable state in which the record of a live bucket was removed on a "not found" text |
| DropTheorems.RemovesOnlyItsOwn | crates/s3_gateway/src/drive_routes.rs:153-177 | whatever a delete request or its worker removes is the record of the drive and incarnation that this very request resolved, removed after its own drop began |
| DropTheorems.DroppedMeansAbsent | crates/s3_gateway/src/drive_routes.rs:153-177 | a drop that reports success met a moment of its own call, no earlier than its start and no later than its end, at which no record of that drive and incarnation was stored |
| DriveStore.VersionsAreUnique | crates/s3_gateway/src/lib.rs:637-658 | under the compare-and-set contract no version is stored twice |
| DriveStore.FencedWriteFollows | crates/s3_gateway/src/lib.rs:637-658 | a write that names a version directly follows the change that stored it |
| DriveStore.VersionsNeverReturn | crates/s3_gateway/src/lib.rs:637-680 | a version is current exactly while its change is the last one |
| Sweep.SweepBucket | crates/s3_gateway/src/drive_sweep.rs:285-380 | `Done` exactly if no call failed, no authorization was refused, no renewal was lost and the bucket was not replaced, and each other outcome exactly if its cause came first; `Done` means no key starting with a slash, no bucket and no record are left; keys of the other spaces stay under every outcome; the record goes only once the bucket is gone; the counts are of distinct keys that went, and of all of them when no key is an upload part of another |
| Sweep.SweepPages | crates/s3_gateway/src/drive_sweep.rs:314-354 | the page loop runs out exactly if nothing failed, was refused or was lost, and then no user key is left |
| Sweep.DeleteSwept | crates/s3_gateway/src/drive_sweep.rs:356-380 | the bucket delete is sent only right after an authorization and a kept renewal; each outcome exactly by its cause |
| Sweep.SweepAgain | crates/s3_gateway/src/drive_sweep.rs:13-16 | over any number of sweeps cut short and resumed, a final `Done` leaves nothing, no key is counted twice, and without errors and upload parts every key is counted; with nothing going wrong the first sweep is the last |
| Sweep.SweepPage | crates/s3_gateway/src/drive_sweep.rs:340-353 | of a page, exactly an initial stretch of whole batches was seen to go, all of it if the lease was kept; it reports a failure or a loss exactly if there was one |
| Sweep.DeleteBatch | crates/s3_gateway/src/drive_sweep.rs:255-283 | only keys of the batch and their parts go, and all of them unless a call failed; it reports success exactly if no call failed and a kept lease exactly if no renewal was lost |
| Sweep.TallyCounts | crates/s3_gateway/src/drive_sweep.rs:346-349 | the running count equals the number of keys gone, up to parts that went with their object |
| CreateRace.CreatesConverge | crates/s3_gateway/src/drive_routes.rs:311-346 | concurrent creates of one undisturbed bucket incarnation, with lost replies, store at most one record for it, it stays the current one, and every OK answer carries its id |
| CreateRace.CreateOutcomeIff | crates/s3_gateway/src/drive_routes.rs:277-347 | over every run, a create fails exactly if a call of it failed, its drop met the drive it was after three times, or it lost the race three times; it answers OK exactly if it found a record of the live bucket, had its put acknowledged or lost to a record of its own incarnation, with that id |
| CreateRace.AcknowledgedIsAnswered | crates/s3_gateway/src/drive_routes.rs:322-327 | on an undisturbed bucket, a create whose put was acknowledged answers with the id of the current record, which is the one it made |
| CreateRace.UndisturbedCreate | crates/s3_gateway/src/drive_routes.rs:277-327 | a create that nobody disturbs stores its record and answers with its id |
| CreateRace.CreateCanGoOn | crates/s3_gateway/src/drive_routes.rs:277-347 | until it has answered or failed, a create can go on |
| CreateRace.CreateEnds | crates/s3_gateway/src/drive_routes.rs:322-347 | whatever the others do, a create is over after a fixed number of steps of its own |
| CreateRace.RaceDropIsSafeIffGone | crates/s3_gateway/src/drive_routes.rs:331-344 | from the moment a create sets out to drop the record that won the race, no continuation has it remove a record of that incarnation while the bucket is live, exactly if the bucket is not live at that moment |
| CreateRace.CreateSparesLiveIff | crates/s3_gateway/src/drive_routes.rs:322-346 | from a lost race to a record of another incarnation on, no continuation has this create remove the record of whatever bucket is live then, later races of the same create included, exactly if the winner's bucket is not live and the last of the three attempts was used |
| CreateRace.RaceDropsLiveRecord | crates/s3_gateway/src/drive_routes.rs:331-344 | a run in which a slow create removes the record of a newer live bucket |
| DrivePages.VisibleIsListing | crates/s3_gateway/src/drive_routes.rs:372-374 | filtering and sorting yield every live readable drive once, in name order |
| DrivePages.OrderIsUnique | crates/s3_gateway/src/drive_routes.rs:374 | only one sequence is that listing |
| DrivePages.PageIsExact | crates/s3_gateway/src/drive_routes.rs:357-389 | for any cursor, a page starts right after it, misses nothing, is full when there is more, and its next cursor bounds what is left |
| DrivePages.LimitIsAsAsked | crates/s3_gateway/src/drive_routes.rs:357 | a limit within the bounds is taken as asked for, any other moved to the nearer bound, none means the default |
| DrivePages.Walk | crates/s3_gateway/src/drive_routes.rs:349-390 | following the cursor from the start ends and yields the listing, for any limit |
| BlobTeardown.Request.DeleteBlobOnce | crates/s3_gateway/src/blob_client.rs:397-437 | keeps, at every moment a crash may hit, the order grace, blocks, rows, marker; success means blocks, rows and marker are gone; an attempt without failed calls succeeds exactly if the grace window is over and a mapped blob still has its tree |
| BlobTeardown.Request.Attempts | crates/s3_gateway/src/blob_client.rs:383-395 | the same over any number of retries; with the window over and no failed call, the first attempt finishes exactly if a mapped blob still has its tree |
| BlobTeardown.Request.DeleteLayoutBlocks | crates/s3_gateway/src/blob_client.rs:439-507 | reports success exactly if no call failed, and then every block is gone, whatever order the deletes ran in |
| BlobTeardown.Request.SweepRows | crates/s3_gateway/src/blob_client.rs:578-646 | reports success exactly if no call failed, and then every row is gone, over any number of pages; it ends |
| BlobTeardown.Request.DeleteOvrRows | crates/s3_gateway/src/blob_client.rs:578-650 | the marker goes only after every row; success exactly if no call failed and the tree exists |
| BlobTeardown.Request.WriteGcMarker | crates/s3_gateway/src/blob_client.rs:509-541 | reports success unless the call itself failed; success without a marker means the put was refused |
| BlobTeardown.Request.WaitOutGrace | crates/s3_gateway/src/blob_client.rs:413-419 | the window is only left once the deadline has passed, and then always |
| BlobTeardown.Request.constructor | crates/s3_gateway/src/blob_client.rs:103-123 | a new request starts in the invariant, with its deadline one grace period away |
| BlobTeardown.PassesThroughPartial | crates/s3_gateway/src/blob_client.rs:397-437 | a teardown of two items or more passes through a half-torn-down state |
| BlobTeardown.RecoverableIffHonoured | crates/s3_gateway/src/blob_client.rs:44-48 | a finished teardown of a mapped blob was recoverable by its marker at every moment exactly if the marker was stored when the put was taken as done or the blob had fewer than two items; without that marker a put was refused |
| BlobTeardown.RecoverableIffAccepted | crates/s3_gateway/src/blob_client.rs:525-540 | with a store that treats all puts alike: exactly if it accepts puts, an older marker was there, or the blob had fewer than two items |
| BlobTeardown.RefusedPutLosesCover | crates/s3_gateway/src/blob_client.rs:402-412 | a teardown that reports success and was half done without a marker |
| BlobTeardown.GoneTreeNeverFinishes | crates/s3_gateway/src/blob_client.rs:612-649 | with its tree gone, no number of attempts finishes a mapped blob's deletion |
| DeletionWorker.Worker.Run | crates/s3_gateway/src/blob_client.rs:211-287 | over every sequence of events: no request is lost or doubled, at most four attempts run, retries are queued by time, neither source is passed over twice in a row, and the worker returns only when everything accepted is finished; undisturbed, it accepts exactly what arrives while the channel is open |
| DeletionWorker.Worker.Select | crates/s3_gateway/src/blob_client.rs:260-285 | every arm leads back to a state that listens to something besides the stop signal, or to the end; a request is finished exactly by an attempt that was done; a due retry wakes the loop to start an attempt exactly if a slot is free |
| DeletionWorker.Worker.RunArm | crates/s3_gateway/src/blob_client.rs:260-285 | what one arm does before the loop resumes: a received request takes a slot, an ended attempt is finished or queued again one delay later, the sleep arm runs exactly if a retry is due and changes neither slots nor queue |
| DeletionWorker.IdleWakeUp | crates/s3_gateway/src/blob_client.rs:275-280 | a run of the loop's own arms, from a new worker, to a state with every slot taken and a due retry, in which the wake-up changes nothing |
| DeletionWorker.Worker.Look | crates/s3_gateway/src/blob_client.rs:225-252 | one look at the sources starts one attempt exactly if a request waits in the intake or a retry is due; finding neither, it notices a closed channel |
| DeletionWorker.Worker.Admit | crates/s3_gateway/src/blob_client.rs:224-253 | the same while requests arrive and time passes; it leaves no passed-over retry behind when it starts none |
| DeletionWorker.Worker.EndAttempt | crates/s3_gateway/src/blob_client.rs:270-274 | an attempt frees its slot; done, its request counts as finished, otherwise it joins the end of the queue, due one delay from now, and the queue stays ordered |
| DeletionWorker.Worker.StartRetry | crates/s3_gateway/src/blob_client.rs:229-234 | the head of the queue moves to a slot; nothing is lost and the turn is recorded |
| DeletionWorker.Worker.StartIntake | crates/s3_gateway/src/blob_client.rs:235-241 | the first request of the intake moves to a slot; nothing is lost and the turn is recorded |
| DeletionWorker.Worker.Fill | crates/s3_gateway/src/blob_client.rs:224-253 | fills the free slots and changes nothing if there are none |
| DeletionWorker.Worker.Drain | crates/s3_gateway/src/blob_client.rs:195-209 | from every state with a closed intake, attempts that succeed bring the worker to its end with everything finished |
| DeletionWorker.TakesTurn | crates/s3_gateway/src/blob_client.rs:229-251 | each admission keeps the turn-taking law between intake and retries |
| StageGraph.ReferenceEnds | xtask/common/src/stages.rs:269-302 | repeatedly emitting what has become ready ends with every stage emitted once, after its dependencies, and nothing ready left out |
| StageGraph.CompleteIffAcyclic | xtask/common/src/stages.rs:307-323 | such an order holds every stage exactly if every reference resolves and there is no cycle |
| StageGraph.FullLengthIsComplete | xtask/common/src/stages.rs:301 | comparing lengths is a correct test for completeness |
| Kahn.CountDependencies | xtask/common/src/stages.rs:270-279 | the counters and lists of the first loop say how many dependencies each stage misses and who depends on what |
| Kahn.PushedIsNewlyReady | xtask/common/src/stages.rs:288-298 | a pass over a name's dependents queues exactly the stages it makes ready, in list order |
| Kahn.Relax | xtask/common/src/stages.rs:288-298 | one round keeps the counters right and extends the queue like the counter-free reference |
| Kahn.TopologicalOrder | xtask/common/src/stages.rs:269-302 | computes the reference's order for any map iteration order, and fails exactly on an unresolved reference or a cycle |
| Kahn.ValidateDag | xtask/common/src/stages.rs:307-323 | accepts exactly the lists whose references resolve and that have no cycle, and names an edge that does not resolve |
| Stages.SameOrderIffOneRoot | xtask/common/src/stages.rs:269-302 | all processes compute the same order, whatever their map iteration order, exactly if at most one stage has no dependency |
| Stages.KeysSortedIffTen | xtask/common/src/stages.rs:124-134 | key names sort in topological order exactly up to ten stages |
| Stages.KeyIsExact | xtask/common/src/stages.rs:127-134 | the key of a stage is its tenfold position in decimal, read from the left, with at least two digits and no padding beyond that, a dash and the name |
| Stages.KeyDetermines | xtask/common/src/stages.rs:127-134 | a key tells both the stage and its position |
| Stages.KeysDiffer | xtask/common/src/stages.rs:127-134 | in an order no two stages share a key |
| Stages.FindsExactlyTheClosure | xtask/common/src/stages.rs:137-150 | the lookup finds a name exactly if it is in the stage's transitive closure, and then returns such a stage |
| Stages.FindDependency | xtask/common/src/stages.rs:137-150 | the recursive loop computes that lookup |
| Stages.VerifiedDepIsEarlier | xtask/common/src/stages.rs:87-108 | a dependency handed out by the checked helpers sits strictly earlier in the order and has the scope asked for; it is refused exactly outside the closure |
| Stages.BootstrapOrder | xtask/common/src/stages.rs:152-265 | every process computes the same listed order of the eleven bootstrap stages, which fixes each key name; these names are not sorted |
| BarrierInvariant.StepKept | infra/fractalbits-bootstrap/src/workflow.rs:133-253 | every step of every node keeps the invariant: what a node has passed holds, the owner is named once, the journal's format log is exact, markers come from the right roles |
| BarrierInvariant.ReachableIsSound | infra/fractalbits-bootstrap/src/workflow.rs:133-253 | the invariant holds in every reachable state |
| BarrierStages.MarkersAreBacked | infra/fractalbits-bootstrap/src/bss_server.rs:69-140 | in every reachable state, only a role that completes a stage has marked it, and each marker of each role has behind it what its script waits for and does before |
| BarrierStages.DependenciesComeFirst | xtask/common/src/stages.rs:152-250 | in every reachable state a completed stage has its declared scope, and the stages it declares as dependencies are completed, except where a role is exempt |
| BarrierStages.ConfiguredEarlyIff | infra/fractalbits-bootstrap/src/bss_server.rs:115-135 | a storage node can be configured before the root servers are initialized exactly if the metadata stack is being tested and any etcd cluster can form |
| BarrierTheorems.FormattedOnce | infra/fractalbits-bootstrap/src/nss_server.rs:134-180 | at most one format in any run, by the name server the leader named, after the metadata volumes were signalled and the required number of distinct storage nodes were configured and serving |
| BarrierTheorems.StuckMeansFinished | infra/fractalbits-bootstrap/src/root_server.rs:134-247 | with enough storage nodes, name servers and, in high-availability mode, root servers, a reachable state in which no node can move has every node at the end of its script, unless the leader gave up |
| BarrierTheorems.FinishNeedsNodes | infra/fractalbits-bootstrap/src/nss_server.rs:294-302 | conversely, the leader can only come to its end with that many nodes |
| BarrierTheorems.AllFinishIff | infra/fractalbits-bootstrap/src/workflow.rs:190-253 | every maximal run brings every node to its end exactly if there are enough nodes and the leader cannot give up |
| BarrierTheorems.RunsUseUpSteps | infra/fractalbits-bootstrap/src/workflow.rs:190-253 | every move uses up one step of the scripts, so every run is finite |
| BarrierTheorems.GivesUpIff | infra/fractalbits-bootstrap/src/root_server.rs:385-397 | some run ends with the leader's error exactly if etcd is used and the leader expects more storage nodes than form the cluster, and more than one |

## Left out

- In-place updates of the drive handle: the lease protocol is a step system over values, because its content is interleaving; aliasing inside one gateway is not modelled.
- Several drive names: each name has its own record, slot and bucket, so one name is modelled.
- Overflow of 64-bit millisecond clocks and of `sweep_heartbeat_ms + 1`.
- Authorization, API keys, HTTP shapes, JSON, logging, metrics and TLS; a refused authorization is one more way a step or a sweep fails.
- RPC retries and time limits: a call is sent, applied any time later or never, and answered or not.
- The order and the limit of concurrent deletes inside a batch beyond "any order"; the semaphores that limit RPCs.
- LeaseTheorems.TakeoverBound: counts object deletes, not the extra multipart and blob clean-up a single object delete starts.
- LeaseTheorems.NoLeaseWithoutWorker: has the `strict` network as a hypothesis; the exact conditions without it are `LeaseLimits.BusyLeavesNoLeaseIff` for start calls and `LeaseLimits.LeaseOutlivesWorkerIff` for whatever has ended.
- Sweep.SweepBucket: no other writer adds keys during the sweep; entries without a layout, which a listing without delimiter does not produce, are not modelled.
- BlobTeardown.Request.DeleteBlobOnce: no other actor works on the blob, and the tree's presence does not change during the deletion.
- CreateRace.CreateOutcomeIff: an answer from an existing record stands for OK and for the conflict answers that depend on its status, owner and metadata.
- DeleteRuns.UndisturbedDelete: shows that such a run exists; which steps the environment takes is its own choice.
- DeletionWorker.Worker.Run: the channel's capacity and back-pressure on senders.
- DeletionWorker.Worker.Drain: shows that a drain can always complete; it does not bound how often attempts fail.
- BarrierTheorems.StuckMeansFinished: each node runs once and waits without a time limit; scripts do not fail except for the leader's count, and discovery back ends differ only in how storage nodes are counted.
- Volume group arithmetic, configuration files, packages and service management of the bootstrap.
- Object listing, object deletion, erasure coding and the storage servers: contracts only.
