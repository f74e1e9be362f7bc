# Nodus vision: a verified model

A Dafny model of the concurrent core of the vision node, with proofs about all of its runs.
`dafny verify dfyconfig.toml` checks the whole project.

## What is modelled

**Recording lifecycle** (`Recording*.dfy`). The recording manager with its non-blocking producer, its
ring, its one worker and three competing stop causes, on top of the staging and finalized store.
Every block under the manager's mutex and every filesystem or encoder call is one step of a state
machine (`RecordingLifecycle`); the scheduler, the clocks, the outcome of each call, crashes and
restarts are inputs, so a theorem about `After(cfg, run)` for every `run` speaks about every
interleaving and every crash point. `RecordingInvariant` holds what is kept, `RecordingSafety` and
`RecordingWorkerSafety` that every step keeps it, `RecordingTheorems` what follows, and
`RecordingTraces` concrete runs that show where the manager falls short. `RecordingManager` is the
object itself, with its ring in an array: each block under the mutex is proved to compute the state
machine's step on the object's view, in which the ring is a queue. `RecordingFiles` has the write loop
of an evidence file and the sidecar writer, and `RecordingRestart` says exactly what is replayed after a
restart.

The chronicle in each archive record, and `opens`/`target` of a file slot, belong to an observer:
no operation reads them.

**Pilot client** (`Pilot*.dfy`). The single worker that registers, publishes a catalog and then writes
heartbeats and states, against a server that may answer anything at any time, with updates and a stop
between any two steps. `PilotObserver` reads only the marks on the wire and defines which mark may
come next; `PilotSafety` proves every trace lawful, `PilotTheorems` spells that out in terms of
positions in the trace. `PilotWorker` has the three loops as they are written and proves that they do
what the state machine does on every script of events, and that they stop short of their end only when
the script does.

**Stream sessions and the session table** (`Stream*.dfy`, `HttpSession.dfy`). One completion handler is
one step of the I/O thread. A wait on the idle timer that has expired can no longer be cancelled: its
handler runs with success later, whatever has happened in between.

**PCD1 version 2** (`Pcd1*.dfy`). The byte format, reader and writer, with their loops, the rotation test on
the matrix included. Floats are 32-bit patterns; how the processor adds, multiplies and compares two of
them is a parameter, so everything holds for every rounding.

**Camera mount transform** (`Mount*.dfy`). Over exact reals; an angle is a pair of cosine and sine whose
squares sum to one.

**Fake frame queries** (`FakeFrame*.dfy`). Depth statistics of a region of interest and the sampled point
cloud, over exact reals.

**Latest-wins stores** (`LatestStores.dfy`). The frame slot, the two preview slots, and the encoder between
them, interleaved with everybody else.

## Results that differ from what one might expect

- What a finalized directory holds needs no hypothesis on stop evidence: frames, sidecar, counts and
  digests are right in every run. The stop evidence and the manifest's stop reason are another matter
  (`StopEvidenceOnce`). The directory holds the text of the cause that stopped the recording if and only if
  writing it did not fail before its rename. The manifest names that cause if and only if the write did not
  fail at all, neither before the rename nor after it (the directory sync, or the deadline passed), or the
  cause was the shutdown, which is what a manifest says after every failure. So the text on disk and the
  manifest contradict each other exactly when the write of another cause failed after its rename.
- FAULTED is not final. When stop evidence fails, the state is FAULTED while the worker goes on, and it
  may publish FINALIZED without stop evidence (`OrphanFinalizes`, `FinalizedWithoutStopEvidence`,
  `ShutdownWithoutStopEvidence`), or with the text of a request that its manifest denies
  (`LateStopContradictsTheManifest`).
- A start or stop text over 1048576 bytes is accepted and written, but never read back. A recording started
  with one refuses every HTTP stop, in every run, and its start is not replayed after a restart
  (`LongStartRefusesEveryStop`, `LongStartIsNeverReplayed`). Apart from that, replay across restarts is
  exact: `RestartReplaysTheSameStart` and `RestartReplaysTheSameStop` say if and only if.
- The sidecar's own order check is not redundant. After failed stop evidence, a replayed stop of another,
  finalized recording clears the last identity in memory, and a worker still at work then passes a frame
  that is older than its last one; the sidecar refuses it (`ReplacedMemoryLetsAnOldFramePass`). As long as
  memory is about the worker's recording, it refuses nothing that the worker passed.
- A start that joins the worker under the mutex blocks for ever exactly when that worker has not finished,
  which happens only after failed stop evidence (`JoinDeadlocksExactlyWhenWorkerIsAlive`,
  `JoinBlocksOnlyAfterFailedEvidence`). It happens after a failed HTTP stop, and also with no caller's
  fault at all: when the worker's own maximum-duration evidence fails, between the place that sets FAULTED
  and the worker's catch clause (`FailedHttpStopThenStartDeadlocks`, `FailedTimeoutThenStartDeadlocks`).
- A session can be closed by its idle timer while it writes a part, exactly when a notification came
  between the expiry of the wait and its handler (`TimerClosesAWritingSessionIff`).
- A notification during the header write has no effect at all (`NotificationDuringHeaderIsLost`).

## Model

| member | source | states |
|---|---|---|
| RecordingTheorems.FinalizedIsExactlyTheAdmittedFrames | src/recording/recording_manager.cpp:364-412 | In every run with crashes anywhere, a finalized directory has start evidence and a closed video and sidecar with exactly the admitted frames in admission order, indices and PTS 0..n-1, strictly increasing numbers of one generation; its manifest is on disk in full, admitted = submitted = n, admitted + drops = offered, first and last frame, digests of those files |
| RecordingTheorems.FinalizedStateIsOnDisk | src/recording/recording_manager.cpp:408-411 | The status FINALIZED always names a recording whose finalized directory exists |
| RecordingTheorems.StopEvidenceOnce | src/recording/recording_manager.cpp:329-350 | Stop evidence is attempted at most once per started recording whoever races. In a finalized one the request id is non-null exactly for reason `requested`; the cause's text is on disk if and only if the attempt did not fail before its rename, and nothing is otherwise; the manifest names the cause if and only if the attempt did not fail or the cause was the shutdown, and says application shutdown after any failure; so text and manifest contradict each other if and only if the attempt of another cause failed after its rename |
| RecordingTheorems.DiskIsConsistent | src/recording/recording_store.cpp:39-71 | At every step of every run, so at every crash: no id is both staged and finalized, every evidence file is absent or complete, its temporary a prefix, and it was opened at most once |
| RecordingTheorems.FinalizedNeverChanges | src/recording/recording_store.cpp:143-160 | Once a finalized directory exists it stays the same through every continuation, crashes and restarts included |
| RecordingTheorems.StartedAtMostOnce | src/recording/recording_manager.cpp:65-142 | Across all crashes and restarts a recording id is answered `e_STARTED` at most once |
| RecordingTheorems.AnswersHaveEvidence | src/recording/recording_manager.cpp:202-268 | Every text that was ever answered with success, new or replayed, is the evidence on disk for that id, then and for ever after |
| RecordingRestart.RestartReplaysTheSameStart | src/recording/recording_manager.cpp:81-90 | After a crash at any point, the first start of an id that was ever answered is replayed if and only if its text is the evidence's, that text and any stop evidence are at most 1048576 bytes, and reading succeeds; the state is then what the disk says. Any other start is refused without effect; no recording starts and the disk stays the same |
| RecordingRestart.RestartReplaysTheSameStop | src/recording/recording_manager.cpp:228-244 | After a crash at any point, the first stop of an id whose HTTP stop was ever answered is replayed if and only if its text is the evidence's, is at most 1048576 bytes, the recording is finalized on disk, and reading succeeds; memory then adopts it as FINALIZED by that request. Any other stop is refused without effect |
| RecordingRestart.LongStartIsNeverReplayed | src/recording/recording_store.cpp:73-93 | On an empty archive every valid start with a longer text is accepted when its I/O succeeds, and refused after a crash |
| RecordingRestart.LongStartRefusesEveryStop | src/recording/recording_manager.cpp:228-229 | In every run an HTTP stop of a recording whose start evidence is longer has no effect, whatever the request |
| RecordingRestart.StopAnswersNeedAReadableStart | src/recording/recording_manager.cpp:228-229 | In every run, a recording one of whose HTTP stops was answered has start evidence within the read bound |
| RecordingTheorems.AdmissionAndRing | src/recording/recording_manager.cpp:134-139 | `m_admitting` holds exactly in RECORDING, no stop is requested there, and the worker never takes a frame from an empty ring |
| RecordingTheorems.FramesAreConserved | src/recording/recording_manager.cpp:144-169 | admitted = submitted + queued + in flight (at most one), offered = admitted + full drops + contention drops, and the queue fits the ring |
| RecordingTheorems.SidecarAcceptsWhatTheWorkerPassed | src/recording/recording_manifest.cpp:170-174 | The sidecar's own order check accepts a frame the worker's check passed if and only if it is the first one or strictly after the frame encoded before it, and always while memory is about the worker's recording |
| RecordingTheorems.JoinBlocksOnlyAfterFailedEvidence | src/recording/recording_manager.cpp:74-80 | A start that joins under the mutex finds a worker that needs the mutex no more, unless stop evidence failed |
| RecordingTheorems.JoinDeadlocksExactlyWhenWorkerIsAlive | src/recording/recording_manager.cpp:74-80 | Such a start blocks in every crash-free continuation if and only if the worker has not finished |
| RecordingTheorems.RunAdvances | src/recording/recording_store.cpp:123-178 | From any reachable state, no run rewrites activated evidence, touches a finalized directory or takes back an answer |
| RecordingSafety.AnswerStartOk | src/recording/recording_manager.cpp:69-73 | Answering a start whose text is on disk keeps the invariant |
| RecordingWorkerSafety.StepOk | src/recording/recording_manager.cpp:414-473 | Every step of every thread keeps the invariant |
| RecordingWorkerSafety.RunOk | src/recording/recording_manager.cpp:414-473 | So does every run |
| RecordingStore.JobStepOk | src/recording/recording_store.cpp:39-71 | Each system call of the write protocol keeps the place consistent, only adds evidence, and completes only with the full text activated |
| RecordingFiles.AtomicWrite | src/recording/recording_store.cpp:39-71 | Whatever the calls return and wherever the process dies, short and interrupted writes included, the file is absent or complete, and success means complete |
| RecordingFiles.EvidenceFile.WriteAtomically | src/recording/recording_store.cpp:39-71 | The write loop performs that protocol on every script of call results |
| RecordingFiles.SidecarWriter.Append | src/recording/recording_manifest.cpp:170-193 | Appends exactly when the writer is open, the line is the next one in index and identity order, and the I/O succeeds; nothing changes otherwise |
| RecordingFiles.SidecarWriter.Finalize | src/recording/recording_manifest.cpp:195-208 | Closes once, keeps the lines, and reports failure exactly when the first close fails |
| RecordingManager.PushIsAppend | src/recording/recording_manager.cpp:162-165 | Writing the ring at its tail, modulo its size, appends to the queue |
| RecordingManager.PopIsTail | src/recording/recording_manager.cpp:441-443 | Emptying the slot at the head, modulo the size, removes the oldest frame |
| RecordingManager.Manager.constructor | src/recording/recording_manager.cpp:49-61 | A new manager is the initial memory of the state machine |
| RecordingManager.Manager.TrySubmitFrame | src/recording/recording_manager.cpp:144-169 | Computes the memory of the state machine's submit step, with the ring as its queue, and accepts exactly in RECORDING with the lock and a free slot |
| RecordingManager.Manager.TakeOrLeave | src/recording/recording_manager.cpp:438-444 | Takes the oldest frame, or leaves the loop when the ring is empty and a stop is requested |
| RecordingManager.Manager.CountFrame | src/recording/recording_manager.cpp:455-463 | Keeps the first identity, moves the last one, counts the frame |
| RecordingManager.Manager.ResetFlow | src/recording/recording_manager.cpp:110-119 | Empties every slot of the ring and zeroes the counters, nothing else |
| RecordingManager.Manager.CommitStart | src/recording/recording_manager.cpp:107-141 | The whole memory after a start, with and without a worker thread |
| RecordingManager.Manager.RestorePersisted | src/recording/recording_manager.cpp:294-327 | The whole memory after adopting a persisted artifact |
| RecordingManager.Manager.BeginFinalization | src/recording/recording_manager.cpp:329-350 | On every script of call results and either answer of the clock: the evidence file after the write protocol, success exactly if the protocol completed in time, and the whole memory with the stop accepted or FAULTED |
| RecordingManager.Manager.Publish | src/recording/recording_manager.cpp:410-411 | The state machine's publishing step: FINALIZED, and nothing else changes |
| RecordingManager.Manager.Catch | src/recording/recording_manager.cpp:467-472 | The state machine's catching step: FAULTED, admission closed, a stop requested, and nothing else changes |
| RecordingTraces.StartSucceeds | src/recording/recording_manager.cpp:91-137 | On an empty archive every valid request starts when its I/O succeeds, and its text is the only evidence |
| RecordingTraces.FailedHttpStopThenStartDeadlocks | src/recording/recording_manager.cpp:346-348 | A failed HTTP stop, then a start of another recording: that start never returns |
| RecordingTraces.FailedTimeoutThenStartDeadlocks | src/recording/recording_manager.cpp:430-437 | The same when the worker's own maximum-duration evidence fails |
| RecordingTraces.OrphanFinalizes | src/recording/recording_manager.cpp:364-412 | From FAULTED with a live worker, nineteen successful steps publish FINALIZED |
| RecordingTraces.FinalizedWithoutStopEvidence | src/recording/recording_manager.cpp:346-412 | In every reachable recording whose worker is ready to end, an HTTP stop that cannot open its evidence file is followed by a finalized recording with no stop evidence whose manifest says application shutdown |
| RecordingTraces.ShutdownWithoutStopEvidence | src/recording/recording_manager.cpp:346-412 | The same when the shutdown cannot open it: no stop evidence, but the manifest names the cause |
| RecordingTraces.LateStopContradictsTheManifest | src/recording/recording_manager.cpp:338-348 | An HTTP stop written in full but after its deadline leaves its text in the finalized recording, under a manifest that says application shutdown |
| RecordingTraces.ReplacedMemoryLetsAnOldFramePass | src/recording/recording_manager.cpp:446-453 | A worker that would refuse its frame passes it once a failed stop and the replayed stop of another, finalized recording have taken over memory, and the sidecar refuses it |
| FrameIdentity.IncreasingAppend | src/recording/recording_manager.cpp:446-453 | Comparing with the last identity only keeps the whole sequence increasing |
| PilotSafety.StepOk | src/pilot/pilot_integration_client.cpp:194-335 | Every step of every thread keeps the trace lawful and the client in agreement with it |
| PilotSafety.RunOk | src/pilot/pilot_integration_client.cpp:194-335 | So does every run against every server |
| PilotObserver.LawfulAt | src/pilot/pilot_integration_client.cpp:194-335 | In a lawful trace every mark was allowed by the marks before it |
| PilotTheorems.WritesFollowAnAcceptedCatalog | src/pilot/pilot_integration_client.cpp:282-333 | Before any heartbeat or state write, that session's registration and catalog were accepted, the catalog with matching component, server instance and descriptor count, and the writes of each session are numbered 1, 2, 3, ... |
| PilotTheorems.CatalogBytesAreStable | src/pilot/pilot_integration_client.cpp:120-131 | All catalog requests of a client run carry the same bytes |
| PilotTheorems.OnlineShowsTheCatalog | src/pilot/pilot_integration_client.cpp:113-118 | ONLINE always shows a positive catalog generation and the full descriptor count |
| PilotTheorems.LatestStateIsNeverLost | src/pilot/pilot_integration_client.cpp:288-317 | A pending state is the current one; in a live session with nothing pending or in flight the state last accepted in it is the current one |
| PilotTheorems.PendingStateIsWrittenNext | src/pilot/pilot_integration_client.cpp:288-308 | A pending state is the very next message of a live session that is not stopped |
| PilotTheorems.BackoffBounds | src/pilot/pilot_integration_client.cpp:265-267 | Under the configuration bounds the delay lies between initial and maximum, never shrinks with the retry count, and its product fits 32 bits |
| PilotTheorems.BackoffDoubles | src/pilot/pilot_integration_client.cpp:184-186 | Below the cap on the shift each further retry doubles the delay up to the maximum |
| PilotTheorems.RegistrationsAreSpaced | src/pilot/pilot_integration_client.cpp:260-270 | Between any two registrations there is a full backoff wait within the configured bounds |
| PilotTheorems.WaitsFollowTheRetryCount | src/pilot/pilot_integration_client.cpp:179-190 | The n-th wait in a row since a catalog was last accepted, and the n-th rest within one publication, last the n-th delay |
| PilotTheorems.NothingIsSentAfterAContractFault | src/pilot/pilot_integration_client.cpp:161-174 | CONTRACT_FAULT comes from a contract-fault answer, and from then on the client run sends nothing |
| PilotTheorems.NextMessageTellsTheCatalogAnswer | src/pilot/pilot_integration_client.cpp:128-192 | On every trace there is exactly one answer between a catalog request and the next message, and unless that is a stop's disconnect: it is the session's first write if and only if the answer was a 200 matching the publication; the same catalog request again, after a rest, if and only if the status was none of 200, 400, 404, 409, 413, 415; a new registration if and only if it was a 200 that does not match, a 404 or one of the three stale conflicts |
| PilotTheorems.StatesAreTellable | src/pilot/pilot_integration_client.cpp:31-43 | Different provider states have different public states, all of which the serializer accepts |
| PilotTheorems.FewMessagesAfterStop | src/pilot/pilot_integration_client.cpp:402-418 | After the stop at most one message already committed to, then at most one disconnect |
| PilotTheorems.DisconnectsWhatWasGranted | src/pilot/pilot_integration_client.cpp:272-277 | A disconnect follows a stop and names a session that was granted in this client run |
| PilotWorker.Worker.PublishCatalog | src/pilot/pilot_integration_client.cpp:120-192 | The publication loop does what the state machine does and returns the result that goes with the place it ends in; it gives up before only at the end of the script |
| PilotWorker.Worker.RunSession | src/pilot/pilot_integration_client.cpp:282-335 | The session loop does what the state machine does, and returns true exactly for a stop; it gives up before only at the end of the script |
| PilotWorker.Worker.RunWorker | src/pilot/pilot_integration_client.cpp:194-280 | The whole worker, on every script: its fields are the state machine's after the events used; it ends when the state machine's worker has returned, or else has used the whole script |
| PilotWorker.Worker.OtherThread | src/pilot/pilot_integration_client.cpp:392-400 | Updates and stops of other threads change the shared fields as the state machine does |
| PilotWorker.RunClient | src/pilot/pilot_integration_client.cpp:365-390 | From its start the client shows the state machine's snapshot after the part of the script it used, which is all of it unless the worker has ended; an ended worker shows STOPPED or CONTRACT_FAULT |
| StreamSession.StepOk | src/provider/http/provider_http_server.cpp:101-128 | Every handler keeps the session invariant |
| StreamTheorems.ExactlyOneCurrentOperation | src/provider/http/provider_http_server.cpp:265-384 | In every run an unfinished session waits for exactly one operation, not counting overtaken timer handlers, and it closes exactly once, when it finishes |
| StreamTheorems.OneOperationIffNoOvertakenTimer | src/provider/http/provider_http_server.cpp:109-111 | Counting every handler that would act, there is exactly one if and only if no notification overtook an expired idle wait |
| StreamTheorems.TimerClosesAWritingSessionIff | src/provider/http/provider_http_server.cpp:379-383 | The idle timer can close a session that is writing if and only if a notification overtook an expired wait |
| StreamTheorems.LateTimerClosesAWritingSession | src/provider/http/provider_http_server.cpp:109-111 | A run in which that happens |
| StreamTheorems.PartsStrictlyIncrease | src/provider/http/provider_http_server.cpp:339-341 | Each part is strictly newer than every part before it |
| StreamTheorems.NotificationIsFollowedByAFetch | src/provider/http/provider_http_server.cpp:355-371 | Every notification after the header write is followed by a fetch of the latest preview unless the session finishes first |
| StreamTheorems.CompletionSettlesTheNotification | src/provider/http/provider_http_server.cpp:365-368 | While one is outstanding a part is being written, and its completion fetches or finishes |
| StreamTheorems.NotificationDuringHeaderIsLost | src/provider/http/provider_http_server.cpp:328-348 | A notification during the header write leaves no trace once the header is out; the first part is the frame fetched before |
| StreamTheorems.NotificationCountsIff | src/provider/http/provider_http_server.cpp:101-112 | A notification leads to a fetch exactly when the session streams that kind, is unfinished, and its header has been written |
| StreamServer.CountersAreExact | src/provider/http/provider_http_server.cpp:430-472 | In every run active connections are accepted minus closed sessions, active streams the live streaming ones, both within their limits, and the table holds exactly the unfinished sessions |
| StreamServer.GuardsNeverMask | src/provider/http/provider_http_server.cpp:464-472 | Closing computes what it would without the guards against negative counters |
| StreamServer.EachSessionClosesOnce | src/provider/http/provider_http_server.cpp:114-128 | A session in the table has not closed, one out of it has closed exactly once |
| HttpSession.Connection.ReadHandler | src/provider/http/provider_http_server.cpp:131-312 | The read handler computes the state machine's step |
| HttpSession.Connection.HeaderHandler | src/provider/http/provider_http_server.cpp:314-321 | So does the header handler |
| HttpSession.Connection.PartHandler | src/provider/http/provider_http_server.cpp:355-371 | So does the part handler |
| HttpSession.Connection.NotifyFrame | src/provider/http/provider_http_server.cpp:101-112 | So does the notification |
| HttpSession.Connection.WriteLatestFrame | src/provider/http/provider_http_server.cpp:323-353 | Uses up the initial frame or fetches, and writes only a newer one |
| HttpSession.Connection.Cancel | src/provider/http/provider_http_server.cpp:114-128 | Finishes and calls the closed handler exactly the first time |
| HttpSession.SessionTable.Accept | src/provider/http/provider_http_server.cpp:430-454 | Accepts below the limit into a fresh table entry, and changes nothing otherwise |
| HttpSession.SessionTable.AdmitStream | src/provider/http/provider_http_server.cpp:456-462 | Admits and counts exactly below the stream limit |
| HttpSession.SessionTable.Close | src/provider/http/provider_http_server.cpp:464-472 | Removes the entry and decrements the counters under their guards |
| HttpSession.SessionTable.NotifyAll | src/provider/http/provider_http_server.cpp:474-484 | Every session in the table gets the notification exactly once |
| Pcd1Theorems.ReadAfterWrite | src/provider/http/pcd1.cpp:133-215 | Reading what was written gives back every serialized field |
| Pcd1Theorems.WriteAfterRead | src/provider/http/pcd1.cpp:133-215 | Writing what was read gives back the same bytes, and what was read is valid |
| Pcd1Theorems.AcceptsExactlyTheWrittenFiles | src/provider/http/pcd1.cpp:165-215 | The reader accepts a byte string if and only if the writer writes it for some valid snapshot |
| Pcd1Theorems.FilesIdentifySnapshots | src/provider/http/pcd1.cpp:133-163 | Two snapshots have the same file if and only if they agree on every serialized field |
| Pcd1.Encode | src/provider/http/pcd1.cpp:133-163 | A file has 112 + 15N bytes |
| Pcd1.ValueOfBytes | src/provider/http/pcd1.cpp:26-36 | The little-endian bytes of a value that fits read back as that value |
| Pcd1.BytesOfValue | src/provider/http/pcd1.cpp:50-70 | And bytes are the little-endian bytes of what they read as |
| Pcd1Theorems.SignedUnsigned64 | src/provider/http/pcd1.cpp:38-42 | Copying a signed timestamp into an unsigned word and back is the identity |
| Pcd1Codec.Write | src/provider/http/pcd1.cpp:133-163 | The writer's loops produce exactly the file of a valid snapshot, and the first failing check otherwise |
| Pcd1Codec.Read | src/provider/http/pcd1.cpp:165-215 | The reader's loops compute the specified reader, error cases included |
| Pcd1Codec.Validate | src/provider/http/pcd1.cpp:86-129 | The validation loops find exactly the first failing check, finiteness, row products and determinant included |
| Pcd1Codec.CheckRows | src/provider/http/pcd1.cpp:108-120 | The triple loop accepts exactly the matrices whose nine row products, summed in the code's order, are not far from those of the identity |
| Pcd1Codec.Input.ReadUint | src/provider/http/pcd1.cpp:50-70 | Reads n bytes low byte first and advances past them, or consumes nothing when fewer are left |
| Pcd1Codec.Output.AppendUint | src/provider/http/pcd1.cpp:26-36 | Appends exactly the n little-endian bytes |
| MountTheorems.EveryCalibrationBuildsARigidTransform | src/geometry/camera_mount_transform.cpp:100-138 | Builds if and only if identities and three axes out of X, Y, Z are given, whatever the angles; then rows are orthonormal, the determinant is one, the last row (0,0,0,1), the fourth column the translation |
| MountTheorems.ApplyingIsPosingOnce | src/geometry/camera_mount_transform.cpp:140-162 | Applying the transform is applying the three rotations, inside out, and the translation to (x, z, -y) |
| MountTheorems.ApplyingPreservesDistances | src/geometry/camera_mount_transform.cpp:140-162 | Applying the transform preserves all distances |
| MountTheorems.PointFailsOnlyOutOfRange | src/geometry/camera_mount_transform.cpp:155-158 | A point is refused if and only if a coordinate of the posed point leaves the float range |
| MountTheorems.Matrix3x4ExistsIff | src/geometry/camera_mount_transform.cpp:164-176 | The 3x4 part exists if and only if the translation is in float range |
| MountTransform.MultiplyMatrices | src/geometry/camera_mount_transform.cpp:22-34 | The triple loop computes the matrix product |
| MountTransform.ValidateMatrix | src/geometry/camera_mount_transform.cpp:64-96 | The loops find exactly the first failing check |
| MountTransform.BuildCameraMountTransform | src/geometry/camera_mount_transform.cpp:100-138 | The loop over the axes computes the specified transform or its error |
| MountTransform.TransformCameraPointToMount | src/geometry/camera_mount_transform.cpp:140-162 | The nested loops compute the transformed point or its error |
| MountTransform.BuildMountFromCameraMatrix3x4 | src/geometry/camera_mount_transform.cpp:164-176 | The loop copies the first twelve entries or refuses the first one out of range |
| FakeFrame.FindStride | src/adapters/fake/fake_camera_adapter.cpp:154-158 | The search ends with the least stride from the requested one on whose grid fits |
| FakeFrame.SlotsShrink | src/adapters/fake/fake_camera_adapter.cpp:37-41 | A larger stride never needs more slots; the image size needs one |
| FakeFrame.VisitsAreTheGrid | src/adapters/fake/fake_camera_adapter.cpp:165-166 | The nested loops visit exactly the image pixels whose coordinates are multiples of the stride |
| FakeFrame.Visits | src/adapters/fake/fake_camera_adapter.cpp:165-166 | They make as many visits as the slot count says |
| FakeFrame.BuildPointCloud | src/adapters/fake/fake_camera_adapter.cpp:149-179 | Fails exactly for bounds that are not positive; otherwise the least fitting stride, and the points of the visited pixels in order, at most `max_points` |
| FakeFrameTheorems.CloudCoversTheGrid | src/adapters/fake/fake_camera_adapter.cpp:165-177 | The grid of a stride has exactly as many pixels as the slot count says; the cloud has a point for every one of them with positive depth and no other point, and as many points as there are such pixels |
| FakeFrameTheorems.VisitsAreDistinct | src/adapters/fake/fake_camera_adapter.cpp:165-166 | No pixel is visited twice |
| FakeFrame.QueryDepthInRoi | src/adapters/fake/fake_camera_adapter.cpp:104-147 | Fails exactly for a size that is not positive; otherwise an answer on the clamped region |
| FakeFrame.SortSamples | src/adapters/fake/fake_camera_adapter.cpp:135 | Ascending by depth and a permutation |
| FakeFrameTheorems.ClampedIsTheIntersection | src/adapters/fake/fake_camera_adapter.cpp:112-116 | For a positive size the clamped region is the intersection with the image |
| FakeFrameTheorems.RoiCountsPixels | src/adapters/fake/fake_camera_adapter.cpp:117-134 | The counts are the cardinalities of that pixel set and of its pixels with positive depth; valid exactly when there is one, with a fill rate in (0, 1] |
| FakeFrameTheorems.RoiStatisticsAreRight | src/adapters/fake/fake_camera_adapter.cpp:135-146 | Minimum and maximum are attained extremes, the median is the upper-median order statistic attained at its pixel whatever order ties are left in, and minimum <= median, mean <= maximum |
| FakeFrameTheorems.AdmittedRequestsAreSafe | src/runtime/vision_application.cpp:205-213 | For every request the application admits on a configurable frame the sums fit 32 bits and the clamped region is not empty |
| FakeFrameTheorems.DeprojectionInverts | src/adapters/fake/fake_camera_adapter.cpp:28-35 | Projecting the optical point of a pixel gives the pixel back |
| LatestStores.LatestIsTheMaximum | src/core/frame_store.cpp:12-35 | The slot holds the lexicographic maximum of everything published since the last clear |
| LatestStores.AcceptedIffNewMaximum | src/core/frame_store.cpp:27-34 | A frame is taken if and only if it is strictly after everything published |
| LatestStores.FrameStore.PublishFrame | src/core/frame_store.cpp:21-35 | Returns true exactly on a new strict maximum, and holds it then |
| LatestStores.FrameStore.WaitForFrameAfter | src/core/frame_store.cpp:52-63 | Returns the slot exactly when something newer was published, nothing otherwise |
| LatestStores.PreviewCache.PublishPreview | src/provider/http/encoded_preview_cache.cpp:18-31 | Replaces the slot of that kind exactly by a newer preview, and leaves the other alone |
| LatestStores.PreviewCache.InvalidateGeneration | src/provider/http/encoded_preview_cache.cpp:46-56 | Empties exactly the slots of another generation |
| LatestStores.EncoderHandlesIncreasingFrames | src/runtime/vision_application.cpp:607-618 | In every interleaving the encoder handles published frames with strictly increasing identities |
| LatestStores.PreviewsAreOfTheLastGeneration | src/runtime/vision_application.cpp:616-650 | After each handled frame both preview slots are empty or of that frame's generation |
| LatestStores.EncoderPass | src/runtime/vision_application.cpp:609-651 | One pass on the objects computes the four steps of the state machine |

## Left out

- Recording worker loop: the loop of `runWorker` and the order of its blocks are in the state machine; the blocks under the mutex are methods of `Manager`, and the file loops are methods of `EvidenceFile` and `SidecarWriter`, but the loop around them is not written as a method.
- Power loss: a crash ends the process; what fsync adds against a lost disk cache is not modelled, its failure is.
- Symbolic links, permissions and path strings of the store: recording ids are opaque keys.
- Free-space check and creation of the store's parent directories: part of the one call that creates a staging directory, which may fail.
- JSON texts and SHA-256 digests: arbitrary functions of the values they are made from.
- The video encoder, the JPEG encoder and the D435 adapter: an encoder call succeeds or fails, and counts frames.
- The unsynchronized read of the artifact paths by the worker while a restore changes them: each use reads one value.
- Starts, stops and shutdowns from several calling threads at once: they take the mutex one after the other, and a second join of the worker from another thread is not modelled.
- Counter wrap-around at 64 bits, and of the 32-bit retry count after 2^31 failures.
- Last-success ages and error texts of the Pilot snapshot, and the texts of health and metadata.
- The transport of the Pilot client: a request is sent in one step and answered in another, with any result; cancelling it is one such result.
- A client start that throws half-way: the catalog builds and the instance id is valid.
- Route callbacks that throw, and the shutdown of the HTTP server: the table's counters are stated for runs before it.
- CORS headers, routes other than the streams, and the response bodies.
- Floating-point rounding, not-a-number and the final narrowing to float in geometry and depth statistics: exact reals; PCD1 has the bit patterns.
- 32-bit overflow of the slot count for a requested stride within 4096 of 2^31: the application requests a fixed small stride.
- LatestStores.PreviewsAreOfTheLastGeneration: asks that the adapters give both views of a frame the frame's own generation, as the two adapters do.
- Real time: deadlines pass when the event says so.
- The configuration parser and the endpoint catalog builder.
