# A verified model of cohotfs

cohotfs keeps a containerised workspace for a source directory. This project models the parts of it that have to
survive crashes, retries and concurrency, and proves what they promise:

- the workspace lifecycle (create, start, setup, stop, restart, rotate, remove) over a durable record, plan.json and
  an operation journal, with the process allowed to die at every durable or external step;
- both halves of the lease protocol: the workspace's loop, and the host service with its interleaving handlers;
- activation and rollback of the copy-on-write mounts, and reconciliation of a record with reality;
- the frame codec and the stream multiplexer of the Windows bridge;
- the in-place merge of YAML mappings, the merge of PATH entries, byte sizes, and the operation keys of the command line.

Read the files in this order: `store`, `world` (state, invariants, atomic steps), `records`, `journal`, `overlay`,
`leaseclient`, `creation`, `lifecycle`, `removal`, `reconcile`, `operations`, `runs`, `witnesses`; the other files stand
alone.

How crashes are modelled: `Worlds.World` holds everything one workspace touches outside the process. Each of its methods
is one atomic step that succeeds, fails without effect, or is the last thing the process does, with or without its
effect. The methods in the other files are the source's functions over these steps, in the source's order. The ghost
field `history` records every state, and `Chain(history)` says that each state satisfies the invariant `Good` and each
step the relation `Step`; so a method that keeps `World.Valid()` keeps all of it at every crash point.
`Operations.Run` shows that any sequence of events does, and module `Runs` draws the conclusions for whole runs.
`crashes` is how often the process may still die, any finite number; `reliable` says that no call returns an error. In a
`calm` world nothing goes wrong but one `mishap`; that is how module `Witnesses` shows that runs of certain kinds exist.
`born`, `removing`, `stale`, `trail`, `runs` and `cleaned` are history variables of the state: the program does not read
them.

Assumptions:

- A call that returns an error had no effect; a crash may come before or after the effect of a call. That an overlay
  cannot be mounted where OverlayFS is not available, and the fallback is used, is no error in this sense.
- Engine, mount and lease IDs are never reused; container names are unique and labels never change. Creation nonces are
  arbitrary: no proof needs them to differ.
- A container changes only through the calls modelled, a mount table entry of the workspace and its known-hosts file
  likewise. What a setup command comes to is arbitrary.
- The host key files live in the data tree. A start generates missing ones, never a key that there was before, and a
  running container shows what they held when it started. Exec succeeds only in a running container; in a `reliable`
  world the container then becomes ready, and a command that deletes the right key succeeds.
- Exclusive file locks work, so one process at a time acts on a workspace.
- Digests are injective and serialisation is faithful. A workspace ID is the digest of the key that created the
  workspace, so ID and key are identified.
- A host service request that was under way when its client died is over before the next operation starts, and the
  host service restarts only between operations.
- Binding a lease socket is atomic and fails when something listens on the path.

What the proofs turned up about the code:

- Ready does not imply a running container. When setup succeeds in the container but the save of Ready fails,
  `stopSetupFailed` stops the container and then saves the in-memory record, which says Ready. `Runs.ReadyStopsIff` shows
  that this is the only way, for every reachable state and in both directions; `Witnesses.ReadyOverStopped` is a run.
- A container that was created just before a crash, and not recorded, stays behind when the next operation is a removal:
  none of the containers made for a record is left after its removal if and only if the record named each of them
  (`Removal.RemovesNamed`, and the contracts of `Removal.RemoveOperation` and `Removal.RemoveUntilGone`);
  `Witnesses.RemovalLeavesContainer` is a run.
- The key of a finished removal deletes workspace.json and plan.json again when it is replayed, without looking at them.
  The replay changes nothing if and only if there are none (`Removal.RemoveOperation`). On a workspace that was created
  anew in between it deletes a live record (`Witnesses.ReplayDeletesLive`), and if only the second deletion works it can
  leave a container of a creation without a plan: exactly when, says `Removal.PlanRemovalSafe`, and `Runs.StaleByReplay`
  that nothing else does.
- A removal that stops between the deletion of the host key in the container and the deletion of that container, by a
  crash or by an error of the stop or the delete, cannot be completed by repeating it: a restarted container shows a new
  key, and the cleanup refuses it. Without call errors `removeLocked` succeeds, as far as the container goes, if and only
  if no key is pinned, the container is gone, or it can be cleaned: its files hold the pinned key, which it shows if it
  runs (`Removal.Cleared`, `Removal.RemoveLocked`). While plan.json can be used, a removal that ends in any other way
  leaves a record that still can go or one whose key is lost (`Removal.KeyFate`); repeated removals converge unless a
  crash came just there (`Removal.RemoveUntilGone`), and a removal that starts with the key lost fails and leaves it so
  (`Removal.RemoveOperation`). `Runs.LostUntilRotated` says how long that lasts, at every point of every run: until a
  rotation drops the pinned key, or the key of another finished removal deletes the record. A rotation starts from Ready
  only; one that succeeds makes up for the loss (`Removal.ServedClears`). `Witnesses.RemovalGetsStuck` is a run.
- A creation that dies after it mounted an overlay and before it recorded the mount cannot be retried. The resumed
  creation does not know the mount, plans anew, finds the merged path taken, and fails for good under its key. No creation
  that finds such a state succeeds (`Creation.Create`). Without call errors any other crash leaves a creation that can
  be completed, and repeating it under its key ends Stopped unless a crash came just there (`Creation.CreateUntilDone`).
  `Witnesses.CreationGetsStuck` is a run.
- Data that arrives for a stream whose connection just ended, or could not be dialled, ends the whole Windows relay;
  `Mux.UnknownDataIff` says exactly when, and `Mux.RelayDies` gives a run.

## Model

| member | source | states |
|---|---|---|
| Store.RemovalAlwaysLegal | internal/state/store.go:43-53 | removal can begin from every status, and each move in memory on the way is in the table |
| Store.ErrorAlwaysLegal | internal/state/store.go:43-53 | every move to Error, whose result the source discards, is in the table |
| Worlds.ChainAt | internal/state/store.go:240-252 | every state of a history, crash points included, is good, and every step between neighbours is allowed |
| Worlds.World.SaveRecord | internal/state/store.go:240-252 | one atomic write: the saved record is the new one or the old one, and nothing else changes that the program has |
| Worlds.World.SaveNewRecord | internal/workspace/docker.go:252-263 | the first save of a record is made only in the name of the key the workspace ID comes from |
| Worlds.World.CreateContainer | internal/runtime/docker/adapter.go:213-229 | a taken name is a conflict without effect; otherwise one stopped container with the given labels and the workspace's name |
| Worlds.World.StartContainer | internal/containeragent/sshd_linux.go:57-95 | called only for the saved reference, with matching labels, under a status other than Creating and Stopped; a started container shows the host key of its files, or one that never was |
| Worlds.World.StopContainer | internal/runtime/docker/adapter.go:288-299 | a container that is gone or stopped is no error; only an identified one may be stopped |
| Worlds.World.DeleteContainer | internal/runtime/docker/adapter.go:301-311 | a running container is refused unless forced, a missing one is no error; only an identified one may be deleted |
| Worlds.World.AcquireLease | internal/hostservice/server_linux.go:248-308 | the lease that has this very request, a new one, or a refusal; no lease is lost; without call errors it is refused only if the host has a lease of that kind under another request |
| Worlds.World.HostRestart | internal/hostservice/leases_linux.go:66-110 | a restarted host service holds no lease |
| Records.SoleContainer | internal/runtime/docker/adapter.go:212-216 | no reachable state has two containers made for one life of the record |
| Journal.BeginOperation | internal/state/store.go:350-378 | a finished key is replayed without effect, other input is refused, a running entry is entered again, a new key gets a running entry |
| Journal.FinishOperation | internal/state/store.go:380-405 | the running entry keeps its input and takes the outcome, atomically |
| Journal.Conclude | internal/workspace/docker.go:75-80 | a live process finishes its entry with the outcome of the operation, a dead one leaves it running |
| Overlays.Activate | internal/toolchain/overlay_linux.go:83-123 | success: the kept overlays are a subsequence of the given ones and pair with the resources in order, each a new mount, and dropped overlays read from their fallback; error with working unmounts: the table is as before; never is an earlier mount touched; without call errors, with fallbacks allowed and distinct merged paths, it succeeds exactly if no merged path is taken |
| Overlays.Deactivate | internal/toolchain/overlay_linux.go:125-149 | unmounts only mounts the resources record by point and ID, goes on after failures, and success leaves none of them; without call errors it fails exactly if a mount that is met, last first, is not the recorded one |
| Overlays.ReplaceMountSource | internal/toolchain/overlay_linux.go:224-231 | exactly the first mount with the target gets the new source, and without one nothing changes |
| LeaseClient.AcquireLeases | internal/workspace/integration_host.go:65-106 | without call errors it fails exactly if, before the call, the host has a lease of a wanted kind that the record does not hold and that has another nonce or other parameters; success: the record holds exactly the leases that the host has for the workspace, and they are one per enabled integration, so none without integrations; orphans of an interrupted call are taken over, not lost; failure: every lease of the call is live on both sides or on neither |
| LeaseClient.Rollback | internal/workspace/integration_host.go:137-151 | whatever fails on the way, each lease of the failed call is live at the host if and only if it is unreleased in the record, and no other lease is given back |
| LeaseClient.ReleaseLeases | internal/workspace/integration_host.go:153-186 | success leaves no lease held; a lease is marked released only if the host does not have it, and the host loses only leases the record held |
| Creation.Create | internal/workspace/docker.go:161-294 | a concluded key replays its stored outcome without effect, success for success and failure for failure; otherwise, whatever crashes and retries came before, success means a saved Stopped record with mounts as in plan.json, and a finished entry with that result; a creation that found no record also leaves the plan that was asked for; without call errors a creation that can begin, go on or is complete (`Retriable`) does not fail, and what a crash in it leaves is either so again or a mount nobody recorded, from which no creation succeeds |
| Creation.CreateUntilDone | internal/workspace/docker.go:161-423 | convergence: without call errors, repeating a creation under its key ends, however many crashes come, with a saved Stopped record and a succeeded entry; the one other end needs an overlay and a crash between its mount and the save that records it |
| Creation.StoppedLeavesOne | internal/workspace/docker.go:491-537 | a Stopped record has exactly one container made for it: the one it names, with its four labels, stopped; and no booked socket |
| Creation.CreatingContainersArePlanned | internal/workspace/docker.go:161-537 | in every reachable state a container made for a Creating workspace carries the labels and nonce of the saved plan.json, unless a replayed removal deleted that plan; it does not run, and is the only one |
| Creation.ResumeCreating | internal/workspace/docker.go:296-423 | success either completes the creation or leaves a record without container, plan and unreleased mounts to plan anew; without call errors it succeeds if the interrupted creation is `Resumable`: subject and plan match, and, without a plan, there is no container and no recorded mount that was changed, or, with one, data tree, mounts and container (recorded, stopped and ours; or gone or none, with the name free or on a stopped container with the plan's labels) are as they should be; and it succeeds only then, unless it mounts overlays again |
| Creation.ResumeMounts | internal/workspace/docker.go:346-390 | success: as many unreleased mounts as plan.json has overlays, all in place and none quarantined; without call errors recorded mounts pass exactly if they were so before, and then nothing changes; where none is recorded, overlays with fallbacks and free merged paths are mounted again |
| Creation.ResumeUnplanned | internal/workspace/docker.go:306-329 | without plan.json and without a recorded container success leaves no unreleased mount, none of the recorded ones in the table, and nothing to plan around; a recorded container is left alone and the record ends quarantined in Error; without call errors it fails exactly if there is one or a recorded mount that was changed |
| Creation.ResumeRuntime | internal/workspace/docker.go:391-422 | success completes; a recorded container that runs is left alone, and without call errors the record ends quarantined in Error; without call errors it succeeds exactly if the recorded container is there, stopped and ours, or none is there and the name is free or on a stopped container with the plan's labels |
| Creation.Obtain | internal/runtime/docker/adapter.go:213-254 | success yields a stopped container with all four labels of the plan, made or adopted; a failure changes nothing; without call errors it succeeds exactly if the name is free or such a container has it |
| Creation.ActivateAndPlan | internal/workspace/docker.go:264-282 | mounts are recorded before plan.json is written, and the plan then lists exactly the recorded mounts; without call errors, with fallbacks allowed, it fails only on a merged path that is taken |
| Creation.CreateFromScratch | internal/workspace/docker.go:203-283 | success completes: plan.json has the requested integrations, settings and setup, a subsequence of the overlays and one nonce that the container carries, and the record is new but for container and mounts |
| Lifecycle.StartLocked | internal/workspace/docker.go:684-798 | success means Ready with a running container of its own, one booked socket with the nonce of its reference, a pinned key that the known-hosts file and the container's key files hold and the container shows, and exactly the leases the host has; on success the setup command succeeded exactly once since the call if the plan says always, or says once and it had not succeeded, and otherwise not at all, with the setup result as it was; a failure without call errors leaves the containers as they were, or stopped with Error or SetupFailed saved and no lease held; only a `Startable` workspace (mounts, bootstrap API, status, container, plan and host key as they should be, no lease in the way) is started to success, and without call errors every one is that has no setup due, integrations included |
| Lifecycle.StartGate | internal/workspace/docker.go:684-712 | without call errors it passes exactly with recorded mounts in place, the supported bootstrap API, a startable status, a container with all labels, and a valid plan |
| Lifecycle.FailStarted | internal/workspace/docker.go:735-742 | ends in Error; without call errors the container is stopped and that is what is saved |
| Lifecycle.StopLocked | internal/workspace/docker.go:835-871 | success: saved Stopped, no lease held, nothing but status and resources changed, host key entries kept; without call errors it succeeds exactly on a Stopped record, or in a status that may move to Stopping with a container that is there and ours |
| Lifecycle.RestartLocked | internal/workspace/docker.go:819-833 | success serves again, with the setup run exactly if it was due, and unless a start was being resumed the saved record was Stopped in between; without call errors and a due setup it succeeds exactly if `Restartable`: startable when a start is resumed, and otherwise stoppable and startable once stopped |
| Lifecycle.RotateLocked | internal/workspace/docker.go:889-915 | success serves again, with the setup run exactly if it was due, with a pinned key that there never was before, and in between the saved record had no fingerprint; without call errors and a due setup it succeeds exactly if `Rotatable`: Ready with a running container, a known-hosts line that is the recorded one, and startable once stopped and unpinned |
| Lifecycle.PinHostKey | internal/workspace/ssh_hostkey.go:27-69 | success: fingerprint, known-hosts file and key files are the key shown; leases and sockets are untouched; without call errors it succeeds exactly if the key files hold the key that is shown and a pinned key is that one and the one in the known-hosts file |
| Lifecycle.RemoveHostKey | internal/workspace/ssh_hostkey.go:135-158 | success releases the entry and the file is gone; without call errors it fails exactly on a file whose line is not that of the one recorded entry |
| Lifecycle.RunLocked | internal/setup/service.go:25-112 | success in no unknown mode, and the command then succeeded once if the mode is always, or once and it had not succeeded or is forced, or manual and asked for, and otherwise not at all; success of a due run: saved Ready with a succeeded setup in a running container; failing with Ready in memory happens only when that save failed, and then Setup is what is saved over the running container; without call errors a due run that fails is SetupFailed |
| Lifecycle.SetupRun | internal/setup/service.go:25-54 | success in no unknown mode: the command succeeded once and Ready is saved if the mode is always or manual, or once and it had not succeeded or is forced; otherwise it did not run and nothing changed |
| Lifecycle.StopSetupFailed | internal/workspace/docker.go:800-808 | the status stays as setup left it unless stopping fails; without call errors the container is stopped, the leases are given back, and that is saved |
| Removal.RemoveLocked | internal/workspace/docker.go:985-1053 | success: container, leases, known-hosts file and mounts of the record are gone and both trees removed; at every other end, crashes included, what still exists is still recorded; without call errors it fails only if not `Removable`, and where files and mounts are as recorded it succeeds if and only if the container can go (`Cleared`): no key is pinned, or it is gone, or its files hold the pinned key, which it shows if it runs, and the plan to start it is there if it does not |
| Removal.RemoveOperation | internal/workspace/docker.go:975-983 | success: no record, no plan, entry succeeded; otherwise everything is gone or nothing forgotten; no container goes but the one the record names, so none made for it is left if and only if it names each; a removal that starts with the pinned key lost fails and leaves it so; a key whose removal is over deletes record and plan again, and changes nothing if and only if there are none |
| Removal.RemoveUntilGone | internal/workspace/docker.go:975-1053 | convergence: repeating with the same key ends, however many crashes come, with everything the first record described gone and the entry succeeded, and then no container made for it is left if and only if it named each; the one other end needs a pinned host key and a crash, and nothing is forgotten there |
| Removal.RemovesNamed | internal/workspace/docker.go:985-1014 | when what the record describes is gone and no other container went, none made for the record is left if and only if it named each of them |
| Removal.PlanRemovalSafe | internal/state/store.go:407-419 | deleting plan.json leaves every container of a creation with its plan if and only if no container of a Creating workspace exists, or the plan is gone already |
| Removal.RemoveArtifacts | internal/state/store.go:407-419 | record, then plan, whatever they belong to, going on after a failure; success means both are gone |
| Removal.CleanupSystem | internal/workspace/docker.go:917-965 | success leaves the container stopped; without call errors it comes exactly when the files, and what a running container shows, are the pinned key |
| Removal.RemoveContainer | internal/workspace/docker.go:993-1014 | success: the recorded container is gone, and it could go; without call errors it fails only if it could not; and every end, with the plan usable, leaves a record whose container still can go or whose pinned key is lost |
| Removal.RemoveMounts | internal/workspace/docker.go:1027-1045 | success: all released and saved; without call errors it fails only on a mount that is not the recorded one, and then the saved record has each unreleased mount quarantined |
| Operations.Mutate | internal/workspace/docker.go:44-81 | a concluded key touches nothing and returns what is stored, success for success and failure for failure; any other success achieved what the command promises and is stored under the key |
| Operations.Run | internal/workspace/docker.go:44-81 | any sequence of creations, commands, setup runs, reconciliations of all workspaces or of this one, and host restarts, replayed removals included, with crashes and errors anywhere, keeps every invariant at every point |
| Operations.RunFromNothing | internal/workspace/docker.go:44-81 | the same from the state before the workspace exists |
| Witnesses.ReplayDeletesLive | internal/workspace/docker.go:975-983 | a run from nothing in which a removal key that is used again deletes record and plan of a live workspace and leaves its container |
| Witnesses.RemovalLeavesContainer | internal/workspace/docker.go:985-1014 | a run from nothing in which a creation dies over its new container, and the removal succeeds and leaves that container |
| Witnesses.RemovalGetsStuck | internal/workspace/docker.go:917-965 | a run from nothing in which the removal of a started workspace dies right after the host key was deleted: its container is there and the pinned key is lost, so that the next removal fails too |
| Witnesses.CreationGetsStuck | internal/toolchain/overlay_linux.go:83-123 | a run from nothing in which a creation dies after it mounted an overlay, and the same key fails for good when it is retried |
| Witnesses.ReadyOverStopped | internal/workspace/docker.go:800-808 | a run from nothing that ends with Ready saved over a stopped container |
| Runs.EntryKept | internal/state/store.go:350-405 | a bound key never changes its input, and a finished entry never changes |
| Runs.NoEffectOnceConcluded | internal/workspace/docker.go:44-81 | after a recorded finish no step taken for that key changes anything but the journal; unless it is the key of a removal that succeeded: then record and plan may go, and nothing else |
| Runs.StaleByReplay | internal/state/store.go:407-419 | plan.json disappears from under a container of a creation only by using the key of a succeeded removal again |
| Runs.KeyStaysLost | internal/containeragent/sshd_linux.go:57-95 | a host key that was deleted from the files never comes back to them |
| Runs.LostUntilRotated | internal/workspace/docker.go:889-1014 | from a state between operations in which the container exists and the pinned key is lost, at every later point of every run record, pinned key and container are there and the key is lost, unless a step of a rotation dropped it from the record or a finished removal's key deleted the record |
| Removal.ServedClears | internal/workspace/docker.go:889-965 | a workspace that serves, so one whose rotation succeeded, can be cleaned: no key is lost |
| Runs.NeverReborn | internal/workspace/docker.go:161-197 | a workspace whose creation is concluded and whose record is gone never comes back |
| Runs.ForeignContainerUntouched | internal/workspace/service.go:165-176 | a container that record and plan never identify is never started, stopped or deleted, in any run |
| Runs.DestroyedWasIdentified | internal/workspace/service.go:165-176 | whatever container a step changes or deletes carries at that moment the four labels of the saved record, with the nonce of its reference or of plan.json |
| Runs.LabelsConstant | internal/runtime/docker/adapter.go:213-216 | name and labels of a container never change while it exists |
| Runs.MadeByPlan | internal/workspace/docker.go:491-501 | every container that the program made carries the labels of the plan.json that was saved when it was made |
| Runs.RunsOnlyByIntent | internal/workspace/docker.go:684-965 | in every reachable state a container made for the record runs only under a saved status other than Creating and Stopped |
| Runs.ReadyStopsIff | internal/workspace/docker.go:800-808 | in every reachable state with a saved Ready record its container does not run if and only if a setup command succeeded, the save of its result failed, the container was stopped, and Ready was saved all the same; from the command on no container was started, nothing was saved before that, and nothing but Ready after it |
| Runs.BookkeepingHolds | internal/workspace/docker.go:751-915 | at most one unreleased socket and none when Stopped; until removal begins the fingerprint is set if and only if one known-hosts entry is unreleased; no lease twice |
| Runs.RunsCountsSuccesses | internal/setup/service.go:56-112 | the count in which the setup claims are stated is the number of steps of the history at which a setup command succeeded |
| Reconcile.ReconcileLocked | internal/workspace/service.go:94-163 | each unreleased entry is in exactly one list, flagged exactly when quarantined, and reported present or missing only if so; without call errors a recorded mount or known-hosts line that is there is matched and an absent one missing; success exactly on a clean report, which is then saved, with Error as status exactly when the container is gone under a status that is not terminal, or it was Error; a failure without call errors ends in Error |
| Reconcile.ReconcileLoaded | internal/workspace/service.go:81-92 | the reconciliation of one workspace, whatever its status, changes nothing but flags and a move to Error in the saved record; without call errors it fails exactly on a missing record or one that ends quarantined |
| Reconcile.ReconcileAll | internal/workspace/service.go:52-79 | no error only if no listed workspace is left quarantined |
| HostService.AcknowledgedSurvives | internal/hostservice/leases_linux.go:42-64 | an acknowledged lease that no release or drain took up is in the file after a crash, as acknowledged |
| HostService.OneOpenLeasePerSocket | internal/hostservice/server_linux.go:258-274 | of the leases that were not closed at most one has a workspace and kind, so an idempotency key answers for at most one |
| HostService.Server.Insert | internal/hostservice/server_linux.go:295-307 | the lease is in table and file before it is acknowledged; after a failed save it is in neither |
| HostService.Server.Step | internal/hostservice/server_linux.go:248-415 | any section of any handler keeps the invariant, and only the first section of a release or a drain takes a promised lease up |
| HostService.Server.Interleave | internal/hostservice/server_linux.go:248-415 | in every interleaving, with any calls and writes failing, an acknowledged lease that no release and no drain took up is in table and file as it was acknowledged |
| HostService.Server.Die | internal/hostservice/leases_linux.go:42-64 | after a crash every promised lease is in the file with its contents |
| HostService.Server.Acquire | internal/hostservice/server_linux.go:248-308 | undisturbed, a request gets the lease that has it, a new one, or a refusal without effect, which is all the workspace's half relies on |
| HostService.QuietSocketsExclusive | internal/hostservice/server_linux.go:248-308 | between requests no workspace has two leases of one kind |
| FrameCodec.EncodeThenDecode | internal/bridgeproto/frame.go:24-61 | a written frame is read back, and what follows it is untouched |
| FrameCodec.DecodeThenEncode | internal/bridgeproto/frame.go:24-61 | a frame that was read is valid, and writing it gives the bytes consumed |
| FrameCodec.PrefixFree | internal/bridgeproto/frame.go:24-61 | no frame's encoding begins another's, so a stream has one division into frames |
| FrameCodec.EncodedBytes | internal/bridgeproto/frame.go:45-61 | stream ID and length by position, most significant byte first, the kind between them and the payload behind |
| FrameCodec.EncodeAllThenDecodeAll | internal/bridgeproto/frame.go:24-61 | any list of valid frames is read back with nothing left over |
| FrameCodec.DecodeAllThenEncodeAll | internal/bridgeproto/frame.go:24-61 | a stream that reads as frames is the encoding of those frames |
| FrameCodec.Read | internal/bridgeproto/frame.go:24-43 | returns the frame the stream starts with and consumes exactly its bytes; fails only if there is none |
| FrameCodec.Write | internal/bridgeproto/frame.go:45-61 | accepts exactly the valid frames and appends their encoding |
| Mux.DeliveredIsPrefix | internal/hostservice/chrome_windows_wsl_linux.go:135-238 | in every interleaving, each way, delivered bytes are a prefix of the bytes read from the peer connection of the same stream, and while the receiver has it open the rest is on the wire |
| Mux.AllIsDelivered | internal/hostservice/chrome_windows_wsl_linux.go:135-238 | in every run in which no connection ends and every dial, send and write works, streams stay open at both ends, and whenever pipes and pumps are empty all bytes read at one end of a stream have been delivered at the other, each way |
| Mux.HostDelivers | internal/hostservice/chrome_windows_wsl_linux.go:156-179 | a Data frame for an open stream that is written wholly adds exactly its bytes at the host, leaves the stream open and touches no other |
| Mux.WindowsDelivers | internal/windowsbridge/execute_windows.go:146-197 | and at the Windows end |
| Mux.DuplicateUnreachable | internal/windowsbridge/execute_windows.go:157-163 | an Open frame always names a stream the Windows end never had |
| Mux.UnknownDataIff | internal/windowsbridge/execute_windows.go:182-189 | the error for unknown data happens exactly when the stream was opened at the Windows end and is over there |
| Mux.RelayDies | internal/windowsbridge/execute_windows.go:182-189 | and a run in which it happens |
| Mux.OnlyValidFrames | internal/bridgeproto/frame.go:45-48 | every frame written is one that Write accepts |
| Mux.HostReceivesKeeps | internal/hostservice/chrome_windows_wsl_linux.go:156-179 | the host's reader delivers, skips or closes without losing order |
| Mux.WindowsReceivesKeeps | internal/windowsbridge/execute_windows.go:146-197 | the relay's loop does too, for each kind of frame and each way a dial or write can end |
| Mapping.MergeMapping | internal/config/precedence.go:40-55 | in place, the base becomes the merge of the two trees out of its own and new nodes; the overlay is unchanged and shares no node |
| Mapping.MergeLookup | internal/config/precedence.go:40-55 | key by key the overlay's value wins, except that two mappings are merged |
| Mapping.MergeKeys | internal/config/precedence.go:40-55 | the base's keys keep their order and new ones follow in the overlay's |
| Mapping.MergeKeepsUnique | internal/config/precedence.go:40-55 | keys stay unique, in nested mappings too |
| Mapping.MergeTwice | internal/config/precedence.go:40-55 | merging the same overlay again changes nothing when no mapping of it repeats a key |
| PathMerge.RuntimeEnvironment | internal/workspace/plan.go:324-363 | the loops compute the other entries in order and one PATH of first occurrences by precedence, system directories last |
| PathMerge.OnePath | internal/workspace/plan.go:324-363 | at most one entry sets PATH, the last; the others are those of the three groups in their order |
| PathMerge.Precedence | internal/workspace/plan.go:324-363 | an omp directory comes before one found only in toolchains or base, and a toolchains one before one found only in base, except that system directories come last |
| PathMerge.MergedTwice | internal/workspace/plan.go:324-363 | merging the result again changes nothing |
| PathMerge.PathEntryReadsBack | internal/workspace/plan.go:358-361 | the PATH entry splits into exactly the directories it was joined from |
| ByteSizes.PrintThenParse | internal/config/bytesize.go:30-65 | for every 0 <= b < 2^63 parsing the printed form gives b |
| ByteSizes.PrintsLargest | internal/config/bytesize.go:30-41 | the printed unit is the largest that divides the value, and there is none if none does |
| ByteSizes.AcceptedIsExact | internal/config/bytesize.go:43-65 | every accepted text is a number and a unit suffix, and the result is their exact product, within 63 bits |
| ByteSizes.NumberIff | internal/config/bytesize.go:57-62 | the overflow guard admits exactly the products that fit, so the 64-bit multiplication never wraps |
| OperationKeys.Store.StableOperationKey | internal/cli/workspace_linux.go:446-496 | the pending key goes to the same input only; a new one is written before it is handed out; a held lock refuses |
| OperationKeys.Store.Acknowledge | internal/cli/workspace_linux.go:488-494 | forgets the key of that slot only, and frees its lock |
| OperationKeys.OneKeyBetweenAcknowledgements | internal/cli/workspace_linux.go:446-496 | between acknowledgements a subject and operation are given one key, for one input |
| OperationKeys.SameKeySamePending | internal/cli/workspace_linux.go:446-496 | a key is given twice only for one slot without an acknowledgement in between |

## Left out

- Worlds.World.HostRestart: only between operations, because a host that restarts inside one drops leases the operation already counted.
- Worlds.World.AcquireLease: a request still under way when its client died is taken to be over before the next operation.
- Removal.CleanupSystem: what else the system directory holds, and its owners and modes; the cleanup is taken to fail only on the key.
- Creation.CreatingContainersArePlanned: speaks of the containers made or adopted since the record was first written. One that an earlier life of the ID left behind is not among them; `Runs.MadeByPlan` says of every container what plan it was made for.
- Lifecycle.StartLocked: when calls fail an error promises the invariants and, through `FailStarted` and `StopSetupFailed`, what each error path leaves; it is not claimed that a workspace that failed to start can be started again. With a due setup no exact condition of success is given, here and for restart and rotation: it is up to the command.
- Creation.ResumeCreating: where a resumed creation mounts overlays again, no necessary condition of its success is given: it is up to whether OverlayFS is available.
- Lifecycle.SetupRun: Ready after `setup run` does not mean a booked socket; those claims are made for `StartLocked`.
- Mux.HostReceivesKeeps: goroutines and their locks are the steps of a state machine over values, not a class; looking a connection up and writing to it is one step, with the outcomes the interleaving in between allows. Streams of one bridge are fewer than 2^32.
- Reconcile.Examine: whether a socket or a host lease matches is up to the environment.
- Service.Mutate and the audit log: the lifecycle commands do not use them.
- The contents of the bootstrap, seed and toolchain files: they are one data tree that is there or not. Image references, capabilities, mount options and resource limits of a container are not modelled.
- Reserved workspace masks: pinning and validating them is a call that works or fails.
- Timers, polling, HTTP, SSH, Chrome, process signals, file system calls and the cryptographic and serialisation libraries.
- Command line parsing, the TUI, diagnostics, image builds and pulls, toolchain discovery, .dockerignore handling and audit rotation.
