# Verified model of the agent sandbox service

A Dafny model of the sandbox service's control plane and of the text it hands to
shells and editors, with proofs about every run of it.

The service keeps a record per session (creating, running, stopped, dead, or
forgotten) in a store, and a pod, a PVC and a CA secret per session on a
Kubernetes platform. A warm pool prepares sandboxes ahead of time, a reaper and an
orphan sweep clean up. The rules that keep these in step are spread over several
files: names are derived from ids, `Stop` finds the secret by label, `Purge` by pod
name, the sweep finds the PVC by recomputing its name, and a warm sandbox's pod
changes its name when it is resumed. The first and largest part of the model is
about that.

How the files fit together:

- `Identifiers.dfy`, `Slugs.dfy`, `Platform.dfy`: session ids and what they keep of a
  reference, object names, and the platform as three maps (pods, PVCs, secrets) with the
  effect of each runtime call.
- `Lifecycle.dfy`: what each whole operation does, as functions from state to state.
  Refusals and timeouts are parameters, so a statement over all parameters is a
  statement over all failures.
- `Requests.dfy`: what a caller asks for and when it is granted, in words of its own: the
  image, the posture, the pool, the cap, and every outcome of a create, a resume and a warm
  create.
- `SessionStore.dfy`, `Runtime.dfy`, `WarmPool.dfy`, `Manager.dfy`: the same
  operations as they run, on mutable objects, each method proved to have exactly the
  effect its function in `Lifecycle` states.
- `PlatformCalls.dfy`, `Crashes.dfy`: each operation as the sequence of platform calls
  it makes, so that the orchestrator may die between any two of them.
- `Agreement.dfy`, `Sweeping.dfy`, `Runs.dfy`, `Reaping.dfy`, `Tidiness.dfy`,
  `Purging.dfy`, `Stranding.dfy`, `GetOrCreate.dfy`, `Histories.dfy`, `Capacity.dfy`,
  `Certificates.dfy`: invariants and theorems over all runs of operations in any order, with
  restarts between and in the middle of them.
- `RunningCap.dfy`, `KeyedLock.dfy`, `PoolProtocol.dfy`, `SweepRace.dfy`: the four places
  where interleaving matters, one atomic step at a time, for any number of threads.
- `Shell.dfy`, `CommandLists.dfy`, `JobScript.dfy`, `JobOutcome.dfy`: the executor's
  command text, read back by the quoting, token and list rules of the POSIX Shell Command
  Language (XCU 2.2.1 to 2.2.3, 2.3, 2.9 and 2.10).
- `Buffers.dfy`, `Jobs.dfy`: its bounded output buffers and its job table.
- `Editor.dfy`, `Autoscaler.dfy`: line insertion, numbered display and unique
  replacement; replica arithmetic and its two writers.

`dafny verify dfyconfig.toml` checks the whole project.

## What the code does not promise

The model follows the code where it does less than its comments say or a reader expects.

- `CanonicalID`'s comment says distinct references can never collide. They share an id
  exactly when they share the slug and the ten hex digits kept of the hash
  (`Identifiers.CanonicalCollision`), and whatever the hash some two of 41 characters do
  (`Identifiers.CanonicalIdsCollide`).
- The running cap is documented as a limit. It is one for creates that do not overlap;
  k overlapping creates can exceed it by k - 1, no more, and that is reached
  (`RunningCap.CapHoldsFromStart`, `RunningCap.CapIsReached`). Nor does a resume look at
  it: in runs of whole operations it holds while no stopped session is resumed
  (`Capacity.CapInEveryRun`), and two sessions can run under a cap of one otherwise
  (`Capacity.ResumeExceedsCap`).
- `SweepOrphans`' comment says its grace period cannot race a just-created session. That
  holds while no pod or PVC is left over of the session's id (`SweepRace.GraceProtects`).
  After a restart, a sweep can take an object of a session tracked or being created exactly
  when an old pod, or an old PVC without a pod, is left over of the id, unless what is left
  over blocks the id altogether: the PVC and the CA secret, or the PVC and the pod where no
  secrets are made (`SweepRace.SweepHarmsExactly`). From an empty platform two runs lead
  there and on to the harm (`SweepRace.SweepHarmsFromStart`).
- After a restart a sweep clears every object without the pool label if and only if no
  PVC is shielded by a pod that carries its session label but does not lead to its name
  (`Sweeping.SweepClearsExactly`); the service itself never makes such a platform, not
  even by dying in the middle of an operation (`Runs.RestartConverges`).
- Nothing removes the pool label from an acquired sandbox, so a warm sandbox outlives a
  restart and every sweep after it (`Stranding.PoolOutlivesRestart`).
- A refused secret in a cold or warm create leaves the PVC behind, and a refused pod in a
  resume leaves the secret (`Tidiness.NeatnessIsLostExactly`; runs in which it happens:
  `Stranding.CreateStrandsPvc`, `Stranding.ResumeStrandsSecret`). That secret blocks every
  later resume of the session for as long as the session is kept
  (`Stranding.RefusedResumeBlocksResume`).
- A delete or a clear leaves behind every object of the session's own id that its record
  does not point to, and nothing else the session ever owned (`Purging.PurgeLeavesExactly`;
  a run in which that happens: `Stranding.DeleteLeavesStrandedPvc`).
- The script of a background job holds its line in one subshell, with output and exit code
  recorded behind it, exactly when the line ends outside comments, quotations and escapes
  and is a complete list of commands (`JobOutcome.RecordedExactly`); a job given as an
  argument list always is (`JobOutcome.ArgumentsAreRecorded`). A line that ends in a comment
  swallows the closing parenthesis, so the shell is left with an unclosed subshell
  (`JobOutcome.CommentIsNotRecorded`); a line such as `echo x ) ; ( true` runs its first
  command outside the recorded subshell (`JobOutcome.UnbalancedIsNotRecorded`); a blank
  line, and `true |`, make the shell reject the whole script, so that nothing runs and no
  exit code is written (`JobOutcome.MissingCommandIsNotRecorded`).
- Replacing a unique string succeeds for a string that occurs twice when the two
  occurrences overlap. Success means a single occurrence exactly for strings without a
  proper border (`Editor.UniqueExactlyWhenBorderless`).
- A stop can be lost to a poll that looked the job up before it (`Jobs.StopCanBeLost`).
- A timed autoscaler pass can take away the replica raised for a sandbox about to start
  (`Autoscaler.EarlyReconcileUndoes` says exactly when).

## Model

| member | source | states |
|---|---|---|
| Slugs.CanonicalID | internal/session/id.go:26-56 | the dash-collapsing loop terminates; the id is the one a single-pass run collapse gives, and spells the words of the reference in lower case with one dash between any two, cut at forty characters, before the hash suffix |
| Slugs.StemSpellsWords | internal/session/id.go:30-54 | rune mapping, trimming, collapsing and cutting together give exactly that spelling; there are no words exactly when the reference has no letter and no digit |
| Slugs.StemKeepsLetters | internal/session/id.go:30-51 | the letters and digits of the stem are those of the reference, in order and in lower case, all of them when the text fits in forty characters and a prefix otherwise |
| Identifiers.HalvingShrinks | internal/session/id.go:42-44 | one replacement pass shortens a slug that still has a double dash |
| Identifiers.HalvingKeepsCollapse | internal/session/id.go:42-44 | one pass leaves the fully collapsed form unchanged |
| Identifiers.CollapseOfSingle | internal/session/id.go:42-44 | a slug without double dashes is its own collapse, so the loop's fixpoint is the collapse |
| Identifiers.CanonicalIsLabel | internal/session/id.go:42-55 | lowercase alphanumerics and single dashes, alphanumeric at both ends, 12 to 51 characters, for every input |
| Requests.NamesAreLabels | internal/session/id.go:45-48 | the names of a session's pod, PVC and secret are labels of at most 63 characters |
| Identifiers.CanonicalCollision | internal/session/id.go:23-55 | two references share an id if and only if they share slug and hash suffix |
| Identifiers.CanonicalIdsCollide | internal/session/id.go:23-55 | for every hash function some two distinct references of 41 dashes and underscores have the same id |
| Identifiers.NamespacesDisjoint | internal/session/id.go:12-56 | a canonical id, a random id and a warm-pool id are never equal |
| Identifiers.CanonicalNamespace | internal/session/id.go:26-56 | the part after the last dash is the ten-character suffix: the id determines it |
| Identifiers.WarmNamespace | internal/pool/pool.go:135-140 | a warm-pool id ends in a twelve-character part, so no session id is one |
| SessionStore.Session.Clone | internal/session/store.go:143-149 | a new object with the same record |
| SessionStore.MemoryStore.Create | internal/session/store.go:23-39 | inserts a copy; fails exactly on an empty or known id; the caller's object is never held |
| SessionStore.MemoryStore.Get | internal/session/store.go:42-55 | a fresh copy, so that mutating it leaves the store alone |
| SessionStore.MemoryStore.Update | internal/session/store.go:58-74 | replaces a record and never inserts one |
| SessionStore.MemoryStore.Delete | internal/session/store.go:77-90 | forgets exactly that id |
| SessionStore.MemoryStore.Touch | internal/session/store.go:127-141 | writes the activity time through to the one held object and to no other |
| SessionStore.MemoryStore.ListByState | internal/session/store.go:109-124 | every record in that state once, as copies |
| SessionStore.MemoryStore.List | internal/session/store.go:93-106 | every record once, as copies |
| Runtime.KubeRuntime.CreateCASecret | internal/runtime/kubernetes.go:400-417 | a secret only when a certificate is given; refused when the name is taken |
| Runtime.KubeRuntime.Create | internal/runtime/kubernetes.go:38-81 | PVC, secret, pod in sequence with rollback: the whole effect in every refusal |
| Runtime.KubeRuntime.Stop | internal/runtime/kubernetes.go:173-194 | removes the pod and the secret named by its label, keeps the PVC |
| Runtime.KubeRuntime.Resume | internal/runtime/kubernetes.go:196-206 | a pod under the session's own name on the retained PVC; a refused pod leaves the secret |
| Runtime.KubeRuntime.Purge | internal/runtime/kubernetes.go:208-226 | removes the pod, the secret found through the pod's name, and the PVC |
| Runtime.KubeRuntime.ListSandboxes | internal/runtime/kubernetes.go:238-259 | every pod once, its PVC name recomputed from the label |
| Runtime.KubeRuntime.ListWorkspaces | internal/runtime/kubernetes.go:262-282 | every PVC once, its pod name recomputed from the label |
| WarmPool.Pool.Acquire | internal/pool/pool.go:59-75 | the in-place shift hands out the front handle and keeps the others in order |
| WarmPool.Pool.ReserveWarmingSlot | internal/pool/pool.go:112-125 | reserves exactly when idle plus warming is below the target |
| WarmPool.Pool.FinishWarming | internal/pool/pool.go:164-173 | gives the slot back and appends the handle if there is room |
| WarmPool.Pool.CreateOne | internal/pool/pool.go:135-162 | one creation has the effect of Lifecycle.Warm, whatever else the state holds |
| WarmPool.Pool.Replenish | internal/pool/pool.go:103-110 | repeats creations until the target is met or one fails |
| PlatformCalls.CreateIsItsCalls | internal/runtime/kubernetes.go:38-81 | the API calls of a create, performed in order with rollback, have exactly its effect |
| PlatformCalls.StopIsItsCalls | internal/runtime/kubernetes.go:173-194 | likewise for a stop |
| PlatformCalls.ResumeIsItsCalls | internal/runtime/kubernetes.go:196-206 | likewise for a resume |
| PlatformCalls.PurgeIsItsCalls | internal/runtime/kubernetes.go:208-226 | likewise for a purge |
| PlatformCalls.PrefixKeepsCluster | internal/runtime/kubernetes.go:38-226 | wherever a sequence of safe calls is cut off, labels, names and mounts are in order |
| Crashes.CreateCovered | internal/manager/manager.go:231-364 | the calls of a whole create, failures and cleanup included, are safe one by one and add up to it |
| Crashes.ResumeCovered | internal/manager/manager.go:521-580 | likewise for a resume and its cleanup |
| Crashes.EnsureCovered | internal/manager/manager.go:401-430 | likewise for get-or-create |
| Crashes.WarmCovered | internal/pool/pool.go:135-162 | likewise for a warm create |
| Crashes.SweepCovered | internal/manager/manager.go:165-227 | likewise for a sweep, in whatever order its listings come |
| Crashes.ReapCovered | internal/reaper/reaper.go:56-98 | likewise for a reaper pass |
| Manager.Manager.Create | internal/manager/manager.go:231-350 | the whole effect on store, platform and pool, with every failure path, equals Lifecycle.Create |
| Manager.Manager.AtCapacity | internal/manager/manager.go:236-247 | running plus creating has reached the cap |
| Manager.Manager.Provision | internal/manager/manager.go:293-328 | a pool handle when image and posture are the defaults, else a cold sandbox |
| Manager.Manager.Settle | internal/manager/manager.go:330-349 | persist, wait, mark running, or undo |
| Manager.Manager.CleanupFailedCreate | internal/manager/manager.go:356-364 | purges what was made and records the session dead |
| Manager.Manager.EnsureSession | internal/manager/manager.go:401-430 | get-or-create equals Lifecycle.Ensure; the caller gets its own copy |
| Manager.Manager.Clear | internal/manager/manager.go:434-449 | purges and forgets a known session |
| Manager.Manager.PurgeAndForget | internal/manager/manager.go:454-460 | removes sandbox and record |
| Manager.Manager.Stop | internal/manager/manager.go:504-518 | idempotent on stopped and dead sessions; otherwise stops the pod and stamps the time |
| Manager.Manager.Resume | internal/manager/manager.go:521-566 | equals Lifecycle.Resume in every outcome |
| Manager.Manager.CleanupFailedResume | internal/manager/manager.go:571-580 | stops the unready pod, empties the pod name, records the session stopped |
| Manager.Manager.Delete | internal/manager/manager.go:583-596 | purges and records the session dead |
| Manager.Manager.Touch | internal/manager/manager.go:463-465 | sets the activity time of that record |
| Manager.Manager.BeginActivity | internal/manager/manager.go:469-474 | counts the call and touches the session |
| Manager.Manager.EndActivity | internal/manager/manager.go:479-488 | uncounts the call, dropping the entry at zero |
| Manager.Manager.SweepOrphans | internal/manager/manager.go:165-227 | the two listing loops remove what Lifecycle.Sweep removes |
| Manager.Manager.SweepPods | internal/manager/manager.go:178-205 | purging orphan pods one by one equals purging them as a set |
| Manager.Manager.SweepPvcs | internal/manager/manager.go:207-226 | purging orphan PVCs one by one equals purging them as a set |
| Manager.Manager.ReapOnce | internal/reaper/reaper.go:56-98 | sweep, then stop expired running sessions, then delete expired stopped ones |
| Manager.Manager.StopExpired | internal/reaper/reaper.go:64-81 | stops exactly the listed running sessions that have expired |
| Manager.Manager.DeleteExpired | internal/reaper/reaper.go:83-97 | deletes exactly the listed stopped sessions that have expired |
| Agreement.StopKeepsInv | internal/manager/manager.go:504-518 | Stop keeps the store/platform invariant |
| Agreement.DeleteKeepsInv | internal/manager/manager.go:583-596 | Delete keeps the invariant |
| Agreement.ForgetKeepsInv | internal/manager/manager.go:454-460 | purge-and-forget keeps the invariant |
| Agreement.CreateKeepsInv | internal/manager/manager.go:231-364 | Create keeps the invariant, from the pool or cold, whatever fails |
| Agreement.ResumeKeepsInv | internal/manager/manager.go:521-580 | Resume keeps the invariant, with the pod renamed and a pool PVC retained |
| Agreement.EnsureKeepsInv | internal/manager/manager.go:401-430 | get-or-create keeps the invariant |
| Agreement.WarmKeepsInv | internal/pool/pool.go:135-162 | a warm create keeps the invariant |
| Agreement.TeardownIsLocal | internal/runtime/kubernetes.go:173-226 | removing one record's pod and PVC touches no other session and no idle sandbox |
| Requests.ImageIsWanted | internal/manager/manager.go:136-143 | the image is the one asked for, unless that is white space around nothing, around `default` or around `sandbox-default` |
| Requests.PrintableImageIsKept | internal/manager/manager.go:136-143 | an image written in visible ASCII characters is taken as it is, but for those two names |
| Requests.PoolTakesWhatFits | internal/manager/manager.go:293-295 | the pool serves a request exactly when it wants the default image and no root or writable posture but the configured one |
| Requests.CreateOutcome | internal/manager/manager.go:231-350 | a create succeeds if and only if there is room under the cap, a proxy, a sandbox, and it becomes ready; the whole record, platform and pool it then leaves |
| Requests.ResumeOutcome | internal/manager/manager.go:521-566 | a stopped session is resumed if and only if proxy, secret and pod are granted and the pod becomes ready; it then keeps its workspace, under its own pod name, its idle clock restarted |
| Requests.WarmOutcome | internal/pool/pool.go:112-162 | under a validated configuration the pool grows by one complete sandbox if and only if it is below the number wanted, the platform takes it and it becomes ready |
| Requests.KnownSessionsOnly | internal/manager/manager.go:434-596 | stop, delete and clear fail for unknown sessions alone, and then change nothing; a stop changes nothing of a stopped or dead session |
| Runs.StepKeepsGood | internal/manager/manager.go:231-596 | every operation with any failure, and every crash in the middle of one, keeps the invariant |
| Runs.OperationIsItsCalls | internal/manager/manager.go:165-596 | each operation is the sequence of platform calls listed for it, each safe where it stands |
| Runs.CrashKeepsGood | internal/manager/manager.go:231-596 | dying after any number of an operation's calls leaves a platform in order |
| Runs.AgreementInEveryRun | internal/manager/manager.go:231-596 | in every run: a running session's pod exists and mounts its existing PVC, a stopped one's PVC exists unmounted, a dead one has neither, and no two tracked sessions share a pod or PVC |
| Runs.SweepIsSafeInEveryRun | internal/manager/manager.go:165-227 | after any run the sweep spares every object of tracked sessions and of the warm pool |
| Runs.SweepGraceInEveryRun | internal/manager/manager.go:184-226 | after any run, of what nobody tracks and the pool does not own, a pod survives a sweep if and only if it is no older than the lifetime cap, and a PVC without a pod if and only if it is no older than the retention period |
| Runs.RestartConverges | internal/manager/manager.go:184-226 | after any run and a restart, between two operations or after any prefix of one's platform calls, a sweep past both limits leaves no sandbox pod or PVC without the pool label |
| Sweeping.SweepIsExact | internal/manager/manager.go:165-227 | a pod or PVC disappears if and only if it is an orphan; nothing else changes |
| Sweeping.SweepGraceExactly | internal/manager/manager.go:191-219 | the same on any platform in order |
| Sweeping.SweepSafety | internal/manager/manager.go:184-226 | pods, PVCs and secrets of tracked sessions and of the pool are untouched, pool-named objects of a session included |
| Sweeping.SecretSurvivesSweep | internal/runtime/kubernetes.go:208-226 | the sweep removes no secret of a tracked session or of the pool |
| Sweeping.SweepKeepsInv | internal/manager/manager.go:165-227 | the sweep keeps the invariant |
| Sweeping.MountSurvivesSweep | internal/manager/manager.go:207-226 | no pod that stays loses the PVC it mounts |
| Sweeping.SweepConverges | internal/manager/manager.go:184-226 | on any platform whatsoever, with an empty store and everything old, a sweep leaves only pool-labelled pods, and an unlabelled PVC exactly when it is shielded |
| Sweeping.SweepClearsExactly | internal/manager/manager.go:184-226 | the sweep clears everything without the pool label if and only if no unlabelled PVC is shielded |
| Sweeping.SweepKeepsOnlyProtected | internal/manager/manager.go:184-226 | with sessions tracked and everything old, exactly their objects and the pool's remain |
| Reaping.ReapRunningEffect | internal/reaper/reaper.go:64-81 | the loop over running sessions changes exactly the expired ones it lists |
| Reaping.ReapStoppedEffect | internal/reaper/reaper.go:83-97 | the loop over stopped sessions changes exactly the expired ones it lists |
| Reaping.ReapIsExact | internal/reaper/reaper.go:56-120 | a pass stops exactly the running sessions older than the cap, or idle past the limit without open call, and deletes exactly the stopped ones past retention; none goes from running to dead |
| Reaping.ReapLeavesNoneExpired | internal/reaper/reaper.go:56-120 | after a pass, in subtractions of times: every running session is within the cap, and recently active or with a call open; every stopped one within retention; sessions that were so before keep their record; an overdue stopped one is dead and its workspace gone |
| Reaping.ActiveCountsOpenCalls | internal/manager/manager.go:469-496 | in every run, restarts included, the counter is the number of calls open since the last restart |
| Reaping.OpenCallsSinceRestart | internal/manager/manager.go:469-496 | that number is the calls begun minus the calls ended in the orchestrator's present life |
| Reaping.IdleStopMeansNoOpenCall | internal/reaper/reaper.go:105-116 | after any run, within the lifetime cap, a pass stops a session if and only if no call is open and it has been idle past the limit |
| Reaping.WorkspaceIsRetained | internal/reaper/reaper.go:56-120 | no run short of an explicit delete, a clear, a recreation for another image or a restart removes a workspace before the stopped TTL has passed since the last stop |
| Reaping.StopRetainsWorkspace | internal/manager/manager.go:504-518 | the retention period counts from a stop that took effect |
| Reaping.ActivityKeepsRunning | internal/manager/manager.go:463-488 | a touch, and the beginning and end of a call, restart the idle clock: no run stops the session before the idle limit has passed since, or the lifetime cap since its creation, unless someone asks for it |
| Tidiness.CreateNeat | internal/runtime/kubernetes.go:38-81 | Create leaves an object of an id without owner exactly when it creates for that id and its secret is refused |
| Tidiness.ResumeNeat | internal/runtime/kubernetes.go:196-206 | Resume does so exactly when its pod is refused after its secret was made |
| Tidiness.WarmNeat | internal/pool/pool.go:135-162 | a warm create does so exactly when its secret is refused |
| Tidiness.NeatnessIsLostExactly | internal/runtime/kubernetes.go:38-226 | for every id and every step: its objects stay owned if and only if the step is not one of those failures for that id |
| Tidiness.TidinessIsLostExactly | internal/runtime/kubernetes.go:38-226 | the same for all ids at once |
| Tidiness.NothingLeaks | internal/manager/manager.go:231-596 | in a run without those failures every pod, PVC and secret belongs to a live session or to the idle pool |
| Tidiness.NothingLeaksFromStart | internal/manager/manager.go:231-596 | so in every such run from the start |
| Tidiness.TidySweepIsIdle | internal/manager/manager.go:165-227 | where nothing is lost the sweep does nothing |
| Purging.HistoryIsAccounted | internal/manager/manager.go:231-596 | over every run without a restart, whatever fails, every id a session ever took objects from is its own, or a pool id nobody else can hold whose objects are all owned |
| Purging.GoneLeavesNoPoolObject | internal/manager/manager.go:356-364 | in every such run, once the session is dead or forgotten nothing named from any pool id it ever took over remains |
| Purging.PurgeLeavesExactly | internal/manager/manager.go:434-460 | in every such run, right after a delete or clear exactly those objects the session ever owned remain that are named from its own id and not pointed to by its record; none if and only if the record pointed to each there was |
| Purging.GoneLeavesNothing | internal/manager/manager.go:356-364 | corollary for unused ids none of whose objects a refusal stranded: a session that is gone leaves nothing it ever owned |
| Purging.PurgeIsComplete | internal/manager/manager.go:434-460 | corollary for the same histories: nothing it ever owned remains right after a delete or clear |
| Purging.RestartedIdIsUnused | internal/manager/manager.go:165-227 | after any restart and a sweep past both limits an id is unused again, if and only if no secret of it was stranded without pod and PVC |
| Purging.DeleteLeavesExactly | internal/runtime/kubernetes.go:208-226 | in any state, a delete leaves the pod, the PVC or the secret of the session's id if and only if there is one and the record points to another name |
| Stranding.RefusedResumeBlocksResume | internal/runtime/kubernetes.go:196-206 | after a resume whose pod was refused, every later resume fails, in every run that does not delete, clear, recreate, reap or restart the session away |
| Stranding.CreateStrandsPvc | internal/runtime/kubernetes.go:65-67 | a reachable run in which a refused secret strands the PVC, which blocks the id's next cold create |
| Stranding.ResumeStrandsSecret | internal/runtime/kubernetes.go:196-206 | a reachable run in which a refused pod strands the secret |
| Stranding.DeleteLeavesStrandedPvc | internal/runtime/kubernetes.go:208-226 | a reachable run in which a delete leaves the PVC of the session's own id, stranded before the pool served it |
| Stranding.PoolOutlivesRestart | internal/manager/manager.go:184-226 | a reachable run in which a warm sandbox outlives a restart and every later sweep |
| GetOrCreate.EnsureContract | internal/manager/manager.go:401-430 | success if and only if a running record stands under the canonical id, with its sandbox, and with the image and workspace promised; every other session keeps its record, pod, secret and PVC |
| GetOrCreate.EnsureSucceedsExactly | internal/manager/manager.go:401-430 | it succeeds if and only if the session runs with the right image, or is stopped and can be resumed, or a new one can be made once the old sandbox is gone |
| GetOrCreate.EnsureIsIdempotent | internal/manager/manager.go:401-430 | repeating a successful call, at any later time and under any faults, returns the same record and changes nothing |
| Histories.RecordsTellTheirHistory | internal/manager/manager.go:231-566 | in every run: a record is marked as pooled if and only if its workspace came from the pool, and then has the default image; creation, activity and stop times are in order and never in the future |
| Histories.ReplenishIsARun | internal/pool/pool.go:103-162 | a replenishment is a run of single warm creates, at most one for each sandbox missing, so all statements about runs cover it; the ids it draws are fresh and distinct |
| Capacity.CapInEveryRun | internal/manager/manager.go:236-247 | in every run of whole operations in which no stopped session is resumed, running sessions stay within the cap |
| Capacity.ResumeExceedsCap | internal/manager/manager.go:521-566 | a reachable run in which a resume exceeds a cap of one |
| Capacity.IdleInEveryRun | internal/pool/pool.go:112-133 | in every run no more sandboxes wait than are wanted |
| Capacity.ReplenishFills | internal/pool/pool.go:103-133 | a replenishment that meets no failure brings them up to that number |
| Certificates.SecretsInEveryRun | internal/runtime/kubernetes.go:38-226 | where sessions and the pool are given a certificate: in every run the CA secret of every running session's pod, and of every idle sandbox, is there |
| RunningCap.StepKeepsInv | internal/manager/manager.go:236-247 | running sessions plus creates whose first read was low stay within the cap plus k - 1 |
| RunningCap.CapHolds | internal/manager/manager.go:231-350 | the bound from any state of the invariant |
| RunningCap.CapHoldsFromStart | internal/manager/manager.go:236-247 | for every cap, in every interleaving of at most k creates, creating plus running never exceeds the cap plus k - 1, and is zero under a cap of zero or less |
| RunningCap.CapIsReached | internal/manager/manager.go:236-247 | for every cap and k some interleaving reaches that bound |
| KeyedLock.EntriesAreStable | internal/manager/manager.go:105-115 | a lock entry, once set, never changes |
| KeyedLock.Exclusion | internal/manager/manager.go:105-115 | at most one thread per canonical id is between its store read and its end |
| KeyedLock.StepKeepsInv | internal/manager/manager.go:401-449 | every atomic step, locked or not, keeps the lock invariant |
| KeyedLock.LockedCreateNeverCollides | internal/manager/manager.go:401-449 | in every interleaving with unlocked stops, resumes, deletes and reaping, the create of a get-or-create never meets an existing record |
| KeyedLock.SomeoneCanMove | internal/manager/manager.go:105-115 | while a thread is under way some thread can take its next step: no deadlock |
| PoolProtocol.StepKeepsInv | internal/pool/pool.go:59-173 | every critical section keeps slots, queue and handle accounting |
| PoolProtocol.PoolConserves | internal/pool/pool.go:59-173 | in every interleaving: idle plus warming within the target, warming equals creations under way, each handle in exactly one of four places, first in first out |
| PoolProtocol.RoomForEveryHandle | internal/pool/pool.go:164-173 | the branch that would drop a finished handle is never taken |
| SweepRace.StepKeepsSafe | internal/manager/manager.go:165-227 | every step of creates, resumes, deletes, restarts and of the sweep's own reads and purge calls keeps an unexposed id safe |
| SweepRace.SweepHarmsExactly | internal/manager/manager.go:184-226 | some interleaving of a sweep takes a pod, secret or PVC of a session tracked or being created if and only if a pod, or a PVC without a pod, is left over of the id and past its limit, and what is left over does not block the id |
| SweepRace.LeftPodHarms | internal/manager/manager.go:184-200 | the run in which purging a left-over pod takes the PVC of a create in flight |
| SweepRace.LeftWithoutSecretHarms | internal/runtime/kubernetes.go:208-226 | the run in which a purge, between its pod call and its secret call, takes the secret of a session just resumed |
| SweepRace.LeftPvcHarms | internal/manager/manager.go:207-226 | the run in which purging a left-over PVC takes the pod of a session just resumed |
| SweepRace.SweepHarmsFromStart | internal/manager/manager.go:184-226 | for every id, runs from an empty platform through a restart that reach a left-over pod and a left-over PVC, and end in that harm |
| SweepRace.GraceProtects | internal/manager/manager.go:187-192 | with no pod or PVC left over of an id, no sweep of any run takes an object of its session, as long as each create takes no longer than either limit |
| Shell.ShellJoin | internal/exec/kubeexec.go:370-376 | the append loop builds the joined text, which parses back to the arguments |
| Shell.QuotedScans | internal/exec/kubeexec.go:378-383 | a quoted string is read as one piece of a word, every character quoted |
| Shell.JoinParsesBack | internal/exec/kubeexec.go:370-383 | splitting the joined text gives exactly the arguments, empty ones included, if and only if none holds a NUL |
| Shell.ArgvCommandRuns | internal/exec/kubeexec.go:327-342 | an argument list is run as it is, or behind `cd` and `exec` with exactly those words; an empty command is the only error |
| Shell.LineCommandRuns | internal/exec/kubeexec.go:327-357 | a shell line reads as written, behind `cd` and `&&` when a directory is given, the same for commands and for jobs |
| JobScript.LauncherParses | internal/exec/kubeexec.go:168-169 | for every script, the launcher's `-lc` argument is exactly that script, if and only if it is free of NULs |
| JobScript.InnerParses | internal/exec/kubeexec.go:168-168 | what the script reads as, for each way its line can end: finished, in a comment, after a backslash, in an open quotation |
| JobScript.JobRuns | internal/exec/kubeexec.go:154-169 | end to end: pod shell, launcher, inner script, exactly the arguments in the directory asked for |
| JobScript.FilesAreApart | internal/exec/kubeexec.go:160-167 | log and exit-code files of all jobs are distinct |
| CommandLists.SubshellIsList | internal/exec/kubeexec.go:168-168 | the parentheses of the script close each other exactly when the tokens between them make a complete list of commands |
| JobOutcome.RecordedExactly | internal/exec/kubeexec.go:168-168 | the script reads as the line in one subshell, followed by the recording, in a script the shell takes, if and only if the line ends outside comments, quotations and escapes and is a complete list of commands |
| JobOutcome.ArgumentsAreRecorded | internal/exec/kubeexec.go:154-169 | a job given as an argument list is recorded, whatever its arguments and directory |
| JobOutcome.CommentIsNotRecorded | internal/exec/kubeexec.go:168-168 | a line with a trailing comment leaves the subshell unclosed |
| JobOutcome.UnbalancedIsNotRecorded | internal/exec/kubeexec.go:168-168 | a line whose own parenthesis closes the subshell early, so that its first command is not recorded |
| JobOutcome.MissingCommandIsNotRecorded | internal/exec/kubeexec.go:154-169 | a blank line and one that breaks off after a pipe are accepted, and their scripts rejected by the shell |
| Buffers.CapBuffer.Write | internal/exec/kubeexec.go:499-516 | the buffer holds the head of everything written; truncated if and only if more than the limit was written |
| Buffers.TailBuffer.Write | internal/exec/kubeexec.go:532-543 | the buffer holds the tail of everything written; truncated likewise |
| Buffers.Capture | internal/exec/kubeexec.go:489-546 | however the stream is chunked, head and tail are those of the whole stream |
| Buffers.ReadFile | internal/exec/kubeexec.go:286-300 | a file is returned whole or refused, never cut; a failing command and a broken stream are errors of their own |
| Jobs.JobTable.ReapJobs | internal/exec/kubeexec.go:193-204 | keeps exactly the jobs within both limits |
| Jobs.JobTable.StartJob | internal/exec/kubeexec.go:154-189 | reaps, then remembers the new job; nothing on a failed launch |
| Jobs.JobTable.PollJob | internal/exec/kubeexec.go:207-249 | answers for a known job in the sandbox named; the job returned is the one written back: the exit code seen, if one was, running only if a live process was seen, id, pod and start time kept; a failed command changes nothing |
| Jobs.JobTable.StopJob | internal/exec/kubeexec.go:253-282 | halts a known job in the sandbox named, with exit code 0 and its first finish time; without an id no job changes |
| Jobs.StoppedJobsHaveFinished | internal/exec/kubeexec.go:183-282 | in every interleaving a stored job that is not running has a finish time, between its start and now |
| Jobs.JobIsRemembered | internal/exec/kubeexec.go:183-249 | over every run, a job stays in the table until the hard limit has passed since its start or the retention period since it may have finished |
| Jobs.StartEvictsExactly | internal/exec/kubeexec.go:183-204 | a start evicts an overdue job that no poll holds, for the rest of every run, and leaves any other as it is |
| Jobs.FinishTimeIsFinal | internal/exec/kubeexec.go:207-282 | once no poll under way holds an older copy, a finish time never changes again, in any interleaving |
| Jobs.ForgottenStays | internal/exec/kubeexec.go:193-249 | a job neither stored nor being polled never comes back |
| Jobs.WriteBackKeepsFinishTime | internal/exec/kubeexec.go:207-249 | a write-back keeps an earlier finish time if and only if the poll's copy carried it |
| Jobs.StoredExitCodeWasSeen | internal/exec/kubeexec.go:207-249 | in every interleaving, a stored exit code other than 0 was found by some poll of that very job |
| Jobs.RecodesExactly | internal/exec/kubeexec.go:183-282 | which steps leave a stored job with another exit code: its stop, a start under its id, and a write-back that found, or had looked up, another one |
| Jobs.SeenCodeStays | internal/exec/kubeexec.go:217-249 | a code a poll found is stored with the job not running, and stays while the job is stored, in every run without such a step |
| Jobs.StopCanBeLost | internal/exec/kubeexec.go:207-282 | a concrete run in which a poll undoes a stop |
| Editor.UnsplitSplit | internal/mcp/edit.go:31-40 | splitting into lines loses nothing |
| Editor.SplitUnsplit | internal/mcp/edit.go:31-40 | lines without newlines are what their text splits into |
| Editor.LinesConcat | internal/mcp/edit.go:31-40 | displayed lines add up at a line end and are one fewer inside a line |
| Editor.InsertAfterLine | internal/mcp/edit.go:57-78 | succeeds exactly for line 0 up to the newline count, plus one when there is content; splices the text at one point |
| Editor.LineEndIsALineBreak | internal/mcp/edit.go:65-76 | that point is the start, just after the asked-for newline, or the end |
| Editor.InsertionShows | internal/mcp/edit.go:57-78 | the result displays the lines before, the text's lines and the lines after if and only if the text starts on and leaves a fresh line |
| Editor.InsertionPoint | internal/mcp/edit.go:57-78 | the lines before and after are the displayed lines split after the one asked for |
| Editor.RenderNumberedLines | internal/mcp/edit.go:9-29 | the rendered text reads back, line by line, as the numbers and texts of the clamped range; empty exactly for an empty range |
| Editor.RangeIsClamped | internal/mcp/edit.go:9-21 | the range shown holds exactly the line numbers of the text within the one asked for |
| Editor.NumberedLineReads | internal/mcp/edit.go:22-27 | a rendered line's leading digits have the line's number as their value, and what follows is its text |
| Editor.ReplacementSucceeds | internal/mcp/edit.go:42-55 | success exactly when there is a match and no second disjoint one; the leftmost is replaced; which error otherwise |
| Editor.MatchesReported | internal/mcp/edit.go:42-55 | the number reported for a string that is not unique is the greatest number of matches that do not overlap |
| Editor.BorderlessOccursOnce | internal/mcp/edit.go:42-55 | a replaced string without a proper border occurred exactly once |
| Editor.UniqueExactlyWhenBorderless | internal/mcp/edit.go:42-55 | success implies a single occurrence in every file if and only if the string has no proper border |
| Editor.BorderlessRestores | internal/mcp/edit.go:42-55 | replacing back restores the file when the new string has no proper border |
| Editor.RestoresExactlyWhenBorderless | internal/mcp/edit.go:42-55 | replacing back restores every file if and only if the new string has no proper border |
| Autoscaler.Autoscaler.CountSandboxPods | internal/proxy/autoscaler.go:140-152 | counts the pods not being deleted |
| Autoscaler.LiveCounts | internal/proxy/autoscaler.go:140-152 | that is the number of pods in the list not being deleted |
| Autoscaler.Autoscaler.ScaleTo | internal/proxy/autoscaler.go:155-171 | ends at the desired count, patching only on a difference |
| Autoscaler.Autoscaler.ScaleUpTo | internal/proxy/autoscaler.go:174-191 | ends at or above the desired count, patching only when below |
| Autoscaler.Autoscaler.Reconcile | internal/proxy/autoscaler.go:78-94 | sets the desired count for the pods counted; a failed call changes nothing |
| Autoscaler.Autoscaler.EnsureReady | internal/proxy/autoscaler.go:123-137 | raises to what one more sandbox needs, at least one; succeeds only if a proxy then becomes ready |
| Autoscaler.DesiredWithinBounds | internal/config/config.go:311-321 | under a validated configuration the count lies within minimum and maximum and is positive for a positive number of sandboxes |
| Autoscaler.DesiredIsLeast | internal/proxy/autoscaler.go:98-117 | the count is the least that respects the floor and serves every sandbox, unless capped |
| Autoscaler.DesiredIsMonotone | internal/proxy/autoscaler.go:98-117 | more sandboxes never want fewer replicas |
| Autoscaler.ReconcileSettles | internal/proxy/autoscaler.go:78-94 | a second pass over the same pods patches nothing |
| Autoscaler.ReconcileKeepsAProxy | internal/proxy/autoscaler.go:78-94 | a pass that counts a sandbox leaves a replica |
| Autoscaler.EnsureReadyOnlyRaises | internal/proxy/autoscaler.go:123-137 | never lowers the count, and the timed pass agrees once the new pod is counted |
| Autoscaler.EarlyReconcileUndoes | internal/proxy/autoscaler.go:78-137 | from any count, a timed pass before that lowers it if and only if it stood above what the counted sandboxes want, or they fill their replicas exactly, at or above the floor and below the cap |

## Left out

- Platform deletes succeed at once and contexts stay live: objects being deleted, and cancellation (but for the locked store read in `KeyedLock`), are not modelled.
- Runtime.KubeRuntime.Create: a PVC of the same name that is still being deleted is simply gone or simply there; waiting for it, and failing to, is one of the refusals.
- Runtime.KubeRuntime.ListSandboxes: does not model pods already being deleted, which the source leaves out of the list.
- Runtime.KubeRuntime.ListWorkspaces: does not model PVCs already being deleted, which the source leaves out of the list.
- Deleting the empty pod name, which a failed resume leaves in the record, is a no-op; a real API server may answer it with an error.
- Each whole operation happens at one instant; the clock is a parameter that never goes back.
- Identifiers drawn at random are parameters that are fresh and of the right shape; SHA-256 is any function to ten hex digits.
- References are sequences of characters, invalid UTF-8 is not modelled; editor texts are sequences of bytes, a character each.
- Organisation, user, runtime-class and proxy identifiers of a session, and the security context and environment of its pod: carried through unchanged, they decide nothing here.
- MaxStopped, which no code enforces; `Resume` is modelled as it is, without a cap check and without the posture of the original create.
- Runs of whole operations do not interleave inside an operation, and one operation at a time is cut short by a crash; the interleavings that matter for the cap, the lock, the pool and the sweep have their own step models.
- Manager.Manager.Replenish: fixes the order of the pool's creations one after another; `PoolProtocol` has them concurrent.
- Runs.RestartConverges: speaks of objects without the pool label, because nothing removes that label from an acquired sandbox.
- Purging.PurgeLeavesExactly: excludes a restart while the session is tracked, which empties the store; sessions made after a restart are covered, from any platform in order.
- Purging.GoneLeavesNothing: excludes runs in which a refusal stranded an object of that very session; what holds in those too is `Purging.GoneLeavesNoPoolObject`.
- Purging.PurgeIsComplete: excludes the same runs; the exact condition for all runs is `Purging.PurgeLeavesExactly`.
- RunningCap.CapHoldsFromStart: takes no resume into account, because `Resume` does not check the cap.
- SweepRace.SweepHarmsExactly: leaves out the pool's objects, over which the sweep passes; a stop, a resume and a delete of a session are one step each, a create and the sweep's purges go call by call.
- JobOutcome.RecordedExactly: says nothing about lines with command or brace substitution, reserved words in command position, function definitions or here-documents, which the rules modelled do not cover; nor about aliases, or the `((` of other shells.
- Jobs.JobTable.PollJob: the process id, log and exit-code paths of a job and the answers of the pod are parameters.
- Autoscaler.Autoscaler.EnsureReady: whether a proxy pod becomes ready before the timeout is a parameter.
- Streaming to pods, parsing of process ids and directory listings, HTTP and MCP request handling, the proxy's certificate and assignment code, network policy checks and configuration loading.
