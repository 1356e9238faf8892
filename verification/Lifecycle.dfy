// What each whole operation of the manager and the reaper does to the session
// store, the platform and the idle pool (internal/manager/manager.go,
// internal/reaper/reaper.go, internal/pool/pool.go). Refusals and readiness
// timeouts are parameters, so a statement over all parameters is a statement
// over every failure.
module Lifecycle {
  import opened Wrappers
  import opened Identifiers
  import opened Platform

  // ---- Data ----------------------------------------------------------------

  datatype State = Creating | Running | Stopped | Dead

  datatype Record = Record(
    id: string, ref: string, state: State, image: string, podName: string, pvcName: string,
    fromPool: bool, createdAt: int, lastActivityAt: int, stoppedAt: int)

  type Store = map<string, Record>

  datatype Config = Config(
    defaultImage: string, writableRoot: bool, runAsRoot: bool,
    maxRunning: int, minIdleReady: int,
    runningTTL: int, maxLifetime: int, stoppedTTL: int,
    proxy: bool,    // a proxy assigner is wired
    caCert: bool,   // ... and hands out a certificate
    pool: bool,     // a warm pool is wired
    poolCaCert: bool,
    sum: Digest)

  predicate Validated(c: Config) {
    c.minIdleReady <= c.maxRunning && c.runningTTL > 0 && c.maxLifetime > 0 && c.stoppedTTL > 0
  }

  datatype CreateOptions = CreateOptions(ref: string, image: string, writableRoot: Option<bool>,
      runAsRoot: Option<bool>)

  // The outcomes an operation meets: proxy assignment, proxy capacity, the API
  // server, and the readiness wait.
  datatype Faults = Faults(assign: bool, scaler: bool, api: ApiFault, notReady: bool)

  datatype System = System(store: Store, kube: Cluster, idle: seq<Handle>, active: map<string, nat>)

  // ---- Small decisions -----------------------------------------------------

  function IsSpace(c: char): bool {
    c in {'\t', '\n', '\U{b}', '\U{c}', '\r', ' ', '\U{85}', '\U{a0}', '\U{1680}', '\U{2028}', '\U{2029}',
        '\U{202f}', '\U{205f}', '\U{3000}'}
    || '\U{2000}' <= c <= '\U{200a}'
  }

  function TrimSpace(s: string): string {
    if s != "" && IsSpace(s[0]) then TrimSpace(s[1..])
    else if s != "" && IsSpace(s[|s| - 1]) then TrimSpace(s[..|s| - 1])
    else s
  }

  function ResolveImage(c: Config, image: string): string {
    if TrimSpace(image) in {"", "default", "sandbox-default"} then c.defaultImage else image
  }

  function ResolveBool(o: Option<bool>, def: bool): bool { if o.Some? then o.value else def }

  function IdsIn(store: Store, st: State): set<string> { set id | id in store && store[id].state == st }

  function TargetIdle(c: Config): int {
    if c.maxRunning > 0 && c.minIdleReady > c.maxRunning then c.maxRunning else c.minIdleReady
  }

  // ---- Create --------------------------------------------------------------

  function SessionId(c: Config, o: CreateOptions, newId: string): string {
    if o.ref != "" then Canonical(c.sum, o.ref) else newId
  }

  predicate PoolEligible(c: Config, o: CreateOptions) {
    && ResolveImage(c, o.image) == c.defaultImage
    && ResolveBool(o.writableRoot, c.writableRoot) == c.writableRoot
    && ResolveBool(o.runAsRoot, c.runAsRoot) == c.runAsRoot
  }

  // A sandbox from the front of the idle pool, or a cold one.
  function Provision(c: Config, s: System, o: CreateOptions, id: string, now: int, f: Faults): (System,
          Option<Handle>, bool) {
    if c.pool && PoolEligible(c, o) && s.idle != [] then (s.(idle := s.idle[1..]), Some(s.idle[0]), true)
    else
      var (k, h) := CreateSandbox(s.kube, id, false, c.proxy && c.caCert, now, f.api);
      (s.(kube := k), h, false)
  }

  // Persist the record, wait for readiness, and mark it running or dead.
  function Settle(s: System, r: Record, notReady: bool): (System, Option<Record>) {
    var purged := PurgeSandbox(s.kube, r.podName, r.pvcName);
    if r.id == "" || r.id in s.store then (s.(kube := purged), None)
    else if notReady then (s.(kube := purged, store := s.store[r.id := r.(state := Dead)]), None)
    else (s.(store := s.store[r.id := r.(state := Running)]), Some(r.(state := Running)))
  }

  function NewRecord(c: Config, o: CreateOptions, id: string, h: Handle, fromPool: bool, now: int): Record {
    Record(id, o.ref, Creating, ResolveImage(c, o.image), h.podName, h.pvcName, fromPool, now, now, 0)
  }

  function Create(c: Config, s: System, o: CreateOptions, newId: string, now: int, f: Faults): (System,
          Option<Record>) {
    if |IdsIn(s.store, Running)| + |IdsIn(s.store, Creating)| >= c.maxRunning then (s, None)
    else if c.proxy && (f.assign || f.scaler) then (s, None)
    else
      var id := SessionId(c, o, newId);
      var (s1, h, fromPool) := Provision(c, s, o, id, now, f);
      if h.None? then (s1, None)
      else Settle(s1, NewRecord(c, o, id, h.value, fromPool, now), f.notReady)
  }

  // ---- Get-or-create, clear ------------------------------------------------

  function PurgeAndForget(s: System, id: string): System
    requires id in s.store
  {
    var r := s.store[id];
    s.(kube := PurgeSandbox(s.kube, r.podName, r.pvcName), store := s.store - {id})
  }

  function Ensure(c: Config, s: System, o: CreateOptions, recreate: bool, now: int, f: Faults): (System,
          Option<Record>) {
    if o.ref == "" then (s, None)
    else
      var id := Canonical(c.sum, o.ref);
      if id !in s.store then Create(c, s, o, "", now, f)
      else
        var r := s.store[id];
        if recreate && o.image != "" && r.image != ResolveImage(c, o.image) then
          Create(c, PurgeAndForget(s, id), o, "", now, f)
        else if r.state == Running then (s, Some(r))
        else if r.state == Stopped then Resume(c, s, id, now, f)
        else Create(c, PurgeAndForget(s, id), o, "", now, f)
  }

  function Clear(c: Config, s: System, ref: string): (System, bool) {
    if ref == "" || Canonical(c.sum, ref) !in s.store then (s, false)
    else (PurgeAndForget(s, Canonical(c.sum, ref)), true)
  }

  // ---- Stop, resume, delete ------------------------------------------------

  function Stop(s: System, id: string, now: int): (System, bool) {
    if id !in s.store then (s, false)
    else
      var r := s.store[id];
      if r.state == Stopped || r.state == Dead then (s, true)
      else (s.(kube := StopSandbox(s.kube, r.podName),
          store := s.store[id := r.(state := Stopped, stoppedAt := now)]), true)
  }

  function Resume(c: Config, s: System, id: string, now: int, f: Faults): (System, Option<Record>) {
    if id !in s.store then (s, None)
    else
      var r := s.store[id];
      if r.state == Running then (s, Some(r))
      else if r.state != Stopped || (c.proxy && f.assign) then (s, None)
      else
        var (k, h) := ResumeSandbox(s.kube, id, r.pvcName, c.proxy && c.caCert, now, f.api);
        if h.None? then (s.(kube := k), None)
        else if f.notReady then
          (s.(kube := StopSandbox(k, h.value.podName), store := s.store[id := r.(podName := "", state := Stopped)]),
              None)
        else
          var r1 := r.(podName := h.value.podName, state := Running, lastActivityAt := now);
          (s.(kube := k, store := s.store[id := r1]), Some(r1))
  }

  function Delete(s: System, id: string): (System, bool) {
    if id !in s.store then (s, false)
    else
      var r := s.store[id];
      (s.(kube := PurgeSandbox(s.kube, r.podName, r.pvcName), store := s.store[id := r.(state := Dead)]), true)
  }

  // ---- Activity ------------------------------------------------------------

  function Touch(s: System, id: string, now: int): System {
    if id in s.store then s.(store := s.store[id := s.store[id].(lastActivityAt := now)]) else s
  }

  function ActiveCalls(active: map<string, nat>, id: string): nat { if id in active then active[id] else 0 }

  function BeginActivity(s: System, id: string, now: int): System {
    Touch(s.(active := s.active[id := ActiveCalls(s.active, id) + 1]), id, now)
  }

  function EndActivity(s: System, id: string, now: int): System {
    var n := ActiveCalls(s.active, id);
    Touch(s.(active := if n <= 1 then s.active - {id} else s.active[id := n - 1]), id, now)
  }

  // ---- Orphan sweep --------------------------------------------------------

  predicate OlderThan(createdAt: int, limit: int, now: int) { !(limit > 0 && now - createdAt <= limit) }

  function OrphanPods(c: Config, s: System, now: int): set<string> {
    set p | p in s.kube.pods && !s.kube.pods[p].pool && s.kube.pods[p].session !in s.store
            && OlderThan(s.kube.pods[p].createdAt, c.maxLifetime, now)
  }

  // Purging a set of pods, each with the PVC recomputed from its session label.
  function PurgePods(k: Cluster, orphans: set<string>): Cluster
    requires orphans <= k.pods.Keys
  {
    Cluster(
      k.pods - orphans,
      k.pvcs - (set p | p in orphans :: PvcName(k.pods[p].session)),
      k.secrets - (set p | p in orphans && SessionIdFromPodName(p) != "" :: CaSecretName(SessionIdFromPodName(p))))
  }

  // `listed` are the session labels of the pods listed before any was purged.
  function OrphanPvcs(c: Config, store: Store, pvcs: map<string, Pvc>, listed: set<string>, now: int): set<string> {
    set v | v in pvcs && !pvcs[v].pool && pvcs[v].session !in store && pvcs[v].session !in listed
            && OlderThan(pvcs[v].createdAt, c.stoppedTTL, now)
  }

  // Purging a set of PVCs, each with the pod name recomputed from its label.
  function PurgePvcs(k: Cluster, orphans: set<string>): Cluster
    requires orphans <= k.pvcs.Keys
  {
    Cluster(
      k.pods - (set v | v in orphans :: PodName(k.pvcs[v].session)),
      k.pvcs - orphans,
      k.secrets - (set v | v in orphans && k.pvcs[v].session != "" :: CaSecretName(k.pvcs[v].session)))
  }

  function PodSessions(k: Cluster): set<string> { set p | p in k.pods :: k.pods[p].session }

  function Sweep(c: Config, s: System, now: int): System {
    var k1 := PurgePods(s.kube, OrphanPods(c, s, now));
    s.(kube := PurgePvcs(k1, OrphanPvcs(c, s.store, k1.pvcs, PodSessions(s.kube), now)))
  }

  // ---- Reaper --------------------------------------------------------------

  predicate RunningExpired(c: Config, active: map<string, nat>, r: Record, now: int) {
    && r.state == Running
    && ((c.maxLifetime > 0 && now - r.createdAt > c.maxLifetime)
        || (now - r.lastActivityAt > c.runningTTL && ActiveCalls(active, r.id) == 0))
  }

  predicate StoppedExpired(c: Config, r: Record, now: int) { r.state == Stopped && now - r.stoppedAt > c.stoppedTTL }

  // A snapshot of the records in one state, in any order.
  predicate Lists(store: Store, st: State, rs: seq<Record>) {
    && (forall i | 0 <= i < |rs| :: rs[i].id in store && store[rs[i].id] == rs[i] && rs[i].state == st)
    && (forall i, j | 0 <= i < j < |rs| :: rs[i].id != rs[j].id)
    && (forall id | id in store && store[id].state == st :: store[id] in rs)
  }

  function ReapRunning(c: Config, s: System, rs: seq<Record>, now: int): System
    decreases |rs|
  {
    if rs == [] then s
    else
      var last := |rs| - 1;
      var s1 := ReapRunning(c, s, rs[..last], now);
      if RunningExpired(c, s.active, rs[last], now) then Stop(s1, rs[last].id, now).0 else s1
  }

  function ReapStopped(c: Config, s: System, rs: seq<Record>, now: int): System
    decreases |rs|
  {
    if rs == [] then s
    else
      var last := |rs| - 1;
      var s1 := ReapStopped(c, s, rs[..last], now);
      if StoppedExpired(c, rs[last], now) then Delete(s1, rs[last].id).0 else s1
  }

  // One pass: sweep, stop the expired running sessions listed after it, delete
  // the expired stopped sessions listed after that.
  function Reap(c: Config, s: System, running: seq<Record>, stopped: seq<Record>, now: int): System {
    ReapStopped(c, ReapRunning(c, Sweep(c, s, now), running, now), stopped, now)
  }

  // ---- Warm pool -----------------------------------------------------------

  // One reserved slot: create a generic sandbox, wait for it, keep it idle.
  function Warm(c: Config, s: System, id: string, now: int, f: Faults): (System, bool) {
    if TargetIdle(c) <= 0 || |s.idle| >= TargetIdle(c) then (s, false)
    else
      var (k, h) := CreateSandbox(s.kube, id, true, c.poolCaCert, now, f.api);
      if h.None? then (s.(kube := k), false)
      else if f.notReady then (s.(kube := PurgeSandbox(k, h.value.podName, h.value.pvcName)), false)
      else (s.(kube := k, idle := s.idle + [h.value]), true)
  }

  // ---- Restart -------------------------------------------------------------

  // The store, the idle list and the call counters live in memory only.
  function Restart(s: System): System { System(map[], s.kube, [], map[]) }
}
