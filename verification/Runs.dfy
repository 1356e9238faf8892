// Whole operations in any order, with any failures, on a clock that never goes
// back: every statement here is about all runs.
module Runs {
  import opened Identifiers
  import opened Platform
  import opened Lifecycle
  import opened Agreement
  import opened Sweeping
  import opened PlatformCalls
  import opened Crashes

  // `issued` are the warm-pool ids generated so far: a UUID is never drawn twice.
  datatype World = World(sys: System, issued: set<string>, now: int)

  datatype Step =
    | CreateStep(options: CreateOptions, newId: string, faults: Faults)
    | EnsureStep(options: CreateOptions, recreate: bool, faults: Faults)
    | ClearStep(ref: string)
    | StopStep(id: string)
    | ResumeStep(id: string, faults: Faults)
    | DeleteStep(id: string)
    | TouchStep(id: string)
    | BeginStep(id: string)
    | EndStep(id: string)
    | WarmStep(warmId: string, faults: Faults)
    | SweepStep
    | ReapStep(running: seq<Record>, stopped: seq<Record>)
    | RestartStep
    | TickStep(later: int)
    // The orchestrator dies after so many platform calls of an operation, and comes
    // back with its memory empty.
    | CrashStep(during: Step, order: Listing, calls: nat)

  // A REST create carries no reference and draws an unused random id; a warm
  // sandbox draws an unused UUID; the reaper sees true snapshots.
  ghost predicate Allowed(c: Config, w: World, step: Step) {
    match step
    case CreateStep(o, newId, _) => o.ref == "" && IsRandomId(newId) && newId !in w.sys.store
    case WarmStep(id, _) => IsWarmId(id) && id !in w.issued
    case ReapStep(running, stopped) =>
      && Lists(w.sys.store, Running, running)
      && Lists(ReapRunning(c, Sweep(c, w.sys, w.now), running, w.now).store, Stopped, stopped)
    case TickStep(later) => later >= w.now
    case CrashStep(during, order, _) =>
      !during.CrashStep? && Allowed(c, w, during) && (Sweeps(during) ==> ListsOrphans(c, w.sys, w.now, order))
    case _ => true
  }

  predicate Sweeps(step: Step) { step.SweepStep? || step.ReapStep? }

  // The platform calls of an operation, in order; `order` is that of a sweep's listings.
  function OperationCalls(c: Config, w: World, step: Step, order: Listing): seq<Call> {
    match step
    case CreateStep(o, newId, f) => CreateOp(c, w.sys, o, newId, w.now, f)
    case EnsureStep(o, recreate, f) => EnsureOp(c, w.sys, o, recreate, w.now, f)
    case ClearStep(ref) => if ref == "" then [] else PurgeOp(w.sys, Canonical(c.sum, ref))
    case StopStep(id) => StopOp(w.sys, id)
    case ResumeStep(id, f) => ResumeOp(c, w.sys, id, w.now, f)
    case DeleteStep(id) => PurgeOp(w.sys, id)
    case WarmStep(id, f) => WarmOp(c, w.sys, id, w.now, f)
    case SweepStep => SweepOp(c, w.sys, w.now, order)
    case ReapStep(running, stopped) => ReapOp(c, w.sys, running, stopped, w.now, order)
    case _ => []
  }

  function Cut(calls: seq<Call>, n: nat): seq<Call> { if n < |calls| then calls[..n] else calls }

  function Next(c: Config, w: World, step: Step): System {
    match step
    case CreateStep(o, newId, f) => Create(c, w.sys, o, newId, w.now, f).0
    case EnsureStep(o, recreate, f) => Ensure(c, w.sys, o, recreate, w.now, f).0
    case ClearStep(ref) => Clear(c, w.sys, ref).0
    case StopStep(id) => Stop(w.sys, id, w.now).0
    case ResumeStep(id, f) => Resume(c, w.sys, id, w.now, f).0
    case DeleteStep(id) => Delete(w.sys, id).0
    case TouchStep(id) => Touch(w.sys, id, w.now)
    case BeginStep(id) => BeginActivity(w.sys, id, w.now)
    case EndStep(id) => EndActivity(w.sys, id, w.now)
    case WarmStep(id, f) => Warm(c, w.sys, id, w.now, f).0
    case SweepStep => Sweep(c, w.sys, w.now)
    case ReapStep(running, stopped) => Reap(c, w.sys, running, stopped, w.now)
    case RestartStep => Restart(w.sys)
    case TickStep(_) => w.sys
    case CrashStep(during, order, n) => Emptied(PerformAll(w.sys.kube, Cut(OperationCalls(c, w, during, order), n)))
  }

  // The warm-pool ids a step draws.
  function Drawn(step: Step): set<string> {
    match step
    case WarmStep(id, _) => {id}
    case CrashStep(during, _, _) => Drawn(during)
    case _ => {}
  }

  // Steps after which the orchestrator's memory is empty.
  predicate Restarts(step: Step) { step.RestartStep? || step.CrashStep? }

  function Apply(c: Config, w: World, step: Step): World {
    World(Next(c, w, step), w.issued + Drawn(step), if step.TickStep? then step.later else w.now)
  }

  function Run(c: Config, w: World, steps: seq<Step>): World
    decreases |steps|
  {
    if steps == [] then w else Run(c, Apply(c, w, steps[0]), steps[1..])
  }

  ghost predicate AllowedRun(c: Config, w: World, steps: seq<Step>)
    decreases |steps|
  {
    steps == [] || (Allowed(c, w, steps[0]) && AllowedRun(c, Apply(c, w, steps[0]), steps[1..]))
  }

  lemma RunFirst(c: Config, w: World, steps: seq<Step>)
    requires steps != []
    ensures Run(c, w, steps) == Run(c, Apply(c, w, steps[0]), steps[1..])
    ensures AllowedRun(c, w, steps) <==> Allowed(c, w, steps[0]) && AllowedRun(c, Apply(c, w, steps[0]), steps[1..])
  {
  }

  lemma RunNone(c: Config, w: World)
    ensures Run(c, w, []) == w && AllowedRun(c, w, [])
  {
  }

  function Initial(now: int): World { World(System(map[], Cluster(map[], map[], {}), [], map[]), {}, now) }

  ghost predicate Good(w: World) { Inv(w.sys, w.issued) }

  // ---- Every step keeps the invariant ----------------------------------------

  lemma {:induction false} ReapRunningKeepsInv(c: Config, s: System, rs: seq<Record>, now: int, issued: set<string>)
    requires Inv(s, issued)
    ensures Inv(ReapRunning(c, s, rs, now), issued)
  {
    if rs != [] {
      ReapRunningKeepsInv(c, s, rs[..|rs| - 1], now, issued);
      StopKeepsInv(ReapRunning(c, s, rs[..|rs| - 1], now), rs[|rs| - 1].id, now, issued);
    }
  }

  lemma {:induction false} ReapStoppedKeepsInv(c: Config, s: System, rs: seq<Record>, now: int, issued: set<string>)
    requires Inv(s, issued)
    ensures Inv(ReapStopped(c, s, rs, now), issued)
  {
    if rs != [] {
      ReapStoppedKeepsInv(c, s, rs[..|rs| - 1], now, issued);
      DeleteKeepsInv(ReapStopped(c, s, rs[..|rs| - 1], now), rs[|rs| - 1].id, issued);
    }
  }

  // The calls listed for an operation do what the operation does, and wherever they
  // are cut off the platform is in order.
  lemma OperationIsItsCalls(c: Config, w: World, step: Step, order: Listing)
    requires Good(w) && Allowed(c, w, step) && !step.CrashStep?
    requires Sweeps(step) ==> ListsOrphans(c, w.sys, w.now, order)
    ensures Covers(w.sys, OperationCalls(c, w, step, order), Next(c, w, step), w.issued + Drawn(step))
  {
    hide CreateOp, Create, EnsureOp, Ensure, PurgeOp, StopOp, Stop, ResumeOp, Resume, WarmOp, Warm, SweepOp, Sweep;
    hide ReapOp, Reap;
    hide Canonical, PurgeSandbox, Inv, ListsOrphans, Lists, Perform, Safe, IsRandomId, IsWarmId, IsSessionLabel;
    hide IsPoolLabel;
    var s := w.sys;
    assert w.issued + {} == w.issued;
    match step
    case CreateStep(o, newId, f) =>
      RandomNamespace(newId);
      SessionIsNotPool(newId);
      CreateCovered(c, s, o, newId, w.now, f, w.issued);
    case EnsureStep(o, recreate, f) => EnsureCovered(c, s, o, recreate, w.now, f, w.issued);
    case ClearStep(ref) => PurgeCovered(s, Canonical(c.sum, ref), w.issued);
    case StopStep(id) => StopCovered(s, id, w.now, w.issued);
    case ResumeStep(id, f) => ResumeCovered(c, s, id, w.now, f, w.issued);
    case DeleteStep(id) => PurgeCovered(s, id, w.issued);
    case WarmStep(id, f) =>
      WarmNamespace(id);
      PoolIsNotSession(id);
      WarmCovered(c, s, id, w.now, f, w.issued);
    case SweepStep =>
      InvIsOrdered(s, w.issued);
      SweepCovered(c, s, w.now, order, w.issued);
    case ReapStep(running, stopped) => ReapCovered(c, s, running, stopped, w.now, order, w.issued);
    case _ =>
  }

  lemma CrashKeepsGood(c: Config, w: World, during: Step, order: Listing, n: nat)
    requires Good(w) && Allowed(c, w, CrashStep(during, order, n))
    ensures Good(Apply(c, w, CrashStep(during, order, n)))
  {
    hide OperationCalls, ClusterOk, Perform, Safe, ListsOrphans, Lists, IsRandomId, IsPoolLabel, Next;
    var calls := OperationCalls(c, w, during, order);
    var issued := w.issued + Drawn(during);
    OperationIsItsCalls(c, w, during, order);
    DrawnIsPool(c, w, during);
    MoreIssued(w.sys, Drawn(during), w.issued);
    PrefixKeepsCluster(w.sys.kube, calls, |Cut(calls, n)|, issued);
    assert Cut(calls, n) == calls[..|Cut(calls, n)|];
    CrashLeaves(c, w, during, order, n);
  }

  lemma CrashLeaves(c: Config, w: World, during: Step, order: Listing, n: nat)
    ensures Next(c, w, CrashStep(during, order, n))
        == Emptied(PerformAll(w.sys.kube, Cut(OperationCalls(c, w, during, order), n)))
  {
    hide OperationCalls, PerformAll, Create, Ensure, Clear, Stop, Resume, Delete, Touch, BeginActivity, EndActivity;
    hide Warm, Sweep, Reap, Restart, Cut, Emptied;
  }

  lemma DrawnIsPool(c: Config, w: World, step: Step)
    requires Allowed(c, w, step) && !step.CrashStep?
    ensures forall id | id in Drawn(step) :: IsPoolLabel(id)
  {
    if step.WarmStep? { WarmNamespace(step.warmId); }
  }

  lemma MoreIssued(s: System, more: set<string>, issued: set<string>)
    requires Inv(s, issued) && forall id | id in more :: IsPoolLabel(id)
    ensures ClusterOk(s.kube, issued + more)
  {
    forall p | p in s.kube.pods ensures PodOk(s.kube, p, issued + more) { assert PodOk(s.kube, p, issued); }
    forall v | v in s.kube.pvcs ensures PvcOk(s.kube, v, issued + more) { assert PvcOk(s.kube, v, issued); }
  }

  lemma StepKeepsGood(c: Config, w: World, step: Step)
    requires Good(w) && Allowed(c, w, step)
    ensures Good(Apply(c, w, step))
  {
    hide Create, Ensure, Clear, Stop, Resume, Delete, Touch, Warm, Sweep, Inv, Restart, OperationCalls, PerformAll;
    var s := w.sys;
    assert w.issued + {} == w.issued;
    match step
    case CreateStep(o, newId, f) =>
      RandomNamespace(newId);
      CreateKeepsInv(c, s, o, newId, w.now, f, w.issued);
    case EnsureStep(o, recreate, f) => EnsureKeepsInv(c, s, o, recreate, w.now, f, w.issued);
    case ClearStep(ref) => ClearKeepsInv(c, s, ref, w.issued);
    case StopStep(id) => StopKeepsInv(s, id, w.now, w.issued);
    case ResumeStep(id, f) => ResumeAnyKeepsInv(c, s, id, w.now, f, w.issued);
    case DeleteStep(id) => DeleteKeepsInv(s, id, w.issued);
    case TouchStep(id) => TouchKeepsInv(s, id, w.now, w.issued);
    case BeginStep(id) =>
      var active := s.active[id := ActiveCalls(s.active, id) + 1];
      ActiveIsFree(s, active, w.issued);
      TouchKeepsInv(s.(active := active), id, w.now, w.issued);
    case EndStep(id) =>
      var n := ActiveCalls(s.active, id);
      var active := if n <= 1 then s.active - {id} else s.active[id := n - 1];
      ActiveIsFree(s, active, w.issued);
      TouchKeepsInv(s.(active := active), id, w.now, w.issued);
    case WarmStep(id, f) =>
      WarmNamespace(id);
      WarmKeepsInv(c, s, id, w.now, f, w.issued);
    case SweepStep => SweepKeepsInv(c, s, w.now, w.issued);
    case ReapStep(running, stopped) =>
      SweepKeepsInv(c, s, w.now, w.issued);
      ReapRunningKeepsInv(c, Sweep(c, s, w.now), running, w.now, w.issued);
      ReapStoppedKeepsInv(c, ReapRunning(c, Sweep(c, s, w.now), running, w.now), stopped, w.now, w.issued);
    case RestartStep => RestartKeepsInv(s, w.issued);
    case TickStep(_) =>
    case CrashStep(during, order, n) => CrashKeepsGood(c, w, during, order, n);
  }

  lemma ResumeAnyKeepsInv(c: Config, s: System, id: string, now: int, f: Faults, issued: set<string>)
    requires Inv(s, issued)
    ensures Inv(Resume(c, s, id, now, f).0, issued)
  {
    if id in s.store {
      assert RecordOk(s.store[id], id, issued);
      ResumeKeepsInv(c, s, id, now, f, issued);
    }
  }

  lemma {:induction false} RunKeepsGood(c: Config, w: World, steps: seq<Step>)
    requires Good(w) && AllowedRun(c, w, steps)
    ensures Good(Run(c, w, steps))
    decreases |steps|
  {
    if steps != [] {
      StepKeepsGood(c, w, steps[0]);
      RunKeepsGood(c, Apply(c, w, steps[0]), steps[1..]);
    }
  }

  // ---- Store and platform agree in every run ---------------------------------

  // The headline: every running session's pod exists and mounts its existing PVC,
  // every stopped session's PVC exists with no pod mounting it, every dead session
  // has neither, no session is left creating, and no two tracked sessions share a
  // pod or a PVC.
  ghost predicate StoreMatchesPlatform(s: System) {
    && (forall id | id in s.store :: s.store[id].id == id && Agrees(s.kube, s.store[id]))
    && (forall a, b | a in s.store && b in s.store && a != b ::
          && s.store[a].pvcName != s.store[b].pvcName
          && (s.store[a].podName != "" ==> s.store[a].podName != s.store[b].podName))
  }

  lemma GoodMatches(w: World)
    requires Good(w)
    ensures StoreMatchesPlatform(w.sys)
  {
    forall id | id in w.sys.store ensures w.sys.store[id].id == id && Agrees(w.sys.kube, w.sys.store[id]) {
      assert RecordOk(w.sys.store[id], id, w.issued);
    }
    forall a, b | a in w.sys.store && b in w.sys.store && a != b
      ensures w.sys.store[a].pvcName != w.sys.store[b].pvcName
      ensures w.sys.store[a].podName != "" ==> w.sys.store[a].podName != w.sys.store[b].podName
    {
      NamesApart(w.sys, a, b, w.issued);
    }
  }

  lemma InitialIsGood(now: int)
    ensures Good(Initial(now))
  {
  }

  lemma AgreementInEveryRun(c: Config, now: int, steps: seq<Step>)
    requires AllowedRun(c, Initial(now), steps)
    ensures StoreMatchesPlatform(Run(c, Initial(now), steps).sys)
  {
    InitialIsGood(now);
    RunKeepsGood(c, Initial(now), steps);
    GoodMatches(Run(c, Initial(now), steps));
  }

  // ---- Sweeping in every run -------------------------------------------------

  // Whatever happened before, the sweep spares tracked sessions and the pool.
  lemma SweepIsSafeInEveryRun(c: Config, now: int, steps: seq<Step>)
    requires AllowedRun(c, Initial(now), steps)
    ensures var w := Run(c, Initial(now), steps);
      && (forall id | Protected(w.sys, id) :: ObjectsKept(w.sys.kube, Sweep(c, w.sys, w.now).kube, id))
      && (forall id | id in w.sys.store :: Agrees(Sweep(c, w.sys, w.now).kube, w.sys.store[id]))
  {
    hide Run, AllowedRun, Sweep;
    InitialIsGood(now);
    RunKeepsGood(c, Initial(now), steps);
    var w := Run(c, Initial(now), steps);
    SweepSafety(c, w.sys, w.now, w.issued);
    SweepKeepsInv(c, w.sys, w.now, w.issued);
    SweepIsExact(c, w.sys, w.now, w.issued);
    assert forall id | id in w.sys.store :: Agrees(Sweep(c, w.sys, w.now).kube, Sweep(c, w.sys, w.now).store[id]);
  }

  // Nor does it take an object nobody tracks before its time.
  lemma SweepGraceInEveryRun(c: Config, now: int, steps: seq<Step>)
    requires Validated(c) && AllowedRun(c, Initial(now), steps)
    ensures var w := Run(c, Initial(now), steps); var k, k' := w.sys.kube, Sweep(c, w.sys, w.now).kube;
      && (forall p | p in k.pods && !k.pods[p].pool && k.pods[p].session !in w.sys.store ::
            p in k'.pods <==> w.now - k.pods[p].createdAt <= c.maxLifetime)
      && (forall v | v in k.pvcs && !k.pvcs[v].pool && k.pvcs[v].session !in w.sys.store
                     && PodName(k.pvcs[v].session) !in k.pods ::
            v in k'.pvcs <==> w.now - k.pvcs[v].createdAt <= c.stoppedTTL)
  {
    hide Run, AllowedRun, Sweep, PodName;
    InitialIsGood(now);
    RunKeepsGood(c, Initial(now), steps);
    var w := Run(c, Initial(now), steps);
    SweepGraceExactly(c, w.sys, w.now, w.issued);
  }

  // After any run, and a restart between two operations or in the middle of one, a
  // sweep past both limits leaves no sandbox pod or PVC but the pool's.
  lemma RestartConverges(c: Config, now: int, steps: seq<Step>, last: Step, later: int)
    requires AllowedRun(c, Initial(now), steps) && Allowed(c, Run(c, Initial(now), steps), last) && Restarts(last)
    requires OldEnough(c, Next(c, Run(c, Initial(now), steps), last).kube, later)
    ensures var s := Next(c, Run(c, Initial(now), steps), last);
      && s == Emptied(s.kube)
      && (forall p | p in Sweep(c, s, later).kube.pods :: Sweep(c, s, later).kube.pods[p].pool)
      && (forall v | v in Sweep(c, s, later).kube.pvcs :: Sweep(c, s, later).kube.pvcs[v].pool)
  {
    hide Run, AllowedRun, Allowed, Sweep, OldEnough, Shielded, ClusterOk;
    InitialIsGood(now);
    RunKeepsGood(c, Initial(now), steps);
    var w := Run(c, Initial(now), steps);
    StepKeepsGood(c, w, last);
    var k := Next(c, w, last).kube;
    OrderedShieldsNothing(k, Apply(c, w, last).issued);
    SweepClearsExactly(c, k, later);
  }
}
