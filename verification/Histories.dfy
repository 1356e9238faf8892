// What a session's record says about its history, in every run; and the pool's
// replenishing as such a run.
module Histories {
  import opened Identifiers
  import opened Platform
  import opened Lifecycle
  import opened Agreement
  import opened Runs
  import opened WarmPool

  // A record is marked as pooled exactly when its workspace came from the pool, and
  // then it has the default image; its times lie in order and not in the future.
  ghost predicate Telling(c: Config, r: Record, now: int) {
    && (r.fromPool <==> Home(r) != r.id) && (r.fromPool ==> r.image == c.defaultImage)
    && r.createdAt <= r.lastActivityAt <= now
    && (r.state == Stopped ==> r.createdAt <= r.stoppedAt <= now)
  }

  ghost predicate AllTelling(c: Config, s: System, now: int) {
    forall id | id in s.store :: s.store[id].id == id && Telling(c, s.store[id], now)
  }

  // The record a create writes, when it writes one.
  ghost predicate Written(c: Config, s: System, r: Record, id: string, now: int) {
    && r.id == id && r.createdAt == r.lastActivityAt == now && r.state in {Running, Dead}
    && (if r.fromPool then s.idle != [] && r.image == c.defaultImage && r.pvcName == s.idle[0].pvcName
        else r.pvcName == PvcName(id))
  }

  lemma CreateWrites(c: Config, s: System, o: CreateOptions, newId: string, now: int, f: Faults)
    ensures var id := SessionId(c, o, newId); var store := Create(c, s, o, newId, now, f).0.store;
      store == s.store || (id in store && Written(c, s, store[id], id, now) && store == s.store[id := store[id]])
  {
    hide PodName, PvcName, ResolveImage, TrimSpace, Canonical, PurgeSandbox, CreateSandbox;
    CreateSandboxEffect(s.kube, SessionId(c, o, newId), false, c.proxy && c.caCert, now, f.api);
  }

  lemma CreateTells(c: Config, s: System, o: CreateOptions, newId: string, now: int, f: Faults, issued: set<string>)
    requires Inv(s, issued) && AllTelling(c, s, now) && IsSessionLabel(SessionId(c, o, newId))
    ensures AllTelling(c, Create(c, s, o, newId, now, f).0, now)
  {
    hide PodName, PvcName, PvcLabel, SessionIdFromPodName, CaSecretName, IsSessionLabel, Create, Inv;
    CreateWrites(c, s, o, newId, now, f);
    var id := SessionId(c, o, newId);
    assert PvcLabel(PvcName(id)) == id;
    if s.idle != [] {
      AcquireKeepsInv(s, issued);
      var home := SessionIdFromPodName(s.idle[0].podName);
      assert PvcLabel(s.idle[0].pvcName) == home;
      DrawnIsNoSession(s, home, issued);
    }
  }

  lemma EnsureTells(c: Config, s: System, o: CreateOptions, recreate: bool, now: int, f: Faults, issued: set<string>)
    requires Inv(s, issued) && AllTelling(c, s, now)
    ensures AllTelling(c, Ensure(c, s, o, recreate, now, f).0, now)
  {
    hide Create, Canonical, ResolveImage, Inv, PurgeSandbox;
    if o.ref != "" {
      var id := Canonical(c.sum, o.ref);
      CanonicalNamespace(c.sum, o.ref);
      if id !in s.store {
        CreateTells(c, s, o, "", now, f, issued);
      } else {
        ForgetKeepsInv(s, id, issued);
        CreateTells(c, PurgeAndForget(s, id), o, "", now, f, issued);
      }
    }
  }

  lemma {:induction false} ReapTells(c: Config, s: System, running: seq<Record>, stopped: seq<Record>, now: int)
    requires AllTelling(c, s, now)
    ensures AllTelling(c, ReapStopped(c, ReapRunning(c, s, running, now), stopped, now), now)
    decreases |running| + |stopped|
  {
    hide StopSandbox, PurgeSandbox;
    if stopped != [] {
      ReapTells(c, s, running, stopped[..|stopped| - 1], now);
    } else if running != [] {
      ReapTells(c, s, running[..|running| - 1], [], now);
    }
  }

  ghost predicate Stamped(r: Record, r': Record, now: int) {
    && r' == r.(podName := r'.podName, state := r'.state,
          lastActivityAt := r'.lastActivityAt, stoppedAt := r'.stoppedAt)
    && r'.lastActivityAt in {r.lastActivityAt, now}
    && (r'.state == Stopped ==> r'.stoppedAt == now || (r.state == Stopped && r'.stoppedAt == r.stoppedAt))
  }

  // At most one record changes, and that by being stamped with the present.
  ghost predicate OnlyStamps(s: System, s': System, id: string, now: int) {
    && SameElsewhere(s.store, s'.store, id)
    && (id in s'.store ==> id in s.store && Stamped(s.store[id], s'.store[id], now))
  }

  lemma StampTells(c: Config, s: System, s': System, id: string, now: int)
    requires AllTelling(c, s, now) && OnlyStamps(s, s', id, now)
    ensures AllTelling(c, s', now)
  {
    hide PvcLabel;
  }

  // The session a step is about.
  function Subject(c: Config, step: Step): string {
    match step
    case ClearStep(ref) => Canonical(c.sum, ref)
    case StopStep(id) => id
    case ResumeStep(id, _) => id
    case DeleteStep(id) => id
    case TouchStep(id) => id
    case BeginStep(id) => id
    case EndStep(id) => id
    case _ => ""
  }

  lemma SmallStepStamps(c: Config, w: World, step: Step)
    requires !step.CreateStep? && !step.EnsureStep? && !step.ReapStep? && !Restarts(step)
    ensures OnlyStamps(w.sys, Next(c, w, step), Subject(c, step), w.now)
  {
    hide PodName, PvcName, PvcLabel, PurgePods, PurgePvcs, OrphanPods, OrphanPvcs, StopSandbox, ResumeSandbox;
    hide PurgeSandbox, CreateSandbox, Canonical, OperationCalls, Create, Ensure, Reap, IsPoolLabel, IsSessionLabel;
    hide Resume;
    if step.ResumeStep? { ResumeStamps(c, w.sys, step.id, w.now, step.faults); }
  }

  lemma ResumeStamps(c: Config, s: System, id: string, now: int, f: Faults)
    ensures OnlyStamps(s, Resume(c, s, id, now, f).0, id, now)
  {
    hide PodName, PvcName, StopSandbox, ResumeSandbox;
  }

  lemma StepTells(c: Config, w: World, step: Step)
    requires Good(w) && Allowed(c, w, step) && AllTelling(c, w.sys, w.now)
    ensures AllTelling(c, Next(c, w, step), Apply(c, w, step).now)
  {
    hide Create, Ensure, Inv, Lists, ReapRunning, ReapStopped, Sweep, Stop, Resume, Delete, Warm, Clear, Touch;
    hide Telling, OnlyStamps, Canonical, IsSessionLabel, IsRandomId, IsWarmId, OperationCalls;
    match step
    case CreateStep(o, newId, f) =>
      RandomNamespace(newId);
      CreateTells(c, w.sys, o, newId, w.now, f, w.issued);
    case EnsureStep(o, recreate, f) => EnsureTells(c, w.sys, o, recreate, w.now, f, w.issued);
    case ReapStep(running, stopped) =>
      SweepTells(c, w.sys, w.now);
      ReapTells(c, Sweep(c, w.sys, w.now), running, stopped, w.now);
    case RestartStep =>
    case CrashStep(_, _, _) =>
    case TickStep(later) => LaterTells(c, w.sys, w.now, later);
    case _ =>
      SmallStepStamps(c, w, step);
      StampTells(c, w.sys, Next(c, w, step), Subject(c, step), w.now);
  }

  lemma SweepTells(c: Config, s: System, now: int)
    requires AllTelling(c, s, now)
    ensures AllTelling(c, Sweep(c, s, now), now)
  {
  }

  lemma LaterTells(c: Config, s: System, now: int, later: int)
    requires AllTelling(c, s, now) && now <= later
    ensures AllTelling(c, s, later)
  {
  }

  lemma {:induction false} RunTells(c: Config, w: World, steps: seq<Step>)
    requires Good(w) && AllowedRun(c, w, steps) && AllTelling(c, w.sys, w.now)
    ensures AllTelling(c, Run(c, w, steps).sys, Run(c, w, steps).now)
    decreases |steps|
  {
    hide AllTelling, Inv, Next, Allowed;
    if steps != [] {
      StepTells(c, w, steps[0]);
      StepKeepsGood(c, w, steps[0]);
      RunTells(c, Apply(c, w, steps[0]), steps[1..]);
    }
  }

  // In every run.
  lemma RecordsTellTheirHistory(c: Config, now: int, steps: seq<Step>)
    requires AllowedRun(c, Initial(now), steps)
    ensures AllTelling(c, Run(c, Initial(now), steps).sys, Run(c, Initial(now), steps).now)
  {
    RunTells(c, Initial(now), steps);
  }

  // ---- Replenishing ------------------------------------------------------------------

  // How many sandboxes a replenishment has to make.
  function Missing(c: Config, s: System): nat { if |s.idle| < TargetIdle(c) then TargetIdle(c) - |s.idle| else 0 }

  // The ids of the next `n` attempts are of the right shape and drawn once.
  ghost predicate FreshDraws(draw: nat -> Attempt, k: nat, n: nat, issued: set<string>) {
    && (forall i: nat | k <= i < k + n :: IsWarmId(draw(i).warmId) && draw(i).warmId !in issued)
    && (forall i: nat, j: nat | k <= i < j < k + n :: draw(i).warmId != draw(j).warmId)
  }

  // A replenishment is a run of warm creates, at most one for each sandbox missing, so
  // every statement about runs covers it.
  lemma ReplenishIsARun(c: Config, w: World, draw: nat -> Attempt, k: nat) returns (steps: seq<Step>)
    requires FreshDraws(draw, k, Missing(c, w.sys), w.issued)
    ensures AllowedRun(c, w, steps) && |steps| <= Missing(c, w.sys) && forall step | step in steps :: step.WarmStep?
    ensures Run(c, w, steps).sys == WarmAll(c, w.sys, draw, k, w.now)
    decreases Missing(c, w.sys)
  {
    hide IsWarmId, CreateSandbox, PurgeSandbox;
    if Missing(c, w.sys) == 0 { return []; }
    var step := WarmStep(draw(k).warmId, draw(k).faults);
    var w' := Apply(c, w, step);
    var rest := [];
    if Warm(c, w.sys, draw(k).warmId, w.now, draw(k).faults).1 {
      rest := ReplenishIsARun(c, w', draw, k + 1);
    }
    steps := [step] + rest;
    assert steps[0] == step && steps[1..] == rest;
  }
}
