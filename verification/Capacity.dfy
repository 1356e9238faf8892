// How many sessions run and how many sandboxes wait, in every run of whole operations.
module Capacity {
  import opened Identifiers
  import opened Platform
  import opened Lifecycle
  import opened Requests
  import opened Runs
  import opened Tidiness
  import opened Stranding
  import opened GetOrCreate
  import opened WarmPool

  // ---- Running sessions --------------------------------------------------------------

  // A stopped session is about to be resumed; a resume does not look at the cap.
  ghost predicate Revives(c: Config, w: World, step: Step) {
    match step
    case ResumeStep(id, _) => id in w.sys.store && w.sys.store[id].state == Stopped
    case EnsureStep(o, recreate, _) =>
      var id := Canonical(c.sum, o.ref);
      id in w.sys.store && w.sys.store[id].state == Stopped && !MakesNew(c, w.sys, o, recreate, id)
    case _ => false
  }

  // No session runs that did not run before.
  ghost predicate NoneStarts(a: Store, b: Store) { IdsIn(b, Running) <= IdsIn(a, Running) }

  ghost predicate WithinCap(c: Config, store: Store) {
    |IdsIn(store, Running)| <= if c.maxRunning > 0 then c.maxRunning else 0
  }

  lemma FewerAreWithin(c: Config, a: Store, b: Store)
    requires WithinCap(c, a) && NoneStarts(a, b)
    ensures WithinCap(c, b)
  {
    SubsetIsSmaller(IdsIn(b, Running), IdsIn(a, Running));
  }

  lemma CreateKeepsCap(c: Config, s: System, o: CreateOptions, newId: string, now: int, f: Faults)
    requires var id := if o.ref != "" then Canonical(c.sum, o.ref) else newId; id != "" && id !in s.store
    requires WithinCap(c, s.store)
    ensures WithinCap(c, Create(c, s, o, newId, now, f).0.store)
  {
    hide Create, Canonical, CanCreate, ServedByPool, IdsIn, PodName, PvcName, CaSecretName;
    CreateOutcome(c, s, o, newId, now, f);
    var id := if o.ref != "" then Canonical(c.sum, o.ref) else newId;
    var dead := MadeRecord(c, s, o, id, now).(state := Dead);
    DeadDoesNotRun(s.store, id, dead);
  }

  lemma DeadDoesNotRun(store: Store, id: string, r: Record)
    requires id !in store && r.state == Dead
    ensures IdsIn(store[id := r], Running) == IdsIn(store, Running)
  {
  }

  lemma EnsureKeepsCap(c: Config, w: World, o: CreateOptions, recreate: bool, f: Faults)
    requires WithinCap(c, w.sys.store) && !Revives(c, w, EnsureStep(o, recreate, f))
    ensures WithinCap(c, Ensure(c, w.sys, o, recreate, w.now, f).0.store)
  {
    hide Create, Resume, Canonical, ResolveImage, WantedImage, WithinCap, PurgeSandbox;
    if o.ref != "" {
      var id := Canonical(c.sum, o.ref);
      CanonicalNamespace(c.sum, o.ref);
      ImageIsWanted(c, o.image);
      if id in w.sys.store {
        var s1 := PurgeAndForget(w.sys, id);
        FewerAreWithin(c, w.sys.store, s1.store);
        CreateKeepsCap(c, s1, o, "", w.now, f);
      } else {
        CreateKeepsCap(c, w.sys, o, "", w.now, f);
      }
    }
  }

  lemma {:induction false} ReapStartsNone(c: Config, s: System, running: seq<Record>, stopped: seq<Record>, now: int)
    ensures NoneStarts(s.store, ReapStopped(c, ReapRunning(c, s, running, now), stopped, now).store)
    decreases |running| + |stopped|
  {
    hide StopSandbox, PurgeSandbox;
    if stopped != [] {
      ReapStartsNone(c, s, running, stopped[..|stopped| - 1], now);
    } else if running != [] {
      ReapStartsNone(c, s, running[..|running| - 1], [], now);
    }
  }

  lemma OthersStartNone(c: Config, w: World, step: Step)
    requires !step.CreateStep? && !step.EnsureStep? && !step.ReapStep? && !Restarts(step) && !Revives(c, w, step)
    ensures NoneStarts(w.sys.store, Next(c, w, step).store)
  {
    hide PodName, PvcName, PvcLabel, PurgePods, PurgePvcs, OrphanPods, OrphanPvcs, StopSandbox, ResumeSandbox;
    hide PurgeSandbox, CreateSandbox, Canonical, OperationCalls, Create, Ensure, Reap;
  }

  lemma StepKeepsCap(c: Config, w: World, step: Step)
    requires Allowed(c, w, step) && !Revives(c, w, step) && WithinCap(c, w.sys.store)
    ensures WithinCap(c, Next(c, w, step).store)
  {
    hide Create, Ensure, Lists, ReapRunning, ReapStopped, Stop, Resume, Delete, Warm, Clear, Touch, Canonical;
    hide PurgePods, PurgePvcs, OrphanPods, OrphanPvcs, IsRandomId, IsWarmId, OperationCalls, NoneStarts, MakesNew;
    match step
    case CreateStep(o, newId, f) =>
      RandomNamespace(newId);
      CreateKeepsCap(c, w.sys, o, newId, w.now, f);
    case EnsureStep(o, recreate, f) => EnsureKeepsCap(c, w, o, recreate, f);
    case ReapStep(running, stopped) =>
      ReapStartsNone(c, Sweep(c, w.sys, w.now), running, stopped, w.now);
      FewerAreWithin(c, w.sys.store, Next(c, w, step).store);
    case RestartStep =>
    case CrashStep(_, _, _) =>
    case _ =>
      OthersStartNone(c, w, step);
      FewerAreWithin(c, w.sys.store, Next(c, w, step).store);
  }

  ghost predicate NoneRevived(c: Config, w: World, steps: seq<Step>)
    decreases |steps|
  {
    steps == [] || (!Revives(c, w, steps[0]) && NoneRevived(c, Apply(c, w, steps[0]), steps[1..]))
  }

  // As long as no stopped session is resumed, the cap on running sessions holds in every
  // run, whatever fails and however often the orchestrator restarts.
  lemma {:induction false} RunKeepsCap(c: Config, w: World, steps: seq<Step>)
    requires AllowedRun(c, w, steps) && NoneRevived(c, w, steps) && WithinCap(c, w.sys.store)
    ensures WithinCap(c, Run(c, w, steps).sys.store)
    decreases |steps|
  {
    hide WithinCap, Next, Allowed, Revives;
    if steps != [] {
      StepKeepsCap(c, w, steps[0]);
      RunKeepsCap(c, Apply(c, w, steps[0]), steps[1..]);
    }
  }

  lemma CapInEveryRun(c: Config, now: int, steps: seq<Step>)
    requires AllowedRun(c, Initial(now), steps) && NoneRevived(c, Initial(now), steps) && c.maxRunning >= 0
    ensures |IdsIn(Run(c, Initial(now), steps).sys.store, Running)| <= c.maxRunning
  {
    assert IdsIn(Initial(now).sys.store, Running) == {};
    RunKeepsCap(c, Initial(now), steps);
  }

  // With a resume it can be exceeded: two sessions run under a cap of one.
  lemma ResumeExceedsCap(c: Config, now: int, a: string, b: string)
    requires c.maxRunning == 1 && c.proxy && c.caCert && IsRandomId(a) && IsRandomId(b) && a != b
    ensures var steps := [CreateStep(PLAIN, a, NO_FAULTS), StopStep(a), CreateStep(PLAIN, b, NO_FAULTS),
        ResumeStep(a, NO_FAULTS)];
      AllowedRun(c, Initial(now), steps) && |IdsIn(Run(c, Initial(now), steps).sys.store, Running)| == 2
  {
    hide IsRandomId, Create, Stop, Resume, PodName, PvcName, CaSecretName, Run, AllowedRun, OnlySession;
    RandomNamespace(a);
    RandomNamespace(b);
    var w := Initial(now);
    var w1 := Apply(c, w, CreateStep(PLAIN, a, NO_FAULTS));
    FirstCreate(c, now, a);
    OnlyStopped(c, now, a);
    SecondCreate(c, now, a, b);
    NamesDiffer(a, b);
    ThenResume(c, Create(c, OneStopped(c, a, now), PLAIN, b, now, NO_FAULTS).0, now, a, b);
    RunFirst(c, w, [CreateStep(PLAIN, a, NO_FAULTS)]
        + [StopStep(a), CreateStep(PLAIN, b, NO_FAULTS), ResumeStep(a, NO_FAULTS)]);
    ThreeSteps(c, w1, StopStep(a), CreateStep(PLAIN, b, NO_FAULTS), ResumeStep(a, NO_FAULTS));
    assert [CreateStep(PLAIN, a, NO_FAULTS)] + [StopStep(a), CreateStep(PLAIN, b, NO_FAULTS), ResumeStep(a, NO_FAULTS)]
        == [CreateStep(PLAIN, a, NO_FAULTS), StopStep(a), CreateStep(PLAIN, b, NO_FAULTS), ResumeStep(a, NO_FAULTS)];
  }

  // The only session, stopped.
  function OneStopped(c: Config, id: string, now: int): System {
    System(map[id := OnlyRecord(c, id, now).(state := Stopped, stoppedAt := now)],
           Cluster(map[], map[PvcName(id) := Pvc(id, false, now)], {}), [], map[])
  }

  lemma OnlyStopped(c: Config, now: int, id: string)
    requires id != ""
    ensures Stop(OnlySession(c, id, now), id, now).0 == OneStopped(c, id, now)
  {
    hide PodName, PvcName, SessionIdFromPodName, CaSecretName;
  }

  lemma SecondCreate(c: Config, now: int, a: string, b: string)
    requires c.maxRunning == 1 && c.proxy && c.caCert && a != b && b != ""
    ensures var s0 := OneStopped(c, a, now); var s := Create(c, s0, PLAIN, b, now, NO_FAULTS).0;
      && b !in s0.store && s.store == s0.store[b := MadeRecord(c, s0, PLAIN, b, now)]
      && s.kube == Furnished(s0.kube, b, false, true, now)
  {
    hide PodName, PvcName, CaSecretName, Create, WantedImage, FitsPool;
    var s0 := OneStopped(c, a, now);
    NamesDiffer(a, b);
    assert IdsIn(s0.store, Running) == {} && IdsIn(s0.store, Creating) == {};
    CreateOutcome(c, s0, PLAIN, b, now, NO_FAULTS);
  }

  lemma ThenResume(c: Config, s: System, now: int, a: string, b: string)
    requires s.store.Keys == {a, b} && s.store[a].state == Stopped && s.store[b].state == Running && a != b
    requires PodName(a) !in s.kube.pods && CaSecretName(a) !in s.kube.secrets
    ensures IdsIn(Resume(c, s, a, now, NO_FAULTS).0.store, Running) == {a, b}
  {
    hide PodName, PvcName, CaSecretName, Resume;
    ResumeOutcome(c, s, a, now, NO_FAULTS);
  }

  // ---- Waiting sandboxes ---------------------------------------------------------------

  ghost predicate IdleBounded(c: Config, s: System) { |s.idle| <= if c.minIdleReady > 0 then c.minIdleReady else 0 }

  lemma {:induction false} ReapKeepsIdle(c: Config, s: System, running: seq<Record>, stopped: seq<Record>, now: int)
    ensures ReapStopped(c, ReapRunning(c, s, running, now), stopped, now).idle == s.idle
    decreases |running| + |stopped|
  {
    hide StopSandbox, PurgeSandbox;
    if stopped != [] {
      ReapKeepsIdle(c, s, running, stopped[..|stopped| - 1], now);
    } else if running != [] {
      ReapKeepsIdle(c, s, running[..|running| - 1], [], now);
    }
  }

  lemma CreateShrinksIdle(c: Config, s: System, o: CreateOptions, newId: string, now: int, f: Faults)
    ensures |Create(c, s, o, newId, now, f).0.idle| <= |s.idle|
  {
    hide CreateSandbox, PurgeSandbox, IdsIn, ResolveImage, Canonical;
  }

  lemma StepKeepsIdleBounded(c: Config, w: World, step: Step)
    requires IdleBounded(c, w.sys)
    ensures IdleBounded(c, Next(c, w, step))
  {
    hide Create, CreateSandbox, PurgeSandbox, StopSandbox, ResumeSandbox, Canonical, ResolveImage, PurgePods, PurgePvcs;
    hide OrphanPods, OrphanPvcs, ReapRunning, ReapStopped, OperationCalls, PodName, PvcName;
    if step.CreateStep? {
      CreateShrinksIdle(c, w.sys, step.options, step.newId, w.now, step.faults);
    } else if step.EnsureStep? {
      var id := Canonical(c.sum, step.options.ref);
      CreateShrinksIdle(c, w.sys, step.options, "", w.now, step.faults);
      if id in w.sys.store { CreateShrinksIdle(c, PurgeAndForget(w.sys, id), step.options, "", w.now, step.faults); }
    } else if step.ReapStep? {
      ReapKeepsIdle(c, Sweep(c, w.sys, w.now), step.running, step.stopped, w.now);
    }
  }

  // No more sandboxes wait than are wanted.
  lemma {:induction false} IdleInEveryRun(c: Config, w: World, steps: seq<Step>)
    requires IdleBounded(c, w.sys)
    ensures IdleBounded(c, Run(c, w, steps).sys)
    decreases |steps|
  {
    hide IdleBounded, Next;
    if steps != [] {
      StepKeepsIdleBounded(c, w, steps[0]);
      IdleInEveryRun(c, Apply(c, w, steps[0]), steps[1..]);
    }
  }

  // And a replenishment that meets no failure brings them up to that number.
  lemma ReplenishFills(c: Config, s: System, draw: nat -> Attempt, k: nat, now: int)
    requires Validated(c) && |s.idle| <= c.minIdleReady
    requires forall i: nat | k <= i < k + c.minIdleReady - |s.idle| ::
      draw(i).faults == Faults(false, false, NoFault, false) && Fresh(s.kube, draw(i).warmId)
    requires forall i: nat, j: nat | k <= i < j < k + c.minIdleReady - |s.idle| :: draw(i).warmId != draw(j).warmId
    ensures |WarmAll(c, s, draw, k, now).idle| == c.minIdleReady
    decreases c.minIdleReady - |s.idle|
  {
    hide CreateSandbox, PurgeSandbox, PodName, PvcName, CaSecretName;
    TargetIsMinIdle(c);
    if |s.idle| < c.minIdleReady {
      var id := draw(k).warmId;
      WarmOutcome(c, s, id, now, draw(k).faults);
      var s' := Warm(c, s, id, now, draw(k).faults).0;
      forall i: nat | k + 1 <= i < k + 1 + c.minIdleReady - |s'.idle| ensures Fresh(s'.kube, draw(i).warmId) {
        WarmSparesFresh(c, s, id, draw(i).warmId, now, draw(k).faults);
      }
      ReplenishFills(c, s', draw, k + 1, now);
    }
  }

  // No object bears a name made from this id.
  ghost predicate Fresh(k: Cluster, id: string) {
    PodName(id) !in k.pods && PvcName(id) !in k.pvcs && CaSecretName(id) !in k.secrets
  }

  lemma WarmSparesFresh(c: Config, s: System, id: string, other: string, now: int, f: Faults)
    requires Fresh(s.kube, other) && other != id
    ensures Fresh(Warm(c, s, id, now, f).0.kube, other)
  {
    hide PodName, PvcName, CaSecretName;
    assert SessionIdFromPodName(PodName(id)) == id && SessionIdFromPodName(PodName(other)) == other;
    assert PvcLabel(PvcName(id)) == id && PvcLabel(PvcName(other)) == other;
    assert CaLabel(CaSecretName(id)) == id && CaLabel(CaSecretName(other)) == other;
  }
}
