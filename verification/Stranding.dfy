// What the failures that strand an object lead to: a resume blocked for good, and
// concrete runs in which each of them happens.
module Stranding {
  import opened Wrappers
  import opened Identifiers
  import opened Platform
  import opened Lifecycle
  import opened Agreement
  import opened Sweeping
  import opened Crashes
  import opened Runs
  import opened Reaping
  import opened Requests
  import opened Tidiness

  // ---- A refused resume blocks every later one ------------------------------------

  // A stopped session whose own secret is already there.
  ghost predicate Blocked(s: System, id: string, image: string) {
    && id in s.store && s.store[id].state == Stopped && s.store[id].image == image
    && CaSecretName(id) in s.kube.secrets
  }

  lemma PurgeSparesSecret(k: Cluster, podName: string, pvcName: string, id: string)
    requires CaSecretName(id) in k.secrets && SessionIdFromPodName(podName) != id
    ensures CaSecretName(id) in PurgeSandbox(k, podName, pvcName).secrets
  {
    NamesDiffer(id, SessionIdFromPodName(podName));
  }

  // No other record's pod bears the name of `id`.
  lemma OthersPodName(s: System, x: string, id: string, issued: set<string>)
    requires Inv(s, issued) && x in s.store && x != id && IsSessionLabel(id)
    ensures SessionIdFromPodName(s.store[x].podName) != id
  {
    hide PodName, PvcName, PvcLabel, SessionIdFromPodName, IsSessionLabel, IsPoolLabel;
    var r := s.store[x];
    assert RecordOk(r, x, issued);
    LabelsAreNotEmpty(id);
    SessionIsNotPool(id);
    NoNameFromNothing();
  }

  lemma StopSparesSecret(s: System, x: string, now: int, id: string, issued: set<string>)
    requires Inv(s, issued) && IsSessionLabel(id) && CaSecretName(id) in s.kube.secrets
    requires x == id ==> x in s.store && s.store[x].state == Stopped
    ensures CaSecretName(id) in Stop(s, x, now).0.kube.secrets
  {
    hide PodName, PvcName, PvcLabel, SessionIdFromPodName, CaSecretName, IsSessionLabel, IsPoolLabel, Inv;
    if x in s.store && x != id {
      OthersPodName(s, x, id, issued);
      NamesDiffer(id, SessionIdFromPodName(s.store[x].podName));
      if s.store[x].podName in s.kube.pods { LivePod(s, x, issued); }
    }
  }

  lemma DeleteSparesSecret(s: System, x: string, id: string, issued: set<string>)
    requires Inv(s, issued) && IsSessionLabel(id) && CaSecretName(id) in s.kube.secrets && x != id
    ensures CaSecretName(id) in Delete(s, x).0.kube.secrets
    ensures x in s.store ==> CaSecretName(id) in PurgeAndForget(s, x).kube.secrets
  {
    hide PodName, PvcName, PvcLabel, SessionIdFromPodName, CaSecretName, IsSessionLabel, PurgeSandbox, Inv;
    if x in s.store {
      OthersPodName(s, x, id, issued);
      PurgeSparesSecret(s.kube, s.store[x].podName, s.store[x].pvcName, id);
    }
  }

  lemma CreateSandboxSparesSecret(k: Cluster, x: string, pool: bool, ca: bool, now: int, f: ApiFault, id: string)
    requires CaSecretName(id) in k.secrets && x != id
    ensures CaSecretName(id) in CreateSandbox(k, x, pool, ca, now, f).0.secrets
  {
    hide PodName, PvcName, CaSecretName;
    NamesDiffer(id, x);
  }

  lemma SettleSparesSecret(s: System, r: Record, notReady: bool, id: string)
    requires CaSecretName(id) in s.kube.secrets && SessionIdFromPodName(r.podName) != id
    ensures CaSecretName(id) in Settle(s, r, notReady).0.kube.secrets
  {
    hide PodName, PvcName, SessionIdFromPodName, CaSecretName, PurgeSandbox;
    PurgeSparesSecret(s.kube, r.podName, r.pvcName, id);
  }

  lemma CreateSparesSecret(c: Config, s: System, o: CreateOptions, newId: string, now: int, f: Faults, id: string,
          issued: set<string>)
    requires Inv(s, issued) && IsSessionLabel(id) && CaSecretName(id) in s.kube.secrets && SessionId(c, o, newId) != id
    ensures CaSecretName(id) in Create(c, s, o, newId, now, f).0.kube.secrets
  {
    hide PodName, PvcName, PvcLabel, SessionIdFromPodName, CaSecretName, IsSessionLabel, IsPoolLabel;
    hide Settle, CreateSandbox, ResolveImage, Inv;
    var x := SessionId(c, o, newId);
    var ca := c.proxy && c.caCert;
    CreateSandboxSparesSecret(s.kube, x, false, ca, now, f.api, id);
    CreateSandboxEffect(s.kube, x, false, ca, now, f.api);
    var (s1, h, fromPool) := Provision(c, s, o, x, now, f);
    if fromPool {
      var home := SessionIdFromPodName(s.idle[0].podName);
      AcquireKeepsInv(s, issued);
      DrawnIsNoSession(s, home, issued);
      SettleSparesSecret(s1, NewRecord(c, o, x, h.value, fromPool, now), f.notReady, id);
    } else if h.Some? {
      assert SessionIdFromPodName(PodName(x)) == x;
      SettleSparesSecret(s1, NewRecord(c, o, x, h.value, fromPool, now), f.notReady, id);
    }
  }

  lemma ResumeSparesSecret(c: Config, s: System, x: string, now: int, f: Faults, id: string)
    requires CaSecretName(id) in s.kube.secrets && (x != id || (c.proxy && c.caCert)) && (x == id ==> x != "")
    ensures CaSecretName(id) in Resume(c, s, x, now, f).0.kube.secrets
  {
    hide PodName, PvcName, SessionIdFromPodName, CaSecretName;
    NamesDiffer(id, x);
    assert SessionIdFromPodName(PodName(x)) == x;
  }

  lemma BlockedResumeDoesNothing(c: Config, s: System, id: string, image: string, now: int, g: Faults)
    requires Blocked(s, id, image) && c.proxy && c.caCert
    ensures Resume(c, s, id, now, g) == (s, None)
  {
  }

  lemma EnsureBlocked(c: Config, s: System, o: CreateOptions, recreate: bool, now: int, f: Faults, id: string,
          image: string, issued: set<string>)
    requires Inv(s, issued) && Blocked(s, id, image) && c.proxy && c.caCert
    requires !GivesUp(c, EnsureStep(o, recreate, f), id, image)
    ensures Blocked(Ensure(c, s, o, recreate, now, f).0, id, image)
  {
    hide CaSecretName, Canonical, ResolveImage, WantedImage, Create, Resume, PurgeSandbox, Inv;
    if o.ref != "" {
      var x := Canonical(c.sum, o.ref);
      ImageIsWanted(c, o.image);
      RecordIsSession(s, id, issued);
      if x == id {
        BlockedResumeDoesNothing(c, s, id, image, now, f);
      } else if x !in s.store {
        CreateSparesSecret(c, s, o, "", now, f, id, issued);
        CreateSparesRecords(c, s, o, "", now, f, id);
      } else {
        var s1 := PurgeAndForget(s, x);
        ForgetKeepsInv(s, x, issued);
        DeleteSparesSecret(s, x, id, issued);
        CreateSparesSecret(c, s1, o, "", now, f, id, issued);
        CreateSparesRecords(c, s1, o, "", now, f, id);
        ResumeSparesSecret(c, s, x, now, f, id);
        ResumeSparesRecords(c, s, x, now, f, id);
      }
    }
  }

  lemma ResumeSparesRecords(c: Config, s: System, x: string, now: int, f: Faults, id: string)
    requires id in s.store && x != id
    ensures id in Resume(c, s, x, now, f).0.store && Resume(c, s, x, now, f).0.store[id] == s.store[id]
  {
    hide ResumeSandbox, StopSandbox;
  }

  lemma {:induction false} ReapRunningBlocked(c: Config, s: System, rs: seq<Record>, now: int, id: string,
          image: string, issued: set<string>)
    requires Inv(s, issued) && Blocked(s, id, image)
    ensures Blocked(ReapRunning(c, s, rs, now), id, image) && ReapRunning(c, s, rs, now).store[id] == s.store[id]
    decreases |rs|
  {
    hide RunningExpired, CaSecretName, Inv, StopSandbox;
    if rs != [] {
      var init, x := rs[..|rs| - 1], rs[|rs| - 1].id;
      ReapRunningBlocked(c, s, init, now, id, image, issued);
      ReapRunningKeepsInv(c, s, init, now, issued);
      RecordIsSession(s, id, issued);
      StopSparesSecret(ReapRunning(c, s, init, now), x, now, id, issued);
    }
  }

  lemma {:induction false} ReapStoppedBlocked(c: Config, s: System, rs: seq<Record>, now: int, id: string,
          image: string, issued: set<string>)
    requires Inv(s, issued) && Blocked(s, id, image)
    requires forall r | r in rs && r.id == id :: !StoppedExpired(c, r, now)
    ensures Blocked(ReapStopped(c, s, rs, now), id, image)
    decreases |rs|
  {
    hide StoppedExpired, CaSecretName, Inv, PurgeSandbox;
    if rs != [] {
      var init, last := rs[..|rs| - 1], rs[|rs| - 1];
      assert last in rs && forall r | r in init :: r in rs;
      ReapStoppedBlocked(c, s, init, now, id, image, issued);
      ReapStoppedKeepsInv(c, s, init, now, issued);
      RecordIsSession(s, id, issued);
      if last.id != id { DeleteSparesSecret(ReapStopped(c, s, init, now), last.id, id, issued); }
    }
  }

  // The reaper deletes the session in this step.
  ghost predicate Reaped(c: Config, w: World, step: Step, id: string) {
    && step.ReapStep? && id in w.sys.store && w.sys.store[id].state == Stopped
    && w.now - w.sys.store[id].stoppedAt > c.stoppedTTL
  }

  lemma StoppedPastLimit(c: Config, r: Record, now: int)
    ensures StoppedExpired(c, r, now) <==> r.state == Stopped && now - r.stoppedAt > c.stoppedTTL
  {
  }

  lemma ReapBlocked(c: Config, w: World, step: Step, id: string, image: string)
    requires Good(w) && Allowed(c, w, step) && Blocked(w.sys, id, image) && step.ReapStep? && !Reaped(c, w, step, id)
    ensures Blocked(Next(c, w, step), id, image)
  {
    hide CaSecretName, Inv, Sweep, StoppedExpired, RunningExpired, ReapRunning, ReapStopped;
    var s1 := Sweep(c, w.sys, w.now);
    InvIsOrdered(w.sys, w.issued);
    SweepIsExact(c, w.sys, w.now, w.issued);
    SecretSurvivesSweep(c, w.sys, id, w.now, w.issued);
    SweepKeepsInv(c, w.sys, w.now, w.issued);
    ReapRunningBlocked(c, s1, step.running, w.now, id, image, w.issued);
    ReapRunningKeepsInv(c, s1, step.running, w.now, w.issued);
    var s2 := ReapRunning(c, s1, step.running, w.now);
    forall r | r in step.stopped && r.id == id ensures !StoppedExpired(c, r, w.now) {
      assert r == s2.store[id] == w.sys.store[id];
      StoppedPastLimit(c, r, w.now);
    }
    ReapStoppedBlocked(c, s2, step.stopped, w.now, id, image, w.issued);
  }

  lemma BlockedStays(c: Config, w: World, step: Step, id: string, image: string)
    requires Good(w) && Allowed(c, w, step) && Blocked(w.sys, id, image) && c.proxy && c.caCert
    requires !GivesUp(c, step, id, image) && !Reaped(c, w, step, id)
    ensures Blocked(Next(c, w, step), id, image)
  {
    hide PodName, PvcName, PvcLabel, SessionIdFromPodName, CaSecretName, IsSessionLabel, IsPoolLabel, IsRandomId;
    hide IsWarmId;
    hide Create, Ensure, Resume, StopSandbox, PurgeSandbox, CreateSandbox, Sweep, Reap, Canonical, ResolveImage, Inv;
    hide Lists, Reaped;
    var s := w.sys;
    RecordIsSession(s, id, w.issued);
    LabelsAreNotEmpty(id);
    match step
    case CreateStep(o, newId, f) =>
      CreateSparesSecret(c, s, o, newId, w.now, f, id, w.issued);
      CreateSparesRecords(c, s, o, newId, w.now, f, id);
    case EnsureStep(o, recreate, f) => EnsureBlocked(c, s, o, recreate, w.now, f, id, image, w.issued);
    case ClearStep(ref) => DeleteSparesSecret(s, Canonical(c.sum, ref), id, w.issued);
    case StopStep(x) => StopSparesSecret(s, x, w.now, id, w.issued);
    case DeleteStep(x) => DeleteSparesSecret(s, x, id, w.issued);
    case ResumeStep(x, f) =>
      if x == id {
        BlockedResumeDoesNothing(c, s, id, image, w.now, f);
      } else {
        ResumeSparesSecret(c, s, x, w.now, f, id);
        ResumeSparesRecords(c, s, x, w.now, f, id);
      }
    case WarmStep(x, f) => WarmBlocked(c, w, x, f, id, image);
    case SweepStep =>
      InvIsOrdered(s, w.issued);
      SweepIsExact(c, s, w.now, w.issued);
      SecretSurvivesSweep(c, s, id, w.now, w.issued);
    case ReapStep(_, _) => ReapBlocked(c, w, step, id, image);
    case _ =>
  }

  lemma WarmBlocked(c: Config, w: World, x: string, f: Faults, id: string, image: string)
    requires Good(w) && IsWarmId(x) && Blocked(w.sys, id, image)
    ensures Blocked(Warm(c, w.sys, x, w.now, f).0, id, image)
  {
    hide PodName, PvcName, SessionIdFromPodName, CaSecretName, IsSessionLabel, IsPoolLabel, IsWarmId, CreateSandbox;
    hide PurgeSandbox, Inv;
    WarmNamespace(x);
    RecordIsSession(w.sys, id, w.issued);
    SessionIsNotPool(id);
    CreateSandboxSparesSecret(w.sys.kube, x, true, c.poolCaCert, w.now, f.api, id);
    CreateSandboxEffect(w.sys.kube, x, true, c.poolCaCert, w.now, f.api);
    var (k, h) := CreateSandbox(w.sys.kube, x, true, c.poolCaCert, w.now, f.api);
    assert SessionIdFromPodName(PodName(x)) == x;
    if h.Some? { PurgeSparesSecret(k, h.value.podName, h.value.pvcName, id); }
  }

  // A run in which nobody gives the session up and the reaper does not delete it.
  ghost predicate Kept(c: Config, w: World, steps: seq<Step>, id: string, image: string)
    decreases |steps|
  {
    steps == [] ||
    (!GivesUp(c, steps[0], id, image) && !Reaped(c, w, steps[0], id)
        && Kept(c, Apply(c, w, steps[0]), steps[1..], id, image))
  }

  lemma {:induction false} RunStaysBlocked(c: Config, w: World, steps: seq<Step>, id: string, image: string)
    requires Good(w) && AllowedRun(c, w, steps) && Blocked(w.sys, id, image) && c.proxy && c.caCert
    requires Kept(c, w, steps, id, image)
    ensures Blocked(Run(c, w, steps).sys, id, image)
    decreases |steps|
  {
    hide Blocked, Next, Allowed, GivesUp, Reaped, Inv;
    if steps != [] {
      BlockedStays(c, w, steps[0], id, image);
      StepKeepsGood(c, w, steps[0]);
      RunStaysBlocked(c, Apply(c, w, steps[0]), steps[1..], id, image);
    }
  }

  // After a resume whose pod was refused, every later resume of that session fails, in
  // every run that does not delete, clear, recreate, reap or restart it away: its own
  // secret stands in the way, and nothing else removes it.
  lemma RefusedResumeBlocksResume(c: Config, w: World, f: Faults, steps: seq<Step>, id: string, later: int, g: Faults)
    requires Good(w) && StrandsSecret(c, w.sys, id, f)
    requires var w1 := Apply(c, w, ResumeStep(id, f));
      AllowedRun(c, w1, steps) && Kept(c, w1, steps, id, w.sys.store[id].image)
    ensures var s := Run(c, Apply(c, w, ResumeStep(id, f)), steps).sys;
      Resume(c, s, id, later, g) == (s, None) && id in s.store && s.store[id].state == Stopped
  {
    hide Run, AllowedRun, Kept, Inv;
    var w1 := Apply(c, w, ResumeStep(id, f));
    var image := w.sys.store[id].image;
    StepKeepsGood(c, w, ResumeStep(id, f));
    RefusedResumeIsBlocked(c, w.sys, id, w.now, f);
    RunStaysBlocked(c, w1, steps, id, image);
    BlockedResumeDoesNothing(c, Run(c, w1, steps).sys, id, image, later, g);
  }

  lemma RefusedResumeIsBlocked(c: Config, s: System, id: string, now: int, f: Faults)
    requires StrandsSecret(c, s, id, f)
    ensures Blocked(Resume(c, s, id, now, f).0, id, s.store[id].image)
  {
  }

  // ---- Each failure happens ------------------------------------------------------------

  const NO_FAULTS := Faults(false, false, NoFault, false)

  const PLAIN := CreateOptions("", "", None, None)

  // A cold create whose secret is refused, from the very start: its PVC stays without
  // owner, and blocks the next cold create of that id.
  lemma CreateStrandsPvc(c: Config, now: int, id: string, later: int, g: Faults)
    requires c.maxRunning > 0 && c.proxy && c.caCert && IsRandomId(id)
    ensures var steps := [CreateStep(PLAIN, id, NO_FAULTS.(api := SecretRefused))];
      var s := Run(c, Initial(now), steps).sys;
      && AllowedRun(c, Initial(now), steps) && PvcName(id) in s.kube.pvcs && !OwnedPvc(s, PvcName(id))
      && Create(c, s, PLAIN, id, later, g) == (s, None)
  {
    hide PodName, PvcName, CaSecretName, ResolveImage, IsRandomId;
    var w := Initial(now);
    var step := CreateStep(PLAIN, id, NO_FAULTS.(api := SecretRefused));
    RunFirst(c, w, [step]);
    var w1 := Apply(c, w, step);
    assert [step][1..] == [];
    RunNone(c, w1);
    assert IdsIn(w.sys.store, Running) == {} && IdsIn(w.sys.store, Creating) == {};
    assert w1.sys.store == map[] && w1.sys.idle == [];
  }

  // The one session of a system that has just made it.
  function OnlyRecord(c: Config, id: string, now: int): Record {
    NewRecord(c, PLAIN, id, Handle(PodName(id), PvcName(id)), false, now).(state := Running)
  }

  function OnlySession(c: Config, id: string, now: int): System {
    System(map[id := OnlyRecord(c, id, now)],
           Cluster(map[PodName(id) := Pod(id, false, PvcName(id), now)], map[PvcName(id) := Pvc(id, false, now)],
               {CaSecretName(id)}),
           [], map[])
  }

  lemma FirstCreate(c: Config, now: int, id: string)
    requires c.maxRunning > 0 && c.proxy && c.caCert && id != ""
    ensures Create(c, Initial(now).sys, PLAIN, id, now, NO_FAULTS).0 == OnlySession(c, id, now)
  {
    hide PodName, PvcName, SessionIdFromPodName, CaSecretName, ResolveImage;
    var s := Initial(now).sys;
    assert IdsIn(s.store, Running) == {} && IdsIn(s.store, Creating) == {};
    assert s.kube.secrets + {CaSecretName(id)} == {CaSecretName(id)};
  }

  lemma StopThenRefused(c: Config, now: int, id: string)
    requires c.proxy && c.caCert && id != ""
    ensures var k := Resume(c, Stop(OnlySession(c, id, now), id, now).0, id, now, NO_FAULTS.(api := PodRefused)).0.kube;
      CaSecretName(id) in k.secrets && PodName(id) !in k.pods
  {
    hide PodName, PvcName, SessionIdFromPodName, CaSecretName, ResolveImage;
  }

  // A session created, stopped and resumed with its pod refused: the secret stays
  // without pod.
  lemma ResumeStrandsSecret(c: Config, now: int, id: string)
    requires c.maxRunning > 0 && c.proxy && c.caCert && IsRandomId(id)
    ensures var steps := [CreateStep(PLAIN, id, NO_FAULTS), StopStep(id),
        ResumeStep(id, NO_FAULTS.(api := PodRefused))];
      var k := Run(c, Initial(now), steps).sys.kube;
      AllowedRun(c, Initial(now), steps) && CaSecretName(id) in k.secrets && PodName(id) !in k.pods
  {
    hide PodName, CaSecretName, IsRandomId, Create, Stop, Resume, OnlySession, Run, AllowedRun;
    RandomNamespace(id);
    FirstCreate(c, now, id);
    StopThenRefused(c, now, id);
    ThreeSteps(c, Initial(now), CreateStep(PLAIN, id, NO_FAULTS), StopStep(id),
        ResumeStep(id, NO_FAULTS.(api := PodRefused)));
  }

  lemma ThreeSteps(c: Config, w: World, a: Step, b: Step, d: Step)
    ensures var w1 := Apply(c, w, a); var w2 := Apply(c, w1, b);
      && Run(c, w, [a, b, d]) == Apply(c, w2, d)
      && (AllowedRun(c, w, [a, b, d]) <==> Allowed(c, w, a) && Allowed(c, w1, b) && Allowed(c, w2, d))
  {
    hide Next, Allowed;
    var w1 := Apply(c, w, a);
    var w2 := Apply(c, w1, b);
    assert [a, b, d][1..] == [b, d] && [b, d][1..] == [d] && [d][1..] == [];
    RunFirst(c, w, [a, b, d]);
    RunFirst(c, w1, [b, d]);
    RunFirst(c, w2, [d]);
    RunNone(c, Apply(c, w2, d));
  }

  // A run in which a delete is not complete: a cold get-or-create strands its PVC, the
  // pool serves the next one for the same reference, and the delete follows the record to
  // the pool's objects alone.
  lemma DeleteLeavesStrandedPvc(c: Config, now: int, ref: string, warm: string)
    requires c.maxRunning > 0 && c.proxy && c.caCert && c.pool && TargetIdle(c) > 0 && ref != "" && IsWarmId(warm)
    ensures var o := PLAIN.(ref := ref); var id := Canonical(c.sum, ref);
      var steps := [EnsureStep(o, false, NO_FAULTS.(api := SecretRefused)), WarmStep(warm, NO_FAULTS),
        EnsureStep(o, false, NO_FAULTS), DeleteStep(id)];
      var s := Run(c, Initial(now), steps).sys;
      && AllowedRun(c, Initial(now), steps) && PvcName(id) in s.kube.pvcs
      && id in s.store && s.store[id].state == Dead && s.store[id].pvcName == PvcName(warm)
  {
    hide PodName, PvcName, CaSecretName, Canonical, IsWarmId, IsPoolLabel, IsSessionLabel, Ensure, Warm, Delete, Run;
    hide AllowedRun;
    var o := PLAIN.(ref := ref);
    var id := Canonical(c.sum, ref);
    WarmNamespace(warm);
    CanonicalNamespace(c.sum, ref);
    SessionIsNotPool(id);
    var w := Initial(now);
    var first := EnsureStep(o, false, NO_FAULTS.(api := SecretRefused));
    var w1 := Apply(c, w, first);
    RefusedEnsure(c, now, ref);
    WarmBesides(c, id, warm, now);
    PooledEnsure(c, id, warm, now, ref);
    var w3 := Apply(c, Apply(c, w1, WarmStep(warm, NO_FAULTS)), EnsureStep(o, false, NO_FAULTS));
    DeleteOfPooled(w3.sys, id, warm);
    RunFirst(c, w, [first] + [WarmStep(warm, NO_FAULTS), EnsureStep(o, false, NO_FAULTS), DeleteStep(id)]);
    ThreeSteps(c, w1, WarmStep(warm, NO_FAULTS), EnsureStep(o, false, NO_FAULTS), DeleteStep(id));
    assert [first] + [WarmStep(warm, NO_FAULTS), EnsureStep(o, false, NO_FAULTS), DeleteStep(id)]
        == [first, WarmStep(warm, NO_FAULTS), EnsureStep(o, false, NO_FAULTS), DeleteStep(id)];
  }

  // Only a stranded PVC; and with it one idle sandbox.
  function StrandedOnly(id: string, now: int): System {
    System(map[], Cluster(map[], map[PvcName(id) := Pvc(id, false, now)], {}), [], map[])
  }

  ghost predicate StrandedAndWarm(s: System, id: string, warm: string) {
    && s.store == map[] && s.idle == [Handle(PodName(warm), PvcName(warm))] && PvcName(id) in s.kube.pvcs
  }

  lemma RefusedEnsure(c: Config, now: int, ref: string)
    requires c.maxRunning > 0 && c.proxy && c.caCert && ref != ""
    ensures Ensure(c, Initial(now).sys, PLAIN.(ref := ref), false, now, NO_FAULTS.(api := SecretRefused)).0
        == StrandedOnly(Canonical(c.sum, ref), now)
  {
    hide PodName, PvcName, CaSecretName, Canonical, ResolveImage;
    var s := Initial(now).sys;
    assert IdsIn(s.store, Running) == {} && IdsIn(s.store, Creating) == {};
  }

  lemma WarmBesides(c: Config, id: string, warm: string, now: int)
    requires TargetIdle(c) > 0 && id != warm
    ensures StrandedAndWarm(Warm(c, StrandedOnly(id, now), warm, now, NO_FAULTS).0, id, warm)
  {
    hide PodName, PvcName, PvcLabel, CaSecretName;
    assert PvcLabel(PvcName(id)) == id && PvcLabel(PvcName(warm)) == warm;
  }

  lemma PooledEnsure(c: Config, id: string, warm: string, now: int, ref: string)
    requires c.maxRunning > 0 && c.pool && ref != "" && id == Canonical(c.sum, ref) && id != ""
    ensures forall s | StrandedAndWarm(s, id, warm) ::
      var s' := Ensure(c, s, PLAIN.(ref := ref), false, now, NO_FAULTS).0;
      s'.kube == s.kube && id in s'.store && s'.store[id].pvcName == PvcName(warm)
  {
    hide PodName, PvcName, CaSecretName, Canonical;
    forall s | StrandedAndWarm(s, id, warm)
      ensures var s' := Ensure(c, s, PLAIN.(ref := ref), false, now, NO_FAULTS).0;
        s'.kube == s.kube && id in s'.store && s'.store[id].pvcName == PvcName(warm)
    {
      assert IdsIn(s.store, Running) == {} && IdsIn(s.store, Creating) == {};
    }
  }

  lemma DeleteOfPooled(s: System, id: string, warm: string)
    requires id in s.store && s.store[id].pvcName == PvcName(warm) && id != warm && PvcName(id) in s.kube.pvcs
    ensures var s' := Delete(s, id).0;
      && PvcName(id) in s'.kube.pvcs
      && id in s'.store && s'.store[id].state == Dead && s'.store[id].pvcName == PvcName(warm)
  {
    hide PodName, PvcName, PvcLabel, CaSecretName;
    assert PvcLabel(PvcName(id)) == id && PvcLabel(PvcName(warm)) == warm;
  }

  // A warm sandbox outlives a restart and every sweep after it.
  lemma PoolOutlivesRestart(c: Config, now: int, id: string, later: int)
    requires TargetIdle(c) > 0 && IsWarmId(id) && later >= now
    ensures var steps := [WarmStep(id, NO_FAULTS), RestartStep, TickStep(later)];
      var w := Run(c, Initial(now), steps);
      var s := Sweep(c, w.sys, w.now);
      && AllowedRun(c, Initial(now), steps) && w.now == later
      && PodName(id) in s.kube.pods && PvcName(id) in s.kube.pvcs
      && !OwnedPod(s, PodName(id)) && !OwnedPvc(s, PvcName(id))
  {
    hide PodName, PvcName, IsWarmId, IsPoolLabel, Sweep, Warm, Inv, ClusterOk, Run, AllowedRun;
    var w := Initial(now);
    ThreeSteps(c, w, WarmStep(id, NO_FAULTS), RestartStep, TickStep(later));
    var w1 := Apply(c, w, WarmStep(id, NO_FAULTS));
    WarmNamespace(id);
    FirstWarm(c, now, id);
    InitialIsGood(now);
    StepKeepsGood(c, w, WarmStep(id, NO_FAULTS));
    InvIsOrdered(w1.sys, w1.issued);
    SweepIsExact(c, Emptied(w1.sys.kube), later, w1.issued);
    OrderedPod(w1.sys.kube, PodName(id), w1.issued);
    OrderedPvc(w1.sys.kube, PvcName(id), w1.issued);
  }

  lemma FirstWarm(c: Config, now: int, id: string)
    requires TargetIdle(c) > 0
    ensures var k := Warm(c, Initial(now).sys, id, now, NO_FAULTS).0.kube;
      && PodName(id) in k.pods && k.pods[PodName(id)].session == id
      && PvcName(id) in k.pvcs && k.pvcs[PvcName(id)].session == id
  {
    hide PodName, PvcName, CaSecretName;
  }
}
