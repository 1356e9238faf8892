// Every pod that runs has the CA secret it mounts, in every run.
module Certificates {
  import opened Identifiers
  import opened Platform
  import opened Lifecycle
  import opened Agreement
  import opened Sweeping
  import opened Crashes
  import opened Requests
  import opened Runs
  import opened Tidiness

  // Sessions and warm sandboxes alike are given a certificate.
  predicate Certified(c: Config) { c.proxy && c.caCert && c.poolCaCert }

  ghost predicate SecretAt(k: Cluster, podName: string) { CaSecretName(SessionIdFromPodName(podName)) in k.secrets }

  // The secret of every running session's pod is there, and of every idle sandbox.
  ghost predicate Secured(s: System) {
    && (forall id | id in s.store && s.store[id].state == Running :: SecretAt(s.kube, s.store[id].podName))
    && (forall i | 0 <= i < |s.idle| :: SecretAt(s.kube, s.idle[i].podName))
  }

  // A pod that had its secret, and is not the one named from `t`.
  ghost predicate Spared(s: System, podName: string, t: string) {
    SecretAt(s.kube, podName) && SessionIdFromPodName(podName) != t
  }

  // When no secret goes but that of `t`, what is spared stays secured.
  lemma DropKeepsSecured(s: System, s': System, t: string)
    requires s.kube.secrets - {CaSecretName(t)} <= s'.kube.secrets
    requires forall x | x in s'.store && s'.store[x].state == Running ::
      Spared(s, s'.store[x].podName, t) || SecretAt(s'.kube, s'.store[x].podName)
    requires forall i | 0 <= i < |s'.idle| :: Spared(s, s'.idle[i].podName, t) || SecretAt(s'.kube, s'.idle[i].podName)
    ensures Secured(s')
  {
    hide PodName, PvcName, SessionIdFromPodName, CaSecretName;
    forall a: string | a != t ensures CaSecretName(a) != CaSecretName(t) { NamesDiffer(a, t); }
  }

  lemma TagOfPod(s: System, x: string, issued: set<string>)
    requires Inv(s, issued) && x in s.store && s.store[x].podName != ""
    ensures s.store[x].podName == PodName(SessionIdFromPodName(s.store[x].podName))
  {
    hide PodName, PvcName, PvcLabel, SessionIdFromPodName, IsSessionLabel, IsPoolLabel;
    assert RecordOk(s.store[x], x, issued);
  }

  lemma TagOfIdle(s: System, i: nat, issued: set<string>)
    requires Inv(s, issued) && i < |s.idle|
    ensures s.idle[i].podName == PodName(SessionIdFromPodName(s.idle[i].podName))
    ensures s.idle[i].podName in s.kube.pods && IsPoolLabel(SessionIdFromPodName(s.idle[i].podName))
  {
    hide PodName, PvcName, PvcLabel, SessionIdFromPodName, IsSessionLabel, IsPoolLabel;
    assert HandleOk(s, s.idle[i], issued);
  }

  lemma RunningPod(s: System, x: string, issued: set<string>)
    requires Inv(s, issued) && x in s.store && s.store[x].state == Running
    ensures s.store[x].podName in s.kube.pods && s.store[x].podName != ""
  {
    EmptyNameIsNoPod(s.kube, issued);
    assert Agrees(s.kube, s.store[x]);
  }

  // What bears another pod's name is another pod; so all but the pod `podName` is spared.
  lemma OthersAreSpared(s: System, podName: string, id: string, issued: set<string>)
    requires Inv(s, issued) && Secured(s)
    requires forall x | x in s.store && x != id :: s.store[x].podName != podName || podName == ""
    requires forall i | 0 <= i < |s.idle| :: s.idle[i].podName != podName
    requires podName == "" || podName == PodName(SessionIdFromPodName(podName))
    ensures forall x | x in s.store && x != id && s.store[x].state == Running ::
      Spared(s, s.store[x].podName, SessionIdFromPodName(podName))
    ensures forall i | 0 <= i < |s.idle| :: Spared(s, s.idle[i].podName, SessionIdFromPodName(podName))
  {
    hide PodName, PvcName, PvcLabel, SessionIdFromPodName, CaSecretName, IsSessionLabel, IsPoolLabel, Inv;
    NoNameFromNothing();
    forall x | x in s.store && x != id && s.store[x].state == Running
      ensures Spared(s, s.store[x].podName, SessionIdFromPodName(podName))
    {
      RunningPod(s, x, issued);
      TagOfPod(s, x, issued);
      LivePod(s, x, issued);
    }
    forall i | 0 <= i < |s.idle| ensures Spared(s, s.idle[i].podName, SessionIdFromPodName(podName)) {
      TagOfIdle(s, i, issued);
      EmptyIsNoPool(SessionIdFromPodName(s.idle[i].podName));
    }
  }

  lemma EmptyIsNoPool(t: string)
    requires IsPoolLabel(t)
    ensures t != ""
  {
  }

  lemma ApartFromRecord(s: System, id: string, issued: set<string>)
    requires Inv(s, issued) && id in s.store
    ensures var p := s.store[id].podName;
      && (forall x | x in s.store && x != id :: s.store[x].podName != p || p == "")
      && (forall i | 0 <= i < |s.idle| :: s.idle[i].podName != p)
      && (p == "" || p == PodName(SessionIdFromPodName(p)))
  {
    hide PodName, PvcName, PvcLabel, SessionIdFromPodName, IsSessionLabel, IsPoolLabel, Inv;
    forall x | x in s.store && x != id ensures s.store[x].podName != s.store[id].podName || s.store[id].podName == "" {
      NamesApart(s, id, x, issued);
    }
    forall i | 0 <= i < |s.idle| ensures s.idle[i].podName != s.store[id].podName { IdleApart(s, id, i, issued); }
    if s.store[id].podName != "" { TagOfPod(s, id, issued); }
  }

  // ---- Tearing down --------------------------------------------------------------------

  lemma StopSecured(s: System, id: string, now: int, issued: set<string>)
    requires Inv(s, issued) && Secured(s)
    ensures Secured(Stop(s, id, now).0)
  {
    hide PodName, PvcName, PvcLabel, SessionIdFromPodName, CaSecretName, IsSessionLabel, IsPoolLabel, StopSandbox, Inv;
    hide SecretAt, Spared;
    if id in s.store && s.store[id].state == Running {
      var p := s.store[id].podName;
      ApartFromRecord(s, id, issued);
      OthersAreSpared(s, p, id, issued);
      RunningPod(s, id, issued);
      LivePod(s, id, issued);
      StopSandboxEffect(s.kube, p);
      DropKeepsSecured(s, Stop(s, id, now).0, SessionIdFromPodName(p));
    } else if id in s.store {
      NoneCreating(s, id, issued);
    }
  }

  lemma NoneCreating(s: System, id: string, issued: set<string>)
    requires Inv(s, issued) && id in s.store
    ensures s.store[id].state != Creating
  {
    assert Agrees(s.kube, s.store[id]);
  }

  lemma PurgeDrops(k: Cluster, podName: string, pvcName: string)
    ensures k.secrets - {CaSecretName(SessionIdFromPodName(podName))} <= PurgeSandbox(k, podName, pvcName).secrets
  {
    hide PodName, PvcName, SessionIdFromPodName, CaSecretName;
  }

  lemma DeleteSecured(s: System, id: string, issued: set<string>)
    requires Inv(s, issued) && Secured(s)
    ensures Secured(Delete(s, id).0) && (id in s.store ==> Secured(PurgeAndForget(s, id)))
  {
    hide PodName, PvcName, PvcLabel, SessionIdFromPodName, CaSecretName, IsSessionLabel, IsPoolLabel, PurgeSandbox, Inv;
    hide SecretAt, Spared;
    if id in s.store {
      var r := s.store[id];
      ApartFromRecord(s, id, issued);
      OthersAreSpared(s, r.podName, id, issued);
      PurgeDrops(s.kube, r.podName, r.pvcName);
      DropKeepsSecured(s, Delete(s, id).0, SessionIdFromPodName(r.podName));
      DropKeepsSecured(s, PurgeAndForget(s, id), SessionIdFromPodName(r.podName));
    }
  }

  // ---- Making ------------------------------------------------------------------------------

  lemma CreateSandboxDrops(k: Cluster, id: string, pool: bool, ca: bool, now: int, f: ApiFault)
    ensures k.secrets - {CaSecretName(id)} <= CreateSandbox(k, id, pool, ca, now, f).0.secrets
  {
    hide PodName, PvcName, CaSecretName;
  }

  // Nobody else has a pod named from `home`.
  lemma UnclaimedIsSpared(s: System, home: string, id: string, issued: set<string>)
    requires Inv(s, issued) && Secured(s) && Unclaimed(s, home)
    ensures forall x | x in s.store && x != id && s.store[x].state == Running :: Spared(s, s.store[x].podName, home)
    ensures forall i | 0 <= i < |s.idle| :: Spared(s, s.idle[i].podName, home)
  {
    hide PodName, PvcName, PvcLabel, SessionIdFromPodName, CaSecretName, IsSessionLabel, IsPoolLabel, Inv, Spared;
    assert SessionIdFromPodName(PodName(home)) == home;
    OthersAreSpared(s, PodName(home), id, issued);
  }

  // A record takes over a loose sandbox with its secret, or the sandbox goes.
  lemma SettleSecured(s: System, r: Record, notReady: bool, home: string, issued: set<string>)
    requires Inv(s, issued) && Secured(s) && Loose(s, home) && r.id !in s.store
    requires r.podName == PodName(home) && SecretAt(s.kube, r.podName)
    ensures Secured(Settle(s, r, notReady).0)
  {
    hide PodName, PvcName, PvcLabel, SessionIdFromPodName, CaSecretName, IsSessionLabel, IsPoolLabel, Inv, Spared;
    hide PurgeSandbox, SecretAt;
    assert SessionIdFromPodName(PodName(home)) == home;
    UnclaimedIsSpared(s, home, r.id, issued);
    PurgeDrops(s.kube, r.podName, r.pvcName);
    var s' := Settle(s, r, notReady).0;
    if s'.kube == s.kube && !notReady && r.id != "" {
      assert Secured(s');
    } else {
      DropKeepsSecured(s, s', home);
    }
  }

  lemma ColdSecured(s: System, id: string, pool: bool, ca: bool, now: int, f: ApiFault, issued: set<string>)
    requires Inv(s, issued) && Secured(s) && Unclaimed(s, id)
    ensures var (k, h) := CreateSandbox(s.kube, id, pool, ca, now, f);
      Secured(s.(kube := k)) && (h.Some? && ca ==> h.value.podName == PodName(id) && SecretAt(k, PodName(id)))
  {
    hide PodName, PvcName, PvcLabel, SessionIdFromPodName, CaSecretName, IsSessionLabel, IsPoolLabel, Inv, Spared;
    hide CreateSandbox;
    assert SessionIdFromPodName(PodName(id)) == id;
    NoRecordHere(s, id, issued);
    CreateSandboxDrops(s.kube, id, pool, ca, now, f);
    ColdCreateSucceeds(s.kube, id, pool, ca, now, f);
    DropKeepsSecured(s, s.(kube := CreateSandbox(s.kube, id, pool, ca, now, f).0), id);
  }

  lemma NoRecordHere(s: System, id: string, issued: set<string>)
    requires Inv(s, issued) && Secured(s) && Unclaimed(s, id)
    ensures forall x | x in s.store && s.store[x].state == Running :: Spared(s, s.store[x].podName, id)
    ensures forall i | 0 <= i < |s.idle| :: Spared(s, s.idle[i].podName, id)
  {
    hide PodName, PvcName, PvcLabel, SessionIdFromPodName, CaSecretName, IsSessionLabel, IsPoolLabel, Inv, Spared;
    UnclaimedIsSpared(s, id, "", issued);
    forall x | x in s.store && s.store[x].state == Running ensures Spared(s, s.store[x].podName, id) {
      UnclaimedIsSpared(s, id, x + "!", issued);
    }
  }

  lemma CreateSecured(c: Config, s: System, o: CreateOptions, newId: string, now: int, f: Faults, issued: set<string>)
    requires Inv(s, issued) && Secured(s) && Certified(c)
    requires var id := SessionId(c, o, newId); IsSessionLabel(id) && !IsPoolLabel(id) && id !in s.store
    ensures Secured(Create(c, s, o, newId, now, f).0)
  {
    hide PodName, PvcName, PvcLabel, SessionIdFromPodName, IsSessionLabel, IsPoolLabel, SessionId, IdsIn, PoolEligible;
    hide CreateSandbox, Settle, Inv, Loose, CaSecretName, Unclaimed;
    var id := SessionId(c, o, newId);
    var (s1, h, fromPool) := Provision(c, s, o, id, now, f);
    if fromPool {
      AcquireKeepsInv(s, issued);
    } else {
      ColdKeepsInv(s, id, c.proxy && c.caCert, now, f.api, issued);
      UnclaimedSession(s, id, issued);
      ColdSecured(s, id, false, c.proxy && c.caCert, now, f.api, issued);
    }
    if h.Some? {
      var home := if fromPool then SessionIdFromPodName(s.idle[0].podName) else id;
      SettleSecured(s1, NewRecord(c, o, id, h.value, fromPool, now), f.notReady, home, issued);
    }
  }

  lemma ResumeDrops(c: Config, s: System, id: string, now: int, f: Faults)
    ensures s.kube.secrets - {CaSecretName(id)} <= Resume(c, s, id, now, f).0.kube.secrets
  {
    hide PodName, PvcName, SessionIdFromPodName, CaSecretName;
    assert SessionIdFromPodName(PodName(id)) == id;
  }

  lemma ResumeSecured(c: Config, s: System, id: string, now: int, f: Faults, issued: set<string>)
    requires Inv(s, issued) && Secured(s) && Certified(c)
    ensures Secured(Resume(c, s, id, now, f).0)
  {
    hide PodName, PvcName, PvcLabel, SessionIdFromPodName, CaSecretName, IsSessionLabel, IsPoolLabel, Inv, Spared;
    hide Resume, SecretAt, Resumable;
    ResumeOnlyStopped(c, s, id, now, f);
    if id in s.store && s.store[id].state == Stopped {
      var s' := Resume(c, s, id, now, f).0;
      assert SessionIdFromPodName(PodName(id)) == id;
      ResumeOutcome(c, s, id, now, f);
      ResumeDrops(c, s, id, now, f);
      OwnNameIsApart(s, id, issued);
      OthersAreSpared(s, PodName(id), id, issued);
      OwnSecret(s'.kube, id);
      DropKeepsSecured(s, s', id);
    }
  }

  lemma ResumeOnlyStopped(c: Config, s: System, id: string, now: int, f: Faults)
    ensures (id in s.store && s.store[id].state == Stopped) || Resume(c, s, id, now, f).0 == s
    ensures Resume(c, s, id, now, f).0.idle == s.idle
  {
  }

  lemma OwnSecret(k: Cluster, id: string)
    ensures SecretAt(k, PodName(id)) <==> CaSecretName(id) in k.secrets
  {
    hide PodName, CaSecretName, SessionIdFromPodName;
    assert SessionIdFromPodName(PodName(id)) == id;
  }

  lemma OwnNameIsApart(s: System, id: string, issued: set<string>)
    requires Inv(s, issued) && id in s.store
    ensures forall x | x in s.store && x != id :: s.store[x].podName != PodName(id)
    ensures forall i | 0 <= i < |s.idle| :: s.idle[i].podName != PodName(id)
  {
    hide PodName, PvcName, PvcLabel, SessionIdFromPodName, IsSessionLabel, IsPoolLabel, Inv;
    RecordIsSession(s, id, issued);
    forall x | x in s.store && x != id ensures s.store[x].podName != PodName(id) { NamesApart(s, x, id, issued); }
    forall i | 0 <= i < |s.idle| ensures s.idle[i].podName != PodName(id) { IdleApart(s, id, i, issued); }
  }

  lemma EnsureSecured(c: Config, s: System, o: CreateOptions, recreate: bool, now: int, f: Faults, issued: set<string>)
    requires Inv(s, issued) && Secured(s) && Certified(c)
    ensures Secured(Ensure(c, s, o, recreate, now, f).0)
  {
    hide PodName, PvcName, PvcLabel, SessionIdFromPodName, Canonical, Create, Resume, PurgeSandbox, Inv, ResolveImage;
    hide Secured, IsSessionLabel, IsPoolLabel;
    if o.ref != "" {
      var id := Canonical(c.sum, o.ref);
      CanonicalNamespace(c.sum, o.ref);
      SessionIsNotPool(id);
      if id !in s.store {
        CreateSecured(c, s, o, "", now, f, issued);
      } else {
        ForgetKeepsInv(s, id, issued);
        DeleteSecured(s, id, issued);
        CreateSecured(c, PurgeAndForget(s, id), o, "", now, f, issued);
        ResumeSecured(c, s, id, now, f, issued);
      }
    }
  }

  lemma WarmSecured(c: Config, s: System, id: string, now: int, f: Faults, issued: set<string>)
    requires Inv(s, issued) && Secured(s) && Certified(c) && IsPoolLabel(id) && id !in issued && !IsSessionLabel(id)
    ensures Secured(Warm(c, s, id, now, f).0)
  {
    hide PodName, PvcName, PvcLabel, SessionIdFromPodName, CaSecretName, IsSessionLabel, IsPoolLabel, Inv, Spared;
    hide CreateSandbox, PurgeSandbox, Unclaimed, TargetIdle;
    assert SessionIdFromPodName(PodName(id)) == id;
    IssuedGrows(s, id, issued);
    NoRecordHere(s, id, issued);
    ColdSecured(s, id, true, c.poolCaCert, now, f.api, issued);
    var (k, h) := CreateSandbox(s.kube, id, true, c.poolCaCert, now, f.api);
    CreateSandboxDrops(s.kube, id, true, c.poolCaCert, now, f.api);
    if h.Some? {
      PurgeDrops(k, h.value.podName, h.value.pvcName);
      if f.notReady { DropKeepsSecured(s, Warm(c, s, id, now, f).0, id); }
    }
  }

  // ---- Sweeping and reaping -----------------------------------------------------------------

  lemma SweepSecured(c: Config, s: System, now: int, issued: set<string>)
    requires Inv(s, issued) && Secured(s)
    ensures Secured(Sweep(c, s, now))
  {
    hide PodName, PvcName, PvcLabel, SessionIdFromPodName, CaSecretName, IsSessionLabel, IsPoolLabel, Inv, Sweep;
    InvIsOrdered(s, issued);
    SweepIsExact(c, s, now, issued);
    var s' := Sweep(c, s, now);
    forall x | x in s.store && s.store[x].state == Running ensures SecretAt(s'.kube, s.store[x].podName) {
      RunningPod(s, x, issued);
      LivePod(s, x, issued);
      RecordNamesProtected(s, x, issued);
      SecretSurvivesSweep(c, s, SessionIdFromPodName(s.store[x].podName), now, issued);
    }
    forall i | 0 <= i < |s.idle| ensures SecretAt(s'.kube, s.idle[i].podName) {
      TagOfIdle(s, i, issued);
      SecretSurvivesSweep(c, s, SessionIdFromPodName(s.idle[i].podName), now, issued);
    }
  }

  lemma {:induction false} ReapRunningSecured(c: Config, s: System, rs: seq<Record>, now: int, issued: set<string>)
    requires Inv(s, issued) && Secured(s)
    ensures Secured(ReapRunning(c, s, rs, now))
    decreases |rs|
  {
    hide Secured, Inv, Stop, RunningExpired;
    if rs != [] {
      var init, last := rs[..|rs| - 1], rs[|rs| - 1];
      ReapRunningSecured(c, s, init, now, issued);
      ReapRunningKeepsInv(c, s, init, now, issued);
      StopSecured(ReapRunning(c, s, init, now), last.id, now, issued);
    }
  }

  lemma {:induction false} ReapStoppedSecured(c: Config, s: System, rs: seq<Record>, now: int, issued: set<string>)
    requires Inv(s, issued) && Secured(s)
    ensures Secured(ReapStopped(c, s, rs, now))
    decreases |rs|
  {
    hide Secured, Inv, Delete, StoppedExpired;
    if rs != [] {
      var init, last := rs[..|rs| - 1], rs[|rs| - 1];
      ReapStoppedSecured(c, s, init, now, issued);
      ReapStoppedKeepsInv(c, s, init, now, issued);
      DeleteSecured(ReapStopped(c, s, init, now), last.id, issued);
    }
  }

  // ---- Every run -------------------------------------------------------------------------------

  lemma TouchSecured(s: System, active: map<string, nat>, id: string, now: int)
    requires Secured(s)
    ensures Secured(Touch(s.(active := active), id, now))
  {
    hide SecretAt;
  }

  lemma StepSecured(c: Config, w: World, step: Step)
    requires Good(w) && Allowed(c, w, step) && Certified(c) && Secured(w.sys)
    ensures Secured(Next(c, w, step))
  {
    hide Create, Ensure, Stop, Resume, Delete, Touch, Warm, Sweep, Inv, OperationCalls, ReapRunning, ReapStopped;
    hide IsRandomId, IsWarmId, IsSessionLabel, IsPoolLabel, Lists, SecretAt, Canonical, PurgeSandbox;
    var s := w.sys;
    match step
    case CreateStep(o, newId, f) =>
      RandomNamespace(newId);
      SessionIsNotPool(newId);
      CreateSecured(c, s, o, newId, w.now, f, w.issued);
    case EnsureStep(o, recreate, f) => EnsureSecured(c, s, o, recreate, w.now, f, w.issued);
    case ClearStep(ref) => DeleteSecured(s, Canonical(c.sum, ref), w.issued);
    case StopStep(id) => StopSecured(s, id, w.now, w.issued);
    case ResumeStep(id, f) => ResumeSecured(c, s, id, w.now, f, w.issued);
    case DeleteStep(id) => DeleteSecured(s, id, w.issued);
    case TouchStep(id) =>
      TouchSecured(s, s.active, id, w.now);
      assert s.(active := s.active) == s;
    case BeginStep(id) => TouchSecured(s, s.active[id := ActiveCalls(s.active, id) + 1], id, w.now);
    case EndStep(id) =>
      var n := ActiveCalls(s.active, id);
      TouchSecured(s, if n <= 1 then s.active - {id} else s.active[id := n - 1], id, w.now);
    case WarmStep(id, f) =>
      WarmNamespace(id);
      PoolIsNotSession(id);
      WarmSecured(c, s, id, w.now, f, w.issued);
    case SweepStep => SweepSecured(c, s, w.now, w.issued);
    case ReapStep(running, stopped) =>
      SweepSecured(c, s, w.now, w.issued);
      SweepKeepsInv(c, s, w.now, w.issued);
      ReapRunningSecured(c, Sweep(c, s, w.now), running, w.now, w.issued);
      ReapRunningKeepsInv(c, Sweep(c, s, w.now), running, w.now, w.issued);
      ReapStoppedSecured(c, ReapRunning(c, Sweep(c, s, w.now), running, w.now), stopped, w.now, w.issued);
    case RestartStep =>
    case TickStep(_) =>
    case CrashStep(_, _, _) =>
  }

  lemma {:induction false} RunSecured(c: Config, w: World, steps: seq<Step>)
    requires Good(w) && AllowedRun(c, w, steps) && Certified(c) && Secured(w.sys)
    ensures Secured(Run(c, w, steps).sys)
    decreases |steps|
  {
    hide Secured, Next, Allowed, Good;
    if steps != [] {
      StepSecured(c, w, steps[0]);
      StepKeepsGood(c, w, steps[0]);
      RunSecured(c, Apply(c, w, steps[0]), steps[1..]);
    }
  }

  // In every run, with whatever failures and restarts: the CA secret of every running
  // session's pod and of every idle sandbox is there, under the label of that pod.
  lemma SecretsInEveryRun(c: Config, now: int, steps: seq<Step>)
    requires AllowedRun(c, Initial(now), steps) && Certified(c)
    ensures var s := Run(c, Initial(now), steps).sys;
      && (forall id | id in s.store && s.store[id].state == Running ::
            && s.store[id].podName in s.kube.pods
            && CaSecretName(s.kube.pods[s.store[id].podName].session) in s.kube.secrets)
      && (forall i | 0 <= i < |s.idle| ::
            s.idle[i].podName in s.kube.pods && CaSecretName(s.kube.pods[s.idle[i].podName].session) in s.kube.secrets)
  {
    hide Run, AllowedRun, Inv, PodName, PvcName, SessionIdFromPodName, CaSecretName;
    InitialIsGood(now);
    RunKeepsGood(c, Initial(now), steps);
    RunSecured(c, Initial(now), steps);
    var w := Run(c, Initial(now), steps);
    forall id | id in w.sys.store && w.sys.store[id].state == Running
      ensures w.sys.store[id].podName in w.sys.kube.pods
      ensures CaSecretName(w.sys.kube.pods[w.sys.store[id].podName].session) in w.sys.kube.secrets
    {
      RunningPod(w.sys, id, w.issued);
      LivePod(w.sys, id, w.issued);
    }
    forall i | 0 <= i < |w.sys.idle|
      ensures w.sys.idle[i].podName in w.sys.kube.pods
      ensures CaSecretName(w.sys.kube.pods[w.sys.idle[i].podName].session) in w.sys.kube.secrets
    {
      IdleLabel(w.sys, i, w.issued);
    }
  }

  lemma IdleLabel(s: System, i: nat, issued: set<string>)
    requires Inv(s, issued) && i < |s.idle|
    ensures var p := s.idle[i].podName; p in s.kube.pods && s.kube.pods[p].session == SessionIdFromPodName(p)
  {
    hide PodName, PvcName, PvcLabel, SessionIdFromPodName, IsSessionLabel, IsPoolLabel;
    assert HandleOk(s, s.idle[i], issued) && PodOk(s.kube, s.idle[i].podName, issued);
  }
}
