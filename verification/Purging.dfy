// A purge is complete: whatever its history, a session that is gone has left no
// pod, PVC or CA secret behind.
module Purging {
  import opened Identifiers
  import opened Platform
  import opened Lifecycle
  import opened Agreement
  import opened Sweeping
  import opened PlatformCalls
  import opened Crashes
  import opened Runs
  import opened Tidiness

  // ---- What a session ever owned ------------------------------------------------

  datatype Resource = PodOf(tag: string) | PvcOf(tag: string) | SecretOf(tag: string)

  ghost predicate Present(k: Cluster, r: Resource) {
    match r
    case PodOf(x) => PodName(x) in k.pods
    case PvcOf(x) => PvcName(x) in k.pvcs
    case SecretOf(x) => CaSecretName(x) in k.secrets
  }

  ghost function NamedFrom(tag: string): set<Resource> { {PodOf(tag), PvcOf(tag), SecretOf(tag)} }

  // What a session owns: the objects named from its id, and, for a session that
  // came from the pool, those named from the pool id it took over.
  ghost function Owns(s: System, id: string): set<Resource> {
    if id in s.store then NamedFrom(id) + NamedFrom(Home(s.store[id])) else {}
  }

  ghost function EverOwned(c: Config, w: World, steps: seq<Step>, id: string): set<Resource>
    decreases |steps|
  {
    Owns(w.sys, id) + if steps == [] then {} else EverOwned(c, Apply(c, w, steps[0]), steps[1..], id)
  }

  // A pool id that only `id` can have used: drawn, no longer idle, no one else's home.
  ghost predicate Spent(w: World, id: string, tag: string) {
    && tag in w.issued
    && (forall i | 0 <= i < |w.sys.idle| :: w.sys.idle[i].podName != PodName(tag))
    && (forall x | x in w.sys.store && x != id :: w.sys.store[x].pvcName != PvcName(tag))
  }

  // Where the PVC names and idle handles of the next state come from.
  ghost predicate NamesFrom(s: System, s': System, warmId: string) {
    && (forall x | x in s'.store ::
          || (x in s.store && s'.store[x].pvcName == s.store[x].pvcName)
          || s'.store[x].pvcName == PvcName(x)
          || (s.idle != [] && s'.store[x].pvcName == s.idle[0].pvcName))
    && (forall i | 0 <= i < |s'.idle| :: s'.idle[i] in s.idle || s'.idle[i].podName == PodName(warmId))
  }

  lemma SettleNames(s: System, s1: System, r: Record, notReady: bool)
    requires s1.store == s.store && forall h | h in s1.idle :: h in s.idle
    requires r.pvcName == PvcName(r.id) || (s.idle != [] && r.pvcName == s.idle[0].pvcName)
    ensures NamesFrom(s, Settle(s1, r, notReady).0, "")
  {
    hide PodName, PvcName, PurgeSandbox;
  }

  lemma CreateNames(c: Config, s: System, o: CreateOptions, newId: string, now: int, f: Faults)
    ensures NamesFrom(s, Create(c, s, o, newId, now, f).0, "")
  {
    hide PodName, PvcName, PurgeSandbox, CreateSandbox, Canonical, ResolveImage, IdsIn, Settle;
    var id := SessionId(c, o, newId);
    CreateSandboxEffect(s.kube, id, false, c.proxy && c.caCert, now, f.api);
    var (s1, h, fromPool) := Provision(c, s, o, id, now, f);
    if h.Some? { SettleNames(s, s1, NewRecord(c, o, id, h.value, fromPool, now), f.notReady); }
  }

  lemma {:induction false} ReapNames(c: Config, s: System, running: seq<Record>, stopped: seq<Record>, now: int)
    ensures NamesFrom(s, ReapStopped(c, ReapRunning(c, s, running, now), stopped, now), "")
    decreases |running| + |stopped|
  {
    hide PodName, PvcName, PvcLabel, SessionIdFromPodName, CaSecretName, CaLabel, IsSessionLabel, IsPoolLabel;
    hide PurgeSandbox, StopSandbox;
    if stopped != [] {
      ReapNames(c, s, running, stopped[..|stopped| - 1], now);
    } else if running != [] {
      ReapNames(c, s, running[..|running| - 1], [], now);
    }
  }

  lemma EnsureNames(c: Config, s: System, o: CreateOptions, recreate: bool, now: int, f: Faults)
    ensures NamesFrom(s, Ensure(c, s, o, recreate, now, f).0, "")
  {
    hide PodName, PvcName, PvcLabel, SessionIdFromPodName, CaSecretName, CaLabel, IsSessionLabel, IsPoolLabel;
    hide PurgeSandbox, StopSandbox, ResumeSandbox, Create, Canonical, ResolveImage;
    var id := Canonical(c.sum, o.ref);
    CreateNames(c, s, o, "", now, f);
    if id in s.store { CreateNames(c, PurgeAndForget(s, id), o, "", now, f); }
  }

  lemma StepNames(c: Config, w: World, step: Step)
    ensures NamesFrom(w.sys, Next(c, w, step), if step.WarmStep? then step.warmId else "")
  {
    hide PodName, PvcName, PvcLabel, SessionIdFromPodName, CaSecretName, CaLabel, IsSessionLabel, IsPoolLabel;
    hide PurgeSandbox, StopSandbox, ResumeSandbox, Create, Ensure, Warm, Canonical, PurgePods, PurgePvcs, OrphanPods;
    hide OrphanPvcs, ReapRunning, ReapStopped, OperationCalls;
    if step.CreateStep? {
      CreateNames(c, w.sys, step.options, step.newId, w.now, step.faults);
    } else if step.EnsureStep? {
      EnsureNames(c, w.sys, step.options, step.recreate, w.now, step.faults);
    } else if step.ReapStep? {
      ReapNames(c, Sweep(c, w.sys, w.now), step.running, step.stopped, w.now);
    } else if step.WarmStep? {
      WarmNames(c, w.sys, step.warmId, w.now, step.faults);
    }
  }

  lemma WarmNames(c: Config, s: System, id: string, now: int, f: Faults)
    ensures NamesFrom(s, Warm(c, s, id, now, f).0, id)
  {
    hide PodName, PvcName, PvcLabel, SessionIdFromPodName, CaSecretName, CaLabel, IsSessionLabel, IsPoolLabel;
    hide PurgeSandbox, CreateSandbox;
    CreateSandboxEffect(s.kube, id, true, c.poolCaCert, now, f.api);
    var s' := Warm(c, s, id, now, f).0;
    var (k, h) := CreateSandbox(s.kube, id, true, c.poolCaCert, now, f.api);
    assert h.Some? ==> h.value.podName == PodName(id);
    forall i | 0 <= i < |s'.idle| ensures s'.idle[i] in s.idle || s'.idle[i].podName == PodName(id) {
      if i < |s.idle| { assert s'.idle[i] == s.idle[i]; }
    }
  }

  lemma SpentStays(c: Config, w: World, step: Step, id: string, tag: string)
    requires Good(w) && Allowed(c, w, step) && Spent(w, id, tag)
    ensures Spent(Apply(c, w, step), id, tag)
  {
    hide PodName, PvcName, PvcLabel, SessionIdFromPodName, CaSecretName, CaLabel, IsSessionLabel, IsPoolLabel, Next;
    hide IsWarmId;
    var w' := Apply(c, w, step);
    StepNames(c, w, step);
    StepKeepsGood(c, w, step);
    forall i | 0 <= i < |w'.sys.idle| ensures w'.sys.idle[i].podName != PodName(tag) {
      if w'.sys.idle[i] !in w.sys.idle {
        assert SessionIdFromPodName(w'.sys.idle[i].podName) == if step.WarmStep? then step.warmId else "";
        EmptyIsNotPool();
      }
    }
    forall x | x in w'.sys.store && x != id ensures w'.sys.store[x].pvcName != PvcName(tag) {
      assert RecordOk(w'.sys.store[x], x, w'.issued);
      if w'.sys.store[x].pvcName == PvcName(x) { SessionIsNotPool(x); }
      if w.sys.idle != [] { assert HandleOk(w.sys, w.sys.idle[0], w.issued); }
    }
  }

  lemma EmptyIsNotPool()
    ensures !IsPoolLabel("")
  {
  }

  // ---- Its history is accounted for -----------------------------------------------

  // A run without a restart, whatever fails in it.
  ghost predicate OneLife(c: Config, w: World, steps: seq<Step>)
    decreases |steps|
  {
    steps == []
    || (Allowed(c, w, steps[0]) && !Restarts(steps[0]) && OneLife(c, Apply(c, w, steps[0]), steps[1..]))
  }

  // What the session took over from the pool is its alone, and owned.
  ghost predicate Accounted(w: World, id: string, history: set<Resource>) {
    forall r | r in history && r.tag != id :: Spent(w, id, r.tag) && Neat(w.sys, r.tag)
  }

  // No failure strands an object of a pool id that was already drawn.
  lemma DrawnIsNoCulprit(c: Config, w: World, step: Step, tag: string)
    requires Good(w) && Allowed(c, w, step) && tag in w.issued
    ensures !Leaks(c, w, step, tag)
  {
    hide Canonical, IsRandomId, IsSessionLabel, IsPoolLabel;
    assert IsPoolLabel(tag);
    PoolIsNotSession(tag);
    match step
    case CreateStep(_, newId, _) => RandomNamespace(newId);
    case EnsureStep(o, _, _) => if o.ref != "" { CanonicalNamespace(c.sum, o.ref); }
    case ResumeStep(id, _) => if id in w.sys.store { RecordIsSession(w.sys, id, w.issued); }
    case _ =>
  }

  lemma AccountedStays(c: Config, w: World, step: Step, id: string, history: set<Resource>)
    requires Good(w) && Allowed(c, w, step) && !Restarts(step) && Accounted(w, id, history)
    ensures Accounted(Apply(c, w, step), id, history)
  {
    hide Spent, Next, Neat, Leaks, Allowed, Inv;
    var w' := Apply(c, w, step);
    forall r | r in history && r.tag != id ensures Spent(w', id, r.tag) && Neat(w'.sys, r.tag) {
      SpentStays(c, w, step, id, r.tag);
      SpentIsDrawn(w, id, r.tag);
      DrawnIsNoCulprit(c, w, step, r.tag);
      NeatnessIsLostExactly(c, w, step, r.tag);
    }
  }

  lemma SpentIsDrawn(w: World, id: string, tag: string)
    requires Spent(w, id, tag)
    ensures tag in w.issued
  {
  }

  // The home of a live record is its own id, or a pool id that is spent.
  lemma HomeIsSpent(w: World, id: string)
    requires Good(w) && id in w.sys.store
    ensures var home := Home(w.sys.store[id]); home == id || Spent(w, id, home)
  {
    hide PodName, PvcName, PvcLabel, SessionIdFromPodName, CaSecretName, CaLabel, IsSessionLabel, IsPoolLabel;
    var home := Home(w.sys.store[id]);
    assert RecordOk(w.sys.store[id], id, w.issued);
    if home != id {
      forall i | 0 <= i < |w.sys.idle| ensures w.sys.idle[i].podName != PodName(home) {
        assert HandleOk(w.sys, w.sys.idle[i], w.issued);
      }
      forall x | x in w.sys.store && x != id ensures w.sys.store[x].pvcName != PvcName(home) {
        NamesApart(w.sys, x, id, w.issued);
      }
    }
  }

  // A record keeps its home, moves to its own id, or takes over the first idle
  // sandbox; in the last case the objects it takes over are all owned.
  lemma NewHomeIsNeat(c: Config, w: World, step: Step, id: string)
    requires Good(w) && Allowed(c, w, step) && !Restarts(step) && id in Next(c, w, step).store
    ensures var home := Home(Next(c, w, step).store[id]);
      home == id || (id in w.sys.store && home == Home(w.sys.store[id])) || Neat(Next(c, w, step), home)
  {
    hide PodName, PvcName, PvcLabel, SessionIdFromPodName, CaSecretName, CaLabel, IsSessionLabel, IsPoolLabel, Next;
    hide Neat, Leaks, Allowed, Inv;
    var home := Home(Next(c, w, step).store[id]);
    StepNames(c, w, step);
    assert PvcLabel(PvcName(id)) == id;
    if home != id && !(id in w.sys.store && home == Home(w.sys.store[id])) {
      IdleHandleOk(w.sys, 0, w.issued);
      assert PvcLabel(w.sys.idle[0].pvcName) == SessionIdFromPodName(w.sys.idle[0].podName);
      AcquireNeat(w.sys, home, w.issued);
      DrawnIsNoCulprit(c, w, step, home);
      NeatnessIsLostExactly(c, w, step, home);
    }
  }

  lemma OwnsTags(s: System, id: string, r: Resource)
    requires r in Owns(s, id)
    ensures id in s.store && (r.tag == id || r.tag == Home(s.store[id]))
  {
  }

  lemma OwnsHome(s: System, id: string)
    requires id in s.store
    ensures PvcOf(Home(s.store[id])) in Owns(s, id)
  {
  }

  // What the session owns after a step is accounted for once what it owned before is.
  lemma OwnedIsAccounted(c: Config, w: World, step: Step, id: string, history: set<Resource>)
    requires Good(w) && Allowed(c, w, step) && !Restarts(step)
    requires Accounted(w, id, history) && Owns(w.sys, id) <= history
    ensures Accounted(Apply(c, w, step), id, history + Owns(Next(c, w, step), id))
  {
    hide Spent, Next, Neat, Leaks, Allowed, Inv, Owns;
    var w' := Apply(c, w, step);
    StepKeepsGood(c, w, step);
    AccountedStays(c, w, step, id, history);
    forall r | r in Owns(w'.sys, id) && r.tag != id ensures Spent(w', id, r.tag) && Neat(w'.sys, r.tag) {
      OwnsTags(w'.sys, id, r);
      HomeIsSpent(w', id);
      NewHomeIsNeat(c, w, step, id);
      if id in w.sys.store { OwnsHome(w.sys, id); }
    }
  }

  lemma {:induction false} HistoryIsAccounted(c: Config, w: World, steps: seq<Step>, id: string, before: set<Resource>)
    requires Good(w) && OneLife(c, w, steps) && Accounted(w, id, before) && Owns(w.sys, id) <= before
    ensures Good(Run(c, w, steps)) && Accounted(Run(c, w, steps), id, before + EverOwned(c, w, steps, id))
    decreases |steps|
  {
    hide Accounted, Owns, Next, Inv, Neat, Leaks, Allowed, Good;
    if steps != [] {
      var w' := Apply(c, w, steps[0]);
      var now := before + Owns(w'.sys, id);
      StepKeepsGood(c, w, steps[0]);
      OwnedIsAccounted(c, w, steps[0], id, before);
      HistoryIsAccounted(c, w', steps[1..], id, now);
      OwnsFirst(c, w', steps[1..], id);
      assert before + EverOwned(c, w, steps, id) == now + EverOwned(c, w', steps[1..], id);
    } else {
      assert before + EverOwned(c, w, steps, id) == before;
    }
  }

  lemma OwnsFirst(c: Config, w: World, steps: seq<Step>, id: string)
    ensures Owns(w.sys, id) <= EverOwned(c, w, steps, id)
  {
  }

  // ---- What a delete leaves ------------------------------------------------------------

  // Whatever the state, deleting a session leaves an object named after its id exactly
  // when there is one and the record points elsewhere: the PVC of a session from the
  // pool, the pod and the secret of one never resumed under its own name or whose
  // resume was not ready.
  lemma DeleteLeavesExactly(s: System, id: string, issued: set<string>)
    requires Inv(s, issued) && id in s.store
    ensures var k := Delete(s, id).0.kube;
      && (PodName(id) in k.pods <==> PodName(id) in s.kube.pods && s.store[id].podName != PodName(id))
      && (PvcName(id) in k.pvcs <==> PvcName(id) in s.kube.pvcs && s.store[id].pvcName != PvcName(id))
      && (CaSecretName(id) in k.secrets <==> CaSecretName(id) in s.kube.secrets && s.store[id].podName != PodName(id))
  {
    hide PodName, PvcName, PvcLabel, SessionIdFromPodName, CaSecretName, CaLabel, IsSessionLabel, IsPoolLabel;
    hide PurgeSandbox;
    var r := s.store[id];
    assert RecordOk(r, id, issued);
    LabelsAreNotEmpty(id);
    PurgeSandboxEffect(s.kube, r.podName, r.pvcName);
    EmptyPurgeKeepsSecrets(s.kube, r.pvcName);
    if r.podName == PodName(Home(r)) && Home(r) != id {
      LabelsAreNotEmptyIn(s, r, issued);
      assert CaLabel(CaSecretName(Home(r))) == Home(r) && CaLabel(CaSecretName(id)) == id;
    }
  }

  lemma LabelsAreNotEmptyIn(s: System, r: Record, issued: set<string>)
    requires Inv(s, issued) && Home(r) in issued
    ensures Home(r) != ""
  {
    EmptyIsNotPool();
  }

  lemma EmptyPurgeKeepsSecrets(k: Cluster, pvcName: string)
    ensures PurgeSandbox(k, "", pvcName).secrets == k.secrets
  {
  }

  // ---- Nothing remains ---------------------------------------------------------------

  // No live session but `id`, and no idle handle, bears names made from these tags.
  lemma NamedByNoOneElse(w: World, id: string, tag: string)
    requires Good(w) && IsSessionLabel(id) && (tag == id || Spent(w, id, tag))
    ensures forall x | x in w.sys.store && x != id ::
      w.sys.store[x].pvcName != PvcName(tag) && w.sys.store[x].podName != PodName(tag)
    ensures forall i | 0 <= i < |w.sys.idle| ::
      w.sys.idle[i].pvcName != PvcName(tag) && w.sys.idle[i].podName != PodName(tag)
  {
    hide PodName, PvcName, PvcLabel, SessionIdFromPodName, CaSecretName, CaLabel, IsSessionLabel, IsPoolLabel;
    var s := w.sys;
    SessionIsNotPool(id);
    forall x | x in s.store && x != id
      ensures s.store[x].pvcName != PvcName(tag) && s.store[x].podName != PodName(tag)
    {
      assert RecordOk(s.store[x], x, w.issued);
      SessionIsNotPool(x);
    }
    forall i | 0 <= i < |s.idle| ensures s.idle[i].pvcName != PvcName(tag) && s.idle[i].podName != PodName(tag) {
      assert HandleOk(s, s.idle[i], w.issued);
    }
  }

  lemma GoneMeansAbsent(w: World, id: string, r: Resource)
    requires Good(w) && Neat(w.sys, r.tag) && (id in w.sys.store ==> w.sys.store[id].state == Dead)
    requires IsSessionLabel(id) && (r.tag == id || Spent(w, id, r.tag))
    ensures !Present(w.sys.kube, r)
  {
    hide PodName, PvcName, PvcLabel, SessionIdFromPodName, CaSecretName, CaLabel, IsSessionLabel, IsPoolLabel, Inv;
    hide Spent;
    NamedByNoOneElse(w, id, r.tag);
  }

  // The start of a session's history: a platform in order, after any number of earlier
  // lives of the orchestrator, and the id not tracked.
  ghost predicate Untracked(w: World, id: string) { Good(w) && id !in w.sys.store }

  // Once a session is dead or forgotten, however that came about, nothing named from any
  // pool id it took over remains, whatever warm starts, stops, resumes, refusals, failed
  // readiness waits and recreations made up its history.
  lemma GoneLeavesNoPoolObject(c: Config, w0: World, steps: seq<Step>, id: string)
    requires Untracked(w0, id) && OneLife(c, w0, steps) && IsSessionLabel(id)
    requires var s := Run(c, w0, steps).sys; id in s.store ==> s.store[id].state == Dead
    ensures forall r | r in EverOwned(c, w0, steps, id) && r.tag != id :: !Present(Run(c, w0, steps).sys.kube, r)
  {
    hide Run, OneLife, EverOwned, Spent, Neat, Inv, Present, IsSessionLabel, IsPoolLabel;
    HistoryIsAccounted(c, w0, steps, id, {});
    var w := Run(c, w0, steps);
    forall r | r in EverOwned(c, w0, steps, id) && r.tag != id ensures !Present(w.sys.kube, r) {
      assert r in {} + EverOwned(c, w0, steps, id);
      GoneMeansAbsent(w, id, r);
    }
  }

  // The record points to this object of its own id, so that a purge finds it: the PVC by
  // its name, the secret through the pod's name.
  ghost predicate PointsTo(s: System, id: string, r: Resource)
    requires id in s.store
  {
    match r
    case PvcOf(x) => s.store[id].pvcName == PvcName(x)
    case _ => s.store[id].podName == PodName(r.tag)
  }

  // Every object there is of a session's own id is one its record points to.
  ghost predicate PointsToItsOwn(s: System, id: string)
    requires id in s.store
  {
    forall r | r in NamedFrom(id) && Present(s.kube, r) :: PointsTo(s, id, r)
  }

  // A delete or a clear of this session.
  predicate Purges(c: Config, step: Step, id: string) {
    step == DeleteStep(id) || (step.ClearStep? && step.ref != "" && Canonical(c.sum, step.ref) == id)
  }

  // Right after a delete or a clear, of all the session ever owned there remains exactly
  // what is named from its own id and its record did not point to. So nothing remains if
  // and only if just before the call its record pointed to every object of its id there was.
  lemma PurgeLeavesExactly(c: Config, w0: World, steps: seq<Step>, last: Step, id: string)
    requires Untracked(w0, id) && OneLife(c, w0, steps) && id in Run(c, w0, steps).sys.store && Purges(c, last, id)
    ensures var w := Run(c, w0, steps); var k := Next(c, w, last).kube;
      && (forall r | r in EverOwned(c, w0, steps, id) ::
            Present(k, r) <==> r.tag == id && Present(w.sys.kube, r) && !PointsTo(w.sys, id, r))
      && ((forall r | r in EverOwned(c, w0, steps, id) :: !Present(k, r)) <==> PointsToItsOwn(w.sys, id))
  {
    hide OneLife, EverOwned, Spent, Neat, Inv, Present, PointsTo, IsSessionLabel, IsPoolLabel, Canonical, Run;
    var w := Run(c, w0, steps);
    var k := Next(c, w, last).kube;
    HistoryIsAccounted(c, w0, steps, id, {});
    RecordIsSession(w.sys, id, w.issued);
    AccountedStays(c, w, last, id, {} + EverOwned(c, w0, steps, id));
    StepKeepsGood(c, w, last);
    OwnsLast(c, w0, steps, id);
    forall r | r in EverOwned(c, w0, steps, id)
      ensures Present(k, r) <==> r.tag == id && Present(w.sys.kube, r) && !PointsTo(w.sys, id, r)
    {
      assert r in {} + EverOwned(c, w0, steps, id);
      if r.tag == id {
        PurgedUnlessElsewhere(c, w, last, id, r);
      } else {
        GoneMeansAbsent(Apply(c, w, last), id, r);
      }
    }
    assert forall r | r in EverOwned(c, w0, steps, id) && r.tag == id :: r in NamedFrom(id);
  }

  lemma {:induction false} OwnsLast(c: Config, w: World, steps: seq<Step>, id: string)
    ensures Owns(Run(c, w, steps).sys, id) <= EverOwned(c, w, steps, id)
    decreases |steps|
  {
    hide Owns, Next;
    if steps != [] { OwnsLast(c, Apply(c, w, steps[0]), steps[1..], id); }
  }

  lemma PurgedUnlessElsewhere(c: Config, w: World, last: Step, id: string, r: Resource)
    requires Good(w) && id in w.sys.store && Purges(c, last, id) && r.tag == id
    ensures Present(Next(c, w, last).kube, r) <==> Present(w.sys.kube, r) && !PointsTo(w.sys, id, r)
  {
    hide PodName, PvcName, CaSecretName, PurgeSandbox, Inv, Canonical;
    DeleteLeavesExactly(w.sys, id, w.issued);
  }

  // ---- Histories in which nothing was stranded -------------------------------------------

  // No failed step left an object of `id` without owner.
  ghost predicate CleanFor(c: Config, w: World, steps: seq<Step>, id: string)
    decreases |steps|
  {
    steps == [] || (!Leaks(c, w, steps[0], id) && CleanFor(c, Apply(c, w, steps[0]), steps[1..], id))
  }

  lemma {:induction false} CleanIsNeat(c: Config, w: World, steps: seq<Step>, id: string)
    requires Good(w) && OneLife(c, w, steps) && CleanFor(c, w, steps, id) && Neat(w.sys, id)
    ensures Good(Run(c, w, steps)) && Neat(Run(c, w, steps).sys, id)
    decreases |steps|
  {
    hide Next, Inv, Neat, Leaks, Allowed, Good;
    if steps != [] {
      StepKeepsGood(c, w, steps[0]);
      NeatnessIsLostExactly(c, w, steps[0], id);
      CleanIsNeat(c, Apply(c, w, steps[0]), steps[1..], id);
    }
  }

  // A session id no object bears and no record.
  ghost predicate Unused(w: World, id: string) { Untracked(w, id) && Neat(w.sys, id) }

  // From an unused id, with no object of it stranded by a refusal, nothing at all remains
  // of a session that is gone.
  lemma GoneLeavesNothing(c: Config, w0: World, steps: seq<Step>, id: string)
    requires Unused(w0, id) && OneLife(c, w0, steps) && CleanFor(c, w0, steps, id) && IsSessionLabel(id)
    requires var s := Run(c, w0, steps).sys; id in s.store ==> s.store[id].state == Dead
    ensures forall r | r in EverOwned(c, w0, steps, id) :: !Present(Run(c, w0, steps).sys.kube, r)
  {
    hide Run, OneLife, CleanFor, EverOwned, Spent, Neat, Inv, Present, IsSessionLabel, IsPoolLabel;
    GoneLeavesNoPoolObject(c, w0, steps, id);
    CleanIsNeat(c, w0, steps, id);
    forall r | r in EverOwned(c, w0, steps, id) && r.tag == id ensures !Present(Run(c, w0, steps).sys.kube, r) {
      GoneMeansAbsent(Run(c, w0, steps), id, r);
    }
  }

  // Nor right after a delete or a clear.
  lemma PurgeIsComplete(c: Config, w0: World, steps: seq<Step>, last: Step, id: string)
    requires Unused(w0, id) && OneLife(c, w0, steps) && CleanFor(c, w0, steps, id)
    requires id in Run(c, w0, steps).sys.store && Purges(c, last, id)
    ensures forall r | r in EverOwned(c, w0, steps, id) :: !Present(Next(c, Run(c, w0, steps), last).kube, r)
  {
    hide Run, OneLife, CleanFor, EverOwned, Neat, Inv, PointsToItsOwn, Purges;
    PurgeLeavesExactly(c, w0, steps, last, id);
    CleanIsNeat(c, w0, steps, id);
    NeatPointsToItsOwn(Run(c, w0, steps), id);
  }

  lemma NeatPointsToItsOwn(w: World, id: string)
    requires Good(w) && Neat(w.sys, id) && id in w.sys.store
    ensures PointsToItsOwn(w.sys, id)
  {
    hide PodName, PvcName, CaSecretName, Inv, IsSessionLabel, IsPoolLabel;
    RecordIsSession(w.sys, id, w.issued);
    NamedByNoOneElse(w, id, id);
  }

  // Such a start comes round again after every restart, even one in the middle of an
  // operation: once a sweep has run past both limits a session id is unused, unless a
  // secret was stranded without pod or PVC of the same name to lead the sweep to it.
  lemma RestartedIdIsUnused(c: Config, w: World, last: Step, later: World, id: string)
    requires Good(w) && Allowed(c, w, last) && Restarts(last) && IsSessionLabel(id)
    requires later == Apply(c, w, last).(now := later.now) && OldEnough(c, later.sys.kube, later.now)
    ensures var k := later.sys.kube;
      Unused(Apply(c, later, SweepStep), id)
      <==> (CaSecretName(id) in k.secrets ==> PodName(id) in k.pods || PvcName(id) in k.pvcs)
  {
    hide PodName, PvcName, PvcLabel, SessionIdFromPodName, CaSecretName, CaLabel, IsSessionLabel, IsPoolLabel;
    hide OldEnough, Inv, Neat, Sweep, OperationCalls, PerformAll, ClusterOk, Lists, ListsOrphans;
    StepKeepsGood(c, w, last);
    StepKeepsGood(c, later, SweepStep);
    SessionIsNotPool(id);
    LabelsAreNotEmpty(id);
    assert later.sys == Emptied(later.sys.kube);
    InvIsOrdered(later.sys, later.issued);
    SweepIsExact(c, later.sys, later.now, later.issued);
    SweptIdIsNeatExactly(c, later.sys.kube, later.now, id, later.issued);
  }

  lemma SweptIdIsNeatExactly(c: Config, k: Cluster, now: int, id: string, issued: set<string>)
    requires ClusterOk(k, issued) && OldEnough(c, k, now) && !IsPoolLabel(id) && id != ""
    ensures Neat(Sweep(c, Emptied(k), now), id)
      <==> (CaSecretName(id) in k.secrets ==> PodName(id) in k.pods || PvcName(id) in k.pvcs)
  {
    hide PodName, PvcName, PvcLabel, SessionIdFromPodName, CaSecretName, CaLabel, IsPoolLabel, PodOk, PvcOk;
    var s := Emptied(k);
    SweepIsExact(c, s, now, issued);
    SweepOnlyDropsSecrets(c, s, now);
    assert SessionIdFromPodName(PodName(id)) == id && PvcLabel(PvcName(id)) == id;
    var orphans := OrphanPods(c, s, now);
    var k1 := PurgePods(k, orphans);
    var pvcs := OrphanPvcs(c, s.store, k1.pvcs, PodSessions(k), now);
    ListedHasPod(k, id, issued);
    if PodName(id) in k.pods {
      OrderedPod(k, PodName(id), issued);
      assert PodName(id) in orphans;
    } else {
      forall p | p in orphans ensures SessionIdFromPodName(p) != id && k.pods[p].session != id {
        OrderedPod(k, p, issued);
      }
      if PvcName(id) in k.pvcs {
        OrderedPvc(k, PvcName(id), issued);
        assert PvcName(id) in pvcs;
      } else {
        forall v | v in pvcs ensures k1.pvcs[v].session != id { OrderedPvc(k, v, issued); }
        if CaSecretName(id) in k.secrets { StraySecretStays(k, orphans, pvcs, id); }
      }
    }
  }

  lemma StraySecretStays(k: Cluster, orphans: set<string>, pvcs: set<string>, id: string)
    requires orphans <= k.pods.Keys && pvcs <= PurgePods(k, orphans).pvcs.Keys && CaSecretName(id) in k.secrets
    requires forall p | p in orphans :: SessionIdFromPodName(p) != id
    requires forall v | v in pvcs :: k.pvcs[v].session != id
    ensures CaSecretName(id) in PurgePvcs(PurgePods(k, orphans), pvcs).secrets
  {
    hide PodName, PvcName, SessionIdFromPodName, CaSecretName, CaLabel;
    assert CaLabel(CaSecretName(id)) == id;
    assert forall p | p in orphans :: CaLabel(CaSecretName(SessionIdFromPodName(p))) != id;
    assert forall v | v in pvcs :: CaLabel(CaSecretName(k.pvcs[v].session)) != id;
  }
}
