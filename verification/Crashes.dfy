// Each operation of the manager, the pool and the reaper as the platform calls it
// makes, in order: cutting the sequence short is dying in the middle of it.
module Crashes {
  import opened Identifiers
  import opened Platform
  import opened Lifecycle
  import opened Agreement
  import opened Sweeping
  import opened PlatformCalls

  ghost predicate Covers(s: System, calls: seq<Call>, s': System, issued: set<string>) {
    PerformAll(s.kube, calls) == s'.kube && AllSafe(s.kube, calls, issued)
  }

  lemma CoversConcat(s: System, a: seq<Call>, s1: System, b: seq<Call>, s2: System, issued: set<string>)
    requires Covers(s, a, s1, issued) && Covers(s1, b, s2, issued)
    ensures Covers(s, a + b, s2, issued)
  {
    hide Perform, Safe;
    PerformConcat(s.kube, a, b);
    SafeConcat(s.kube, a, b, issued);
  }

  // ---- Teardown ----------------------------------------------------------------------

  function StopOp(s: System, id: string): seq<Call> {
    if id in s.store && s.store[id].state != Stopped && s.store[id].state != Dead then
      StopCalls(s.kube, s.store[id].podName)
    else []
  }

  function PurgeOp(s: System, id: string): seq<Call> {
    if id in s.store then PurgeCalls(s.store[id].podName, s.store[id].pvcName) else []
  }

  lemma StopCovered(s: System, id: string, now: int, issued: set<string>)
    ensures Covers(s, StopOp(s, id), Stop(s, id, now).0, issued)
  {
    hide StopCalls, StopSandbox;
    if id in s.store {
      StopIsItsCalls(s.kube, s.store[id].podName);
      StopIsSafe(s.kube, s.store[id].podName, issued);
    }
  }

  lemma PurgeCovered(s: System, id: string, issued: set<string>)
    requires Inv(s, issued)
    ensures Covers(s, PurgeOp(s, id), Delete(s, id).0, issued)
    ensures id in s.store ==> Covers(s, PurgeOp(s, id), PurgeAndForget(s, id), issued)
  {
    hide PurgeCalls, PurgeSandbox, PodName, PvcName, PvcLabel, Inv;
    if id in s.store {
      var r := s.store[id];
      PurgeIsItsCalls(s.kube, r.podName, r.pvcName);
      TeardownUnmounts(s, id, issued);
      PurgeIsSafe(s.kube, r.podName, r.pvcName, issued);
    }
  }

  lemma TeardownUnmounts(s: System, id: string, issued: set<string>)
    requires Inv(s, issued) && id in s.store
    ensures forall p | p in s.kube.pods && p != s.store[id].podName :: s.kube.pods[p].pvc != s.store[id].pvcName
  {
    assert Agrees(s.kube, s.store[id]);
  }

  // ---- Creating ------------------------------------------------------------------------

  function SettleOp(s: System, r: Record, notReady: bool): seq<Call> {
    if r.id == "" || r.id in s.store || notReady then PurgeCalls(r.podName, r.pvcName) else []
  }

  function CreateOp(c: Config, s: System, o: CreateOptions, newId: string, now: int, f: Faults): seq<Call> {
    if |IdsIn(s.store, Running)| + |IdsIn(s.store, Creating)| >= c.maxRunning then []
    else if c.proxy && (f.assign || f.scaler) then []
    else
      var id := SessionId(c, o, newId);
      var (s1, h, fromPool) := Provision(c, s, o, id, now, f);
      (if fromPool then [] else CreateCalls(s.kube, id, false, c.proxy && c.caCert, now, f.api))
      + (if h.None? then [] else SettleOp(s1, NewRecord(c, o, id, h.value, fromPool, now), f.notReady))
  }

  lemma SettleCovered(s: System, r: Record, notReady: bool, home: string, issued: set<string>)
    requires Inv(s, issued) && Loose(s, home) && r.podName == PodName(home) && r.pvcName == PvcName(home)
    ensures Covers(s, SettleOp(s, r, notReady), Settle(s, r, notReady).0, issued)
  {
    hide PurgeCalls, PurgeSandbox, PodName, PvcName, PvcLabel;
    PurgeIsItsCalls(s.kube, r.podName, r.pvcName);
    PurgeIsSafe(s.kube, r.podName, r.pvcName, issued);
  }

  lemma CreateCovered(c: Config, s: System, o: CreateOptions, newId: string, now: int, f: Faults, issued: set<string>)
    requires Inv(s, issued)
    requires var id := SessionId(c, o, newId); IsSessionLabel(id) && !IsPoolLabel(id) && id !in s.store
    ensures Covers(s, CreateOp(c, s, o, newId, now, f), Create(c, s, o, newId, now, f).0, issued)
  {
    hide PodName, PvcName, PvcLabel, SessionIdFromPodName, IsSessionLabel, IsPoolLabel, CreateCalls, CreateSandbox;
    hide SettleOp, Settle, Perform, Safe, Inv, Loose, ResolveImage;
    var id := SessionId(c, o, newId);
    var ca := c.proxy && c.caCert;
    var (s1, h, fromPool) := Provision(c, s, o, id, now, f);
    var made := if fromPool then [] else CreateCalls(s.kube, id, false, ca, now, f.api);
    var home := if fromPool then SessionIdFromPodName(s.idle[0].podName) else id;
    if fromPool {
      AcquireKeepsInv(s, issued);
    } else {
      CreateIsItsCalls(s.kube, id, false, ca, now, f.api);
      InvIsOrdered(s, issued);
      CreateIsSafe(s.kube, id, false, ca, now, f.api, issued);
      UnclaimedSession(s, id, issued);
      GrowthKeepsInv(s, id, false, ca, now, f.api, issued);
      CreateSandboxEffect(s.kube, id, false, ca, now, f.api);
      if h.Some? { GrownIsLoose(s, s1, id, false, now); }
    }
    assert Covers(s, made, s1, issued);
    if h.Some? {
      var r := NewRecord(c, o, id, h.value, fromPool, now);
      SettleCovered(s1, r, f.notReady, home, issued);
      CoversConcat(s, made, s1, SettleOp(s1, r, f.notReady), Settle(s1, r, f.notReady).0, issued);
    }
    assert made + [] == made;
  }

  lemma InvIsOrdered(s: System, issued: set<string>)
    requires Inv(s, issued)
    ensures ClusterOk(s.kube, issued)
  {
  }

  lemma GrownIsLoose(s: System, s': System, id: string, pool: bool, now: int)
    requires Unclaimed(s, id) && s'.store == s.store && s'.idle == s.idle
    requires OneSandboxMore(s.kube, s'.kube, id, pool, now)
    ensures Loose(s', id)
  {
  }

  function WarmOp(c: Config, s: System, id: string, now: int, f: Faults): seq<Call> {
    if TargetIdle(c) <= 0 || |s.idle| >= TargetIdle(c) then []
    else
      var h := CreateSandbox(s.kube, id, true, c.poolCaCert, now, f.api).1;
      CreateCalls(s.kube, id, true, c.poolCaCert, now, f.api)
      + (if h.Some? && f.notReady then PurgeCalls(h.value.podName, h.value.pvcName) else [])
  }

  lemma WarmCovered(c: Config, s: System, id: string, now: int, f: Faults, issued: set<string>)
    requires Inv(s, issued) && IsPoolLabel(id) && id !in issued && !IsSessionLabel(id)
    ensures Covers(s, WarmOp(c, s, id, now, f), Warm(c, s, id, now, f).0, issued + {id})
  {
    hide PodName, PvcName, PvcLabel, SessionIdFromPodName, IsSessionLabel, IsPoolLabel, CreateCalls, CreateSandbox;
    hide PurgeCalls, PurgeSandbox, Perform, Safe, Inv, Loose;
    var all := issued + {id};
    var (k, h) := CreateSandbox(s.kube, id, true, c.poolCaCert, now, f.api);
    var s1 := s.(kube := k);
    IssuedGrows(s, id, issued);
    InvIsOrdered(s, all);
    CreateIsItsCalls(s.kube, id, true, c.poolCaCert, now, f.api);
    CreateIsSafe(s.kube, id, true, c.poolCaCert, now, f.api, all);
    var made := CreateCalls(s.kube, id, true, c.poolCaCert, now, f.api);
    assert Covers(s, made, s1, all);
    assert made + [] == made;
    if h.Some? && f.notReady {
      GrowthKeepsInv(s, id, true, c.poolCaCert, now, f.api, all);
      CreateSandboxEffect(s.kube, id, true, c.poolCaCert, now, f.api);
      GrownIsLoose(s, s1, id, true, now);
      LoosePurgeCovered(s1, id, all);
      CoversConcat(s, made, s1, PurgeCalls(h.value.podName, h.value.pvcName),
          s.(kube := PurgeSandbox(k, h.value.podName, h.value.pvcName)), all);
    }
  }

  lemma LoosePurgeCovered(s: System, home: string, issued: set<string>)
    requires Inv(s, issued) && Loose(s, home)
    ensures Covers(s, PurgeCalls(PodName(home), PvcName(home)),
        s.(kube := PurgeSandbox(s.kube, PodName(home), PvcName(home))), issued)
  {
    hide PurgeCalls, PurgeSandbox, PodName, PvcName, PvcLabel;
    PurgeIsItsCalls(s.kube, PodName(home), PvcName(home));
    PurgeIsSafe(s.kube, PodName(home), PvcName(home), issued);
  }

  // ---- Resuming, get-or-create -----------------------------------------------------------

  function ResumeOp(c: Config, s: System, id: string, now: int, f: Faults): seq<Call> {
    if id !in s.store || s.store[id].state != Stopped || (c.proxy && f.assign) then []
    else
      var pvcName := s.store[id].pvcName;
      var ca := c.proxy && c.caCert;
      var (k, h) := ResumeSandbox(s.kube, id, pvcName, ca, now, f.api);
      ResumeCalls(s.kube, id, pvcName, ca, now, f.api)
      + (if h.Some? && f.notReady then StopCalls(k, h.value.podName) else [])
  }

  lemma ResumeCovered(c: Config, s: System, id: string, now: int, f: Faults, issued: set<string>)
    requires Inv(s, issued)
    ensures Covers(s, ResumeOp(c, s, id, now, f), Resume(c, s, id, now, f).0, issued)
  {
    hide PodName, PvcName, PvcLabel, ResumeCalls, ResumeSandbox, StopCalls, StopSandbox, Perform, Safe, Inv;
    if id in s.store && s.store[id].state == Stopped && !(c.proxy && f.assign) {
      var pvcName := s.store[id].pvcName;
      var ca := c.proxy && c.caCert;
      var (k, h) := ResumeSandbox(s.kube, id, pvcName, ca, now, f.api);
      var s1 := s.(kube := k);
      var made := ResumeCalls(s.kube, id, pvcName, ca, now, f.api);
      StoppedMayResume(s, id, issued);
      ResumeIsItsCalls(s.kube, id, pvcName, ca, now, f.api);
      ResumeIsSafe(s.kube, id, pvcName, ca, now, f.api, issued);
      assert Covers(s, made, s1, issued);
      assert made + [] == made;
      if h.Some? && f.notReady {
        StopIsItsCalls(k, h.value.podName);
        StopIsSafe(k, h.value.podName, issued);
        CoversConcat(s, made, s1, StopCalls(k, h.value.podName), Resume(c, s, id, now, f).0, issued);
      }
    }
  }

  lemma StoppedMayResume(s: System, id: string, issued: set<string>)
    requires Inv(s, issued) && id in s.store && s.store[id].state == Stopped
    ensures LabelOk(id, false, issued)
    ensures var v := s.store[id].pvcName;
      v in s.kube.pvcs && Unmounted(s.kube, v) && v == PvcName(PvcLabel(v))
          && (PvcLabel(v) == id || IsPoolLabel(PvcLabel(v)))
  {
    assert RecordOk(s.store[id], id, issued) && Agrees(s.kube, s.store[id]);
  }

  function EnsureOp(c: Config, s: System, o: CreateOptions, recreate: bool, now: int, f: Faults): seq<Call> {
    if o.ref == "" then []
    else
      var id := Canonical(c.sum, o.ref);
      if id !in s.store then CreateOp(c, s, o, "", now, f)
      else
        var r := s.store[id];
        var again := PurgeOp(s, id) + CreateOp(c, PurgeAndForget(s, id), o, "", now, f);
        if recreate && o.image != "" && r.image != ResolveImage(c, o.image) then again
        else if r.state == Running then []
        else if r.state == Stopped then ResumeOp(c, s, id, now, f)
        else again
  }

  lemma EnsureCovered(c: Config, s: System, o: CreateOptions, recreate: bool, now: int, f: Faults, issued: set<string>)
    requires Inv(s, issued)
    ensures Covers(s, EnsureOp(c, s, o, recreate, now, f), Ensure(c, s, o, recreate, now, f).0, issued)
  {
    hide CreateOp, Create, ResumeOp, Resume, PurgeOp, PurgeSandbox, Canonical, ResolveImage, Perform, Safe, Inv;
    hide IsSessionLabel, IsPoolLabel;
    if o.ref != "" {
      var id := Canonical(c.sum, o.ref);
      CanonicalNamespace(c.sum, o.ref);
      SessionIsNotPool(id);
      if id !in s.store {
        CreateCovered(c, s, o, "", now, f, issued);
      } else {
        var s1 := PurgeAndForget(s, id);
        PurgeCovered(s, id, issued);
        ForgetKeepsInv(s, id, issued);
        CreateCovered(c, s1, o, "", now, f, issued);
        CoversConcat(s, PurgeOp(s, id), s1, CreateOp(c, s1, o, "", now, f), Create(c, s1, o, "", now, f).0, issued);
        ResumeCovered(c, s, id, now, f, issued);
      }
    }
  }

  // ---- Sweeping and reaping ------------------------------------------------------------------

  // The order in which the two listings came.
  datatype Listing = Listing(pods: seq<string>, pvcs: seq<string>)

  ghost predicate Enumerates(names: seq<string>, all: set<string>) {
    (forall x :: x in names <==> x in all) && forall i, j | 0 <= i < j < |names| :: names[i] != names[j]
  }

  function Names(names: seq<string>): set<string> { set x | x in names }

  // What a sweep purges when its listings came in this order.
  function PodPurges(k: Cluster, names: seq<string>): seq<Call>
    requires forall p | p in names :: p in k.pods
    decreases |names|
  {
    if names == [] then []
    else
      var last := |names| - 1;
      PodPurges(k, names[..last]) + PurgeCalls(names[last], PvcName(k.pods[names[last]].session))
  }

  function PvcPurges(k: Cluster, names: seq<string>): seq<Call>
    requires forall v | v in names :: v in k.pvcs
    decreases |names|
  {
    if names == [] then []
    else
      var last := |names| - 1;
      PvcPurges(k, names[..last]) + PurgeCalls(PodName(k.pvcs[names[last]].session), names[last])
  }

  // A purge of both objects named after a session label is safe: only the pod of that
  // name can mount that PVC.
  lemma NamesakePurgeCovered(s: System, x: string, issued: set<string>)
    requires ClusterOk(s.kube, issued) && !IsPoolLabel(x)
    ensures Covers(s, PurgeCalls(PodName(x), PvcName(x)), s.(kube := PurgeSandbox(s.kube, PodName(x), PvcName(x))),
        issued)
  {
    hide PurgeCalls, PurgeSandbox, PodName, PvcName, PvcLabel, IsPoolLabel;
    assert PvcLabel(PvcName(x)) == x;
    forall p | p in s.kube.pods && p != PodName(x) ensures s.kube.pods[p].pvc != PvcName(x) {
      assert PodOk(s.kube, p, issued);
    }
    PurgeIsItsCalls(s.kube, PodName(x), PvcName(x));
    PurgeIsSafe(s.kube, PodName(x), PvcName(x), issued);
  }

  lemma CoveredKeepsCluster(s: System, calls: seq<Call>, s': System, issued: set<string>)
    requires ClusterOk(s.kube, issued) && Covers(s, calls, s', issued)
    ensures ClusterOk(s'.kube, issued)
  {
    PrefixKeepsCluster(s.kube, calls, |calls|, issued);
    assert calls[..|calls|] == calls;
  }

  lemma {:induction false} PodPurgesCovered(s: System, names: seq<string>, issued: set<string>)
    requires ClusterOk(s.kube, issued)
    requires forall p | p in names :: p in s.kube.pods && !IsPoolLabel(s.kube.pods[p].session)
    ensures Names(names) <= s.kube.pods.Keys
    ensures Covers(s, PodPurges(s.kube, names), s.(kube := PurgePods(s.kube, Names(names))), issued)
    decreases |names|
  {
    hide PurgeCalls, PurgeSandbox, PurgePods, PodName, PvcName, PvcLabel, IsPoolLabel, ClusterOk, Perform, Safe;
    if names == [] {
      PurgeNoPods(s.kube);
      assert Names(names) == {};
    } else {
      var init, p := names[..|names| - 1], names[|names| - 1];
      assert p in names && forall q | q in init :: q in names;
      PodPurgesCovered(s, init, issued);
      var s1 := s.(kube := PurgePods(s.kube, Names(init)));
      CoveredKeepsCluster(s, PodPurges(s.kube, init), s1, issued);
      OrderedPod(s.kube, p, issued);
      NamesakePurgeCovered(s1, s.kube.pods[p].session, issued);
      PurgeOneMorePod(s.kube, Names(init), p);
      LastName(names);
      CoversConcat(s, PodPurges(s.kube, init), s1, PurgeCalls(p, PvcName(s.kube.pods[p].session)),
        s.(kube := PurgePods(s.kube, Names(names))), issued);
    }
  }

  lemma {:induction false} PvcPurgesCovered(s: System, names: seq<string>, issued: set<string>)
    requires ClusterOk(s.kube, issued)
    requires forall v | v in names :: v in s.kube.pvcs && !IsPoolLabel(s.kube.pvcs[v].session)
    ensures Names(names) <= s.kube.pvcs.Keys
    ensures Covers(s, PvcPurges(s.kube, names), s.(kube := PurgePvcs(s.kube, Names(names))), issued)
    decreases |names|
  {
    hide PurgeCalls, PurgeSandbox, PurgePvcs, PodName, PvcName, PvcLabel, IsPoolLabel, ClusterOk, Perform, Safe;
    if names == [] {
      PurgeNoPvcs(s.kube);
      assert Names(names) == {};
    } else {
      var init, v := names[..|names| - 1], names[|names| - 1];
      assert v in names && forall q | q in init :: q in names;
      PvcPurgesCovered(s, init, issued);
      var s1 := s.(kube := PurgePvcs(s.kube, Names(init)));
      CoveredKeepsCluster(s, PvcPurges(s.kube, init), s1, issued);
      OrderedPvc(s.kube, v, issued);
      NamesakePurgeCovered(s1, s.kube.pvcs[v].session, issued);
      PurgeOneMorePvc(s.kube, Names(init), v);
      LastName(names);
      CoversConcat(s, PvcPurges(s.kube, init), s1, PurgeCalls(PodName(s.kube.pvcs[v].session), v),
        s.(kube := PurgePvcs(s.kube, Names(names))), issued);
    }
  }

  lemma LastName(names: seq<string>)
    requires names != []
    ensures Names(names) == Names(names[..|names| - 1]) + {names[|names| - 1]}
  {
    assert names == names[..|names| - 1] + [names[|names| - 1]];
  }

  lemma OrderedPod(k: Cluster, p: string, issued: set<string>)
    requires ClusterOk(k, issued) && p in k.pods
    ensures p == PodName(k.pods[p].session) && k.pods[p].pool == IsPoolLabel(k.pods[p].session)
  {
    assert PodOk(k, p, issued);
  }

  lemma OrderedPvc(k: Cluster, v: string, issued: set<string>)
    requires ClusterOk(k, issued) && v in k.pvcs
    ensures v == PvcName(k.pvcs[v].session) && k.pvcs[v].pool == IsPoolLabel(k.pvcs[v].session)
  {
    assert PvcOk(k, v, issued);
  }

  // The PVCs a sweep purges in its second loop.
  function LeftPvcs(c: Config, s: System, now: int): set<string> {
    OrphanPvcs(c, s.store, PurgePods(s.kube, OrphanPods(c, s, now)).pvcs, PodSessions(s.kube), now)
  }

  ghost predicate ListsOrphans(c: Config, s: System, now: int, order: Listing) {
    Enumerates(order.pods, OrphanPods(c, s, now)) && Enumerates(order.pvcs, LeftPvcs(c, s, now))
  }

  function SweepOp(c: Config, s: System, now: int, order: Listing): seq<Call> {
    var k1 := PurgePods(s.kube, OrphanPods(c, s, now));
    (if forall p | p in order.pods :: p in s.kube.pods then PodPurges(s.kube, order.pods) else [])
    + (if forall v | v in order.pvcs :: v in k1.pvcs then PvcPurges(k1, order.pvcs) else [])
  }

  lemma SweepCovered(c: Config, s: System, now: int, order: Listing, issued: set<string>)
    requires ClusterOk(s.kube, issued) && ListsOrphans(c, s, now, order)
    ensures Covers(s, SweepOp(c, s, now, order), Sweep(c, s, now), issued)
  {
    hide PurgePods, PurgePvcs, PodName, PvcName, PvcLabel, IsPoolLabel, ClusterOk, Perform, Safe, PodPurges;
    hide PvcPurges, OlderThan;
    var orphans := OrphanPods(c, s, now);
    forall p | p in orphans ensures !IsPoolLabel(s.kube.pods[p].session) { OrderedPod(s.kube, p, issued); }
    assert Names(order.pods) == orphans;
    PodPurgesCovered(s, order.pods, issued);
    var s1 := s.(kube := PurgePods(s.kube, orphans));
    CoveredKeepsCluster(s, PodPurges(s.kube, order.pods), s1, issued);
    var left := LeftPvcs(c, s, now);
    forall v | v in left ensures !IsPoolLabel(s1.kube.pvcs[v].session) { OrderedPvc(s1.kube, v, issued); }
    assert Names(order.pvcs) == left;
    PvcPurgesCovered(s1, order.pvcs, issued);
    CoversConcat(s, PodPurges(s.kube, order.pods), s1, PvcPurges(s1.kube, order.pvcs), Sweep(c, s, now), issued);
  }

  function ReapRunningOp(c: Config, s: System, rs: seq<Record>, now: int): seq<Call>
    decreases |rs|
  {
    if rs == [] then []
    else
      var last := |rs| - 1;
      ReapRunningOp(c, s, rs[..last], now)
      + if !RunningExpired(c, s.active, rs[last], now) then []
        else StopOp(ReapRunning(c, s, rs[..last], now), rs[last].id)
  }

  function ReapStoppedOp(c: Config, s: System, rs: seq<Record>, now: int): seq<Call>
    decreases |rs|
  {
    if rs == [] then []
    else
      var last := |rs| - 1;
      ReapStoppedOp(c, s, rs[..last], now)
      + if StoppedExpired(c, rs[last], now) then PurgeOp(ReapStopped(c, s, rs[..last], now), rs[last].id) else []
  }

  lemma {:induction false} ReapRunningCovered(c: Config, s: System, rs: seq<Record>, now: int, issued: set<string>)
    requires Inv(s, issued)
    ensures Covers(s, ReapRunningOp(c, s, rs, now), ReapRunning(c, s, rs, now), issued)
    ensures Inv(ReapRunning(c, s, rs, now), issued)
    decreases |rs|
  {
    hide StopOp, Stop, RunningExpired, Perform, Safe, Inv;
    if rs != [] {
      var init, id := rs[..|rs| - 1], rs[|rs| - 1].id;
      var s1 := ReapRunning(c, s, init, now);
      ReapRunningCovered(c, s, init, now, issued);
      StopKeepsInv(s1, id, now, issued);
      StopCovered(s1, id, now, issued);
      CoversConcat(s, ReapRunningOp(c, s, init, now), s1, StopOp(s1, id), Stop(s1, id, now).0, issued);
      assert ReapRunningOp(c, s, init, now) + [] == ReapRunningOp(c, s, init, now);
    }
  }

  lemma {:induction false} ReapStoppedCovered(c: Config, s: System, rs: seq<Record>, now: int, issued: set<string>)
    requires Inv(s, issued)
    ensures Covers(s, ReapStoppedOp(c, s, rs, now), ReapStopped(c, s, rs, now), issued)
    ensures Inv(ReapStopped(c, s, rs, now), issued)
    decreases |rs|
  {
    hide PurgeOp, Delete, StoppedExpired, Perform, Safe, Inv;
    if rs != [] {
      var init, id := rs[..|rs| - 1], rs[|rs| - 1].id;
      var s1 := ReapStopped(c, s, init, now);
      ReapStoppedCovered(c, s, init, now, issued);
      DeleteKeepsInv(s1, id, issued);
      PurgeCovered(s1, id, issued);
      CoversConcat(s, ReapStoppedOp(c, s, init, now), s1, PurgeOp(s1, id), Delete(s1, id).0, issued);
      assert ReapStoppedOp(c, s, init, now) + [] == ReapStoppedOp(c, s, init, now);
    }
  }

  function ReapOp(c: Config, s: System, running: seq<Record>, stopped: seq<Record>, now: int,
          order: Listing): seq<Call> {
    var s1 := Sweep(c, s, now);
    SweepOp(c, s, now, order) + ReapRunningOp(c, s1, running, now)
    + ReapStoppedOp(c, ReapRunning(c, s1, running, now), stopped, now)
  }

  lemma ReapCovered(c: Config, s: System, running: seq<Record>, stopped: seq<Record>, now: int, order: Listing,
          issued: set<string>)
    requires Inv(s, issued) && ListsOrphans(c, s, now, order)
    ensures Covers(s, ReapOp(c, s, running, stopped, now, order), Reap(c, s, running, stopped, now), issued)
  {
    hide SweepOp, Sweep, ReapRunningOp, ReapRunning, ReapStoppedOp, ReapStopped, Perform, Safe, Inv, ListsOrphans;
    hide Covers;
    var s1 := Sweep(c, s, now);
    var s2 := ReapRunning(c, s1, running, now);
    InvIsOrdered(s, issued);
    SweepCovered(c, s, now, order, issued);
    SweepKeepsInv(c, s, now, issued);
    ReapRunningCovered(c, s1, running, now, issued);
    ReapStoppedCovered(c, s2, stopped, now, issued);
    CoversConcat(s, SweepOp(c, s, now, order), s1, ReapRunningOp(c, s1, running, now), s2, issued);
    CoversConcat(s, SweepOp(c, s, now, order) + ReapRunningOp(c, s1, running, now), s2,
      ReapStoppedOp(c, s2, stopped, now), ReapStopped(c, s2, stopped, now), issued);
  }
}
