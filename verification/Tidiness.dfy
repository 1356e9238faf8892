// Nothing leaks: every pod, PVC and CA secret belongs to a live session or to
// the idle pool, except after three named failures.
module Tidiness {
  import opened Wrappers
  import opened Identifiers
  import opened Platform
  import opened Lifecycle
  import opened Agreement
  import opened Requests
  import opened Sweeping
  import opened Runs

  // ---- Conservation -----------------------------------------------------------

  ghost predicate OwnedPod(s: System, p: string) {
    || (exists id :: id in s.store && s.store[id].state == Running && s.store[id].podName == p)
    || (exists i :: 0 <= i < |s.idle| && s.idle[i].podName == p)
  }

  ghost predicate OwnedPvc(s: System, v: string) {
    || (exists id :: id in s.store && s.store[id].state != Dead && s.store[id].pvcName == v)
    || (exists i :: 0 <= i < |s.idle| && s.idle[i].pvcName == v)
  }

  // Of the objects named after `tag`, the pod and the PVC have an owner, and the CA
  // secret has its pod.
  ghost predicate Neat(s: System, tag: string) {
    && (PodName(tag) in s.kube.pods ==> OwnedPod(s, PodName(tag)))
    && (PvcName(tag) in s.kube.pvcs ==> OwnedPvc(s, PvcName(tag)))
    && (CaSecretName(tag) in s.kube.secrets ==> PodName(tag) in s.kube.pods)
  }

  ghost predicate Tidy(s: System) { forall tag: string :: Neat(s, tag) }

  // ---- The failures that leave something behind --------------------------------

  // A cold create is reached: the cap and the proxy let it through and the pool
  // cannot serve it.
  ghost predicate ColdCreate(c: Config, s: System, o: CreateOptions, f: Faults) {
    && |IdsIn(s.store, Running)| + |IdsIn(s.store, Creating)| < c.maxRunning
    && !(c.proxy && (f.assign || f.scaler))
    && !ServedByPool(c, s, o)
  }

  // Its secret is refused after its PVC was made: the PVC stays.
  ghost predicate StrandsPvc(c: Config, s: System, o: CreateOptions, f: Faults) {
    ColdCreate(c, s, o, f) && c.proxy && c.caCert && f.api == SecretRefused
  }

  // A resume whose pod is refused after its secret was made: the secret stays.
  ghost predicate StrandsSecret(c: Config, s: System, id: string, f: Faults) {
    && id in s.store && s.store[id].state == Stopped && !(c.proxy && f.assign)
    && c.proxy && c.caCert && f.api == PodRefused
  }

  // The state in which get-or-create calls Create, if it does.
  ghost predicate Recreates(c: Config, s: System, o: CreateOptions, recreate: bool) {
    var id := Canonical(c.sum, o.ref);
    && o.ref != "" && id in s.store
    && ((recreate && o.image != "" && s.store[id].image != WantedImage(c, o.image))
        || s.store[id].state == Dead || s.store[id].state == Creating)
  }

  ghost predicate Leaky(c: Config, w: World, step: Step) {
    match step
    case CreateStep(o, _, f) => StrandsPvc(c, w.sys, o, f)
    case EnsureStep(o, recreate, f) =>
      var id := Canonical(c.sum, o.ref);
      if o.ref == "" then false
      else if id !in w.sys.store then StrandsPvc(c, w.sys, o, f)
      else if Recreates(c, w.sys, o, recreate) then StrandsPvc(c, PurgeAndForget(w.sys, id), o, f)
      else StrandsSecret(c, w.sys, id, f)
    case ResumeStep(id, f) => StrandsSecret(c, w.sys, id, f)
    case WarmStep(_, f) =>
      TargetIdle(c) > 0 && |w.sys.idle| < TargetIdle(c) && c.poolCaCert && f.api == SecretRefused
    case _ => false
  }

  // The id a step makes objects for.
  ghost function Culprit(c: Config, step: Step): string {
    match step
    case CreateStep(o, newId, _) => SessionId(c, o, newId)
    case EnsureStep(o, _, _) => Canonical(c.sum, o.ref)
    case ResumeStep(id, _) => id
    case WarmStep(id, _) => id
    case _ => ""
  }

  ghost predicate Leaks(c: Config, w: World, step: Step, tag: string) { Leaky(c, w, step) && Culprit(c, step) == tag }

  // ---- Tearing down -------------------------------------------------------------

  // Removing a record's pod with its secret, and the PVC if the record goes too.
  lemma TeardownNeat(s: System, s': System, id: string, tag: string, issued: set<string>)
    requires Inv(s, issued) && Neat(s, tag) && id in s.store
    requires s'.idle == s.idle && SameElsewhere(s.store, s'.store, id)
    requires s'.kube.pods == s.kube.pods - {s.store[id].podName}
    requires s'.kube.secrets <= s.kube.secrets
    requires s.store[id].podName in s.kube.pods ==>
      CaSecretName(SessionIdFromPodName(s.store[id].podName)) !in s'.kube.secrets
    requires id in s'.store ==> s'.store[id].state != Running && s'.store[id].pvcName == s.store[id].pvcName
    requires if id in s'.store && s'.store[id].state != Dead then s'.kube.pvcs == s.kube.pvcs
             else s'.kube.pvcs == s.kube.pvcs - {s.store[id].pvcName}
    ensures Neat(s', tag)
  {
    hide PodName, PvcName, PvcLabel, SessionIdFromPodName, CaSecretName, CaLabel, IsSessionLabel, IsPoolLabel, Inv;
    assert SessionIdFromPodName(PodName(tag)) == tag;
  }

  // A record that points at a live pod points at one labelled with its name.
  lemma LivePod(s: System, id: string, issued: set<string>)
    requires Inv(s, issued) && id in s.store && s.store[id].podName in s.kube.pods
    ensures var p := s.store[id].podName;
      s.kube.pods[p].session == SessionIdFromPodName(p) && SessionIdFromPodName(p) != ""
  {
    assert PodOk(s.kube, s.store[id].podName, issued);
  }

  lemma StopNeat(s: System, id: string, now: int, tag: string, issued: set<string>)
    requires Inv(s, issued) && Neat(s, tag)
    ensures Neat(Stop(s, id, now).0, tag)
  {
    hide PodName, PvcName, PvcLabel, SessionIdFromPodName, CaSecretName, CaLabel, IsSessionLabel, IsPoolLabel;
    hide StopSandbox, Neat;
    if id in s.store {
      assert Agrees(s.kube, s.store[id]) && RecordOk(s.store[id], id, issued);
      if s.store[id].state == Running {
        LivePod(s, id, issued);
        StopSandboxEffect(s.kube, s.store[id].podName);
        TeardownNeat(s, Stop(s, id, now).0, id, tag, issued);
      }
    }
  }

  lemma DeleteNeat(s: System, id: string, tag: string, issued: set<string>)
    requires Inv(s, issued) && Neat(s, tag)
    ensures Neat(Delete(s, id).0, tag)
    ensures id in s.store ==> Neat(PurgeAndForget(s, id), tag)
  {
    hide PodName, PvcName, PvcLabel, SessionIdFromPodName, CaSecretName, CaLabel, IsSessionLabel, IsPoolLabel;
    hide PurgeSandbox, Neat;
    if id in s.store {
      var r := s.store[id];
      assert RecordOk(r, id, issued);
      if r.podName in s.kube.pods { LivePod(s, id, issued); }
      PurgeSandboxEffect(s.kube, r.podName, r.pvcName);
      TeardownNeat(s, Delete(s, id).0, id, tag, issued);
      TeardownNeat(s, PurgeAndForget(s, id), id, tag, issued);
    }
  }

  // ---- Creating -------------------------------------------------------------

  lemma UnclaimedIsAbsent(s: System, id: string)
    requires Neat(s, id) && Unclaimed(s, id)
    ensures PvcName(id) !in s.kube.pvcs && PodName(id) !in s.kube.pods && CaSecretName(id) !in s.kube.secrets
  {
    hide PodName, PvcName, PvcLabel, SessionIdFromPodName, CaSecretName, CaLabel, IsSessionLabel, IsPoolLabel;
  }

  // A cold create leaves the objects of other ids alone; of its own it strands the
  // PVC exactly when the secret is refused.
  lemma CreateSandboxNeat(s: System, id: string, pool: bool, ca: bool, now: int, f: ApiFault, tag: string)
    requires Neat(s, tag) && Unclaimed(s, id)
    ensures var (k', h) := CreateSandbox(s.kube, id, pool, ca, now, f);
      && (tag != id ==> Neat(s.(kube := k'), tag))
      && (tag == id && h.Some? ==> !(ca && f == SecretRefused))
      && (tag == id && h.None? ==> (Neat(s.(kube := k'), tag) <==> !(ca && f == SecretRefused)))
  {
    hide PodName, PvcName, PvcLabel, SessionIdFromPodName, CaSecretName, CaLabel, IsSessionLabel, IsPoolLabel;
    NamesDiffer(id, tag);
    var (k', h) := CreateSandbox(s.kube, id, pool, ca, now, f);
    var s' := s.(kube := k');
    assert OwnedPod(s, PodName(tag)) == OwnedPod(s', PodName(tag))
        && OwnedPvc(s, PvcName(tag)) == OwnedPvc(s', PvcName(tag));
    if tag == id { UnclaimedIsAbsent(s, id); }
  }

  lemma NamesDiffer(a: string, b: string)
    ensures a != b ==> PodName(a) != PodName(b) && PvcName(a) != PvcName(b) && CaSecretName(a) != CaSecretName(b)
  {
    assert SessionIdFromPodName(PodName(a)) == a && PvcLabel(PvcName(a)) == a && CaLabel(CaSecretName(a)) == a;
    assert SessionIdFromPodName(PodName(b)) == b && PvcLabel(PvcName(b)) == b && CaLabel(CaSecretName(b)) == b;
  }

  lemma NoNameFromNothing()
    ensures SessionIdFromPodName("") == ""
  {
  }

  lemma IdleHandleOk(s: System, i: nat, issued: set<string>)
    requires Inv(s, issued) && i < |s.idle|
    ensures HandleOk(s, s.idle[i], issued)
  {
  }

  // An idle sandbox is neat, and giving it away leaves the others so.
  lemma AcquireNeat(s: System, tag: string, issued: set<string>)
    requires Inv(s, issued) && s.idle != []
    ensures var home := SessionIdFromPodName(s.idle[0].podName);
      && (tag == home ==> Neat(s, tag))
      && (tag != home && Neat(s, tag) ==> Neat(s.(idle := s.idle[1..]), tag))
  {
    hide PodName, PvcName, PvcLabel, SessionIdFromPodName, CaSecretName, CaLabel, IsSessionLabel, IsPoolLabel, Inv;
    var s' := s.(idle := s.idle[1..]);
    var home := SessionIdFromPodName(s.idle[0].podName);
    IdleHandleOk(s, 0, issued);
    NamesDiffer(home, tag);
    if tag != home && Neat(s, tag) {
      if i :| 0 <= i < |s.idle| && s.idle[i].podName == PodName(tag) { assert s'.idle[i - 1] == s.idle[i]; }
      if i :| 0 <= i < |s.idle| && s.idle[i].pvcName == PvcName(tag) { assert s'.idle[i - 1] == s.idle[i]; }
    }
  }

  // A record that takes over a sandbox owns it, or takes it along when it dies.
  lemma SettleNeat(s: System, r: Record, notReady: bool, home: string, tag: string)
    requires r.id !in s.store && r.id != "" && home != "" && r.podName == PodName(home) && r.pvcName == PvcName(home)
    requires PodName(home) in s.kube.pods && (tag != home ==> Neat(s, tag))
    ensures Neat(Settle(s, r, notReady).0, tag)
  {
    hide PodName, PvcName, PvcLabel, SessionIdFromPodName, CaSecretName, CaLabel, IsSessionLabel, IsPoolLabel;
    hide PurgeSandbox;
    NamesDiffer(home, tag);
    PurgeSandboxEffect(s.kube, r.podName, r.pvcName);
    var s' := Settle(s, r, notReady).0;
    assert s'.store[r.id].podName == r.podName && s'.store[r.id].pvcName == r.pvcName;
    if tag != home {
      if x :| x in s.store && s.store[x].state == Running && s.store[x].podName == PodName(tag) {
        assert s'.store[x] == s.store[x];
      }
      if x :| x in s.store && s.store[x].state != Dead && s.store[x].pvcName == PvcName(tag) {
        assert s'.store[x] == s.store[x];
      }
      assert OwnedPod(s, PodName(tag)) ==> OwnedPod(s', PodName(tag));
      assert OwnedPvc(s, PvcName(tag)) ==> OwnedPvc(s', PvcName(tag));
    }
  }

  lemma CreateNeat(c: Config, s: System, o: CreateOptions, newId: string, now: int, f: Faults, tag: string,
          issued: set<string>)
    requires Inv(s, issued) && Neat(s, tag)
    requires var id := SessionId(c, o, newId); id != "" && IsSessionLabel(id) && !IsPoolLabel(id) && id !in s.store
    ensures Neat(Create(c, s, o, newId, now, f).0, tag) <==> !(StrandsPvc(c, s, o, f) && SessionId(c, o, newId) == tag)
  {
    hide PodName, PvcName, PvcLabel, SessionIdFromPodName, CaSecretName, CaLabel, IsSessionLabel, IsPoolLabel;
    hide CreateSandbox, Settle, Neat, Inv, PoolEligible, FitsPool;
    var id := SessionId(c, o, newId);
    PoolTakesWhatFits(c, o);
    var (s1, h, fromPool) := Provision(c, s, o, id, now, f);
    if fromPool {
      var home := SessionIdFromPodName(s.idle[0].podName);
      AcquireKeepsInv(s, issued);
      AcquireNeat(s, tag, issued);
      IssuedIsNotEmpty(s, home, issued);
      SettleNeat(s1, NewRecord(c, o, id, h.value, fromPool, now), f.notReady, home, tag);
    } else {
      UnclaimedSession(s, id, issued);
      CreateSandboxEffect(s.kube, id, false, c.proxy && c.caCert, now, f.api);
      CreateSandboxNeat(s, id, false, c.proxy && c.caCert, now, f.api, tag);
      if h.Some? {
        SettleNeat(s1, NewRecord(c, o, id, h.value, fromPool, now), f.notReady, id, tag);
        RefusedSecretMakesNothing(s.kube, id, false, c.proxy && c.caCert, now, f.api);
      }
    }
  }

  lemma RefusedSecretMakesNothing(k: Cluster, id: string, pool: bool, ca: bool, now: int, f: ApiFault)
    ensures ca && f == SecretRefused ==> CreateSandbox(k, id, pool, ca, now, f).1 == None
  {
  }

  lemma IssuedIsNotEmpty(s: System, id: string, issued: set<string>)
    requires Inv(s, issued) && id in issued
    ensures id != ""
  {
    LabelsAreNotEmpty(id);
  }

  lemma WarmNeat(c: Config, s: System, id: string, now: int, f: Faults, tag: string, issued: set<string>)
    requires Inv(s, issued) && Neat(s, tag) && IsPoolLabel(id) && id !in issued && !IsSessionLabel(id)
    ensures Neat(Warm(c, s, id, now, f).0, tag)
      <==> !(TargetIdle(c) > 0 && |s.idle| < TargetIdle(c) && c.poolCaCert && f.api == SecretRefused && id == tag)
  {
    hide PodName, PvcName, PvcLabel, SessionIdFromPodName, CaSecretName, CaLabel, IsSessionLabel, IsPoolLabel;
    hide CreateSandbox, Neat, Inv;
    LabelsAreNotEmpty(id);
    IssuedGrows(s, id, issued);
    CreateSandboxNeat(s, id, true, c.poolCaCert, now, f.api, tag);
    CreateSandboxEffect(s.kube, id, true, c.poolCaCert, now, f.api);
    RefusedSecretMakesNothing(s.kube, id, true, c.poolCaCert, now, f.api);
    var (k, h) := CreateSandbox(s.kube, id, true, c.poolCaCert, now, f.api);
    if h.Some? {
      WarmedNeat(s, k, id, tag);
    }
  }

  // The warm sandbox is purged without trace or joins the idle list.
  lemma WarmedNeat(s: System, k: Cluster, id: string, tag: string)
    requires id != "" && PodName(id) in k.pods && (tag != id ==> Neat(s.(kube := k), tag))
    ensures Neat(s.(kube := PurgeSandbox(k, PodName(id), PvcName(id))), tag)
    ensures Neat(s.(kube := k, idle := s.idle + [Handle(PodName(id), PvcName(id))]), tag)
  {
    hide PodName, PvcName, PvcLabel, SessionIdFromPodName, CaSecretName, CaLabel, IsSessionLabel, IsPoolLabel;
    hide PurgeSandbox;
    NamesDiffer(id, tag);
    PurgeSandboxEffect(k, PodName(id), PvcName(id));
    var s1, s2 := s.(kube := k), s.(kube := PurgeSandbox(k, PodName(id), PvcName(id)));
    assert OwnedPod(s1, PodName(tag)) == OwnedPod(s2, PodName(tag))
        && OwnedPvc(s1, PvcName(tag)) == OwnedPvc(s2, PvcName(tag));
    var s3 := s.(kube := k, idle := s.idle + [Handle(PodName(id), PvcName(id))]);
    assert s3.idle[|s.idle|] == Handle(PodName(id), PvcName(id));
    if i :| 0 <= i < |s.idle| && s.idle[i].podName == PodName(tag) { assert s3.idle[i] == s.idle[i]; }
    if i :| 0 <= i < |s.idle| && s.idle[i].pvcName == PvcName(tag) { assert s3.idle[i] == s.idle[i]; }
    assert OwnedPod(s1, PodName(tag)) ==> OwnedPod(s3, PodName(tag));
    assert OwnedPvc(s1, PvcName(tag)) ==> OwnedPvc(s3, PvcName(tag));
  }

  // ---- Resuming ---------------------------------------------------------------

  lemma StoppedHasNoPod(s: System, id: string, issued: set<string>)
    requires Inv(s, issued) && Neat(s, id) && id in s.store && s.store[id].state == Stopped
    ensures PodName(id) !in s.kube.pods && CaSecretName(id) !in s.kube.secrets
  {
    hide PodName, PvcName, PvcLabel, SessionIdFromPodName, CaSecretName, CaLabel, IsSessionLabel, IsPoolLabel;
    assert RecordOk(s.store[id], id, issued);
    forall x | x in s.store && s.store[x].state == Running ensures s.store[x].podName != PodName(id) {
      NamesApart(s, x, id, issued);
    }
    forall i | 0 <= i < |s.idle| ensures s.idle[i].podName != PodName(id) { IdleApart(s, id, i, issued); }
  }

  lemma ResumeNeat(c: Config, s: System, id: string, now: int, f: Faults, tag: string, issued: set<string>)
    requires Inv(s, issued) && Neat(s, tag)
    ensures Neat(Resume(c, s, id, now, f).0, tag) <==> !(StrandsSecret(c, s, id, f) && id == tag)
  {
    hide PodName, PvcName, PvcLabel, SessionIdFromPodName, CaSecretName, CaLabel, IsSessionLabel, IsPoolLabel, Inv;
    hide Neat, ResumeSandbox, StopSandbox;
    if id in s.store && s.store[id].state == Stopped && !(c.proxy && f.assign) {
      RecordIsSession(s, id, issued);
      LabelsAreNotEmpty(id);
      if tag == id {
        StoppedHasNoPod(s, id, issued);
        OwnResumeNeat(c, s, id, now, f);
      } else {
        OtherResumeNeat(c, s, id, now, f, tag);
      }
    }
  }

  lemma RecordIsSession(s: System, id: string, issued: set<string>)
    requires Inv(s, issued) && id in s.store
    ensures IsSessionLabel(id)
  {
    assert RecordOk(s.store[id], id, issued);
  }

  lemma OwnResumeNeat(c: Config, s: System, id: string, now: int, f: Faults)
    requires Neat(s, id) && id in s.store && s.store[id].state == Stopped && !(c.proxy && f.assign) && id != ""
    requires PodName(id) !in s.kube.pods && CaSecretName(id) !in s.kube.secrets
    ensures Neat(Resume(c, s, id, now, f).0, id) <==> !StrandsSecret(c, s, id, f)
  {
    hide PodName, PvcName, PvcLabel, SessionIdFromPodName, CaSecretName, CaLabel, IsSessionLabel, IsPoolLabel;
    hide StopSandbox;
    var s' := Resume(c, s, id, now, f).0;
    var (k, h) := ResumeSandbox(s.kube, id, s.store[id].pvcName, c.proxy && c.caCert, now, f.api);
    if h.Some? { StopSandboxEffect(k, PodName(id)); }
    assert s'.store.Keys == s.store.Keys && s'.idle == s.idle && s'.store[id].state in {Running, Stopped};
    PvcOwnerStays(s, s', id, PvcName(id));
    if h.Some? && !f.notReady { assert s'.store[id].podName == PodName(id); }
  }

  lemma OtherResumeNeat(c: Config, s: System, id: string, now: int, f: Faults, tag: string)
    requires Neat(s, tag) && id in s.store && s.store[id].state == Stopped && !(c.proxy && f.assign) && id != ""
    requires tag != id
    ensures Neat(Resume(c, s, id, now, f).0, tag)
  {
    hide PodName, PvcName, PvcLabel, SessionIdFromPodName, CaSecretName, CaLabel, IsSessionLabel, IsPoolLabel;
    hide StopSandbox;
    NamesDiffer(id, tag);
    var s' := Resume(c, s, id, now, f).0;
    var (k, h) := ResumeSandbox(s.kube, id, s.store[id].pvcName, c.proxy && c.caCert, now, f.api);
    if h.Some? { StopSandboxEffect(k, PodName(id)); }
    PvcOwnerStays(s, s', id, PvcName(tag));
    PodOwnerStays(s, s', id, PodName(tag));
  }

  lemma PodOwnerStays(s: System, s': System, id: string, p: string)
    requires id in s.store && s.store[id].state != Running && s'.idle == s.idle && SameElsewhere(s.store, s'.store, id)
    ensures OwnedPod(s, p) ==> OwnedPod(s', p)
  {
  }

  lemma PvcOwnerStays(s: System, s': System, id: string, v: string)
    requires id in s.store && id in s'.store && s'.store[id].state != Dead
    requires s'.store[id].pvcName == s.store[id].pvcName
    requires s'.idle == s.idle && SameElsewhere(s.store, s'.store, id)
    ensures OwnedPvc(s, v) ==> OwnedPvc(s', v)
  {
  }

  // ---- Sweeping, reaping, touching -----------------------------------------------

  lemma OwnedPodIsSpared(s: System, p: string, issued: set<string>)
    requires Inv(s, issued) && p in s.kube.pods && OwnedPod(s, p)
    ensures s.kube.pods[p].pool || s.kube.pods[p].session in s.store
  {
    hide PodName, PvcName, PvcLabel, SessionIdFromPodName, CaSecretName, CaLabel, IsSessionLabel, IsPoolLabel;
    assert PodOk(s.kube, p, issued);
    if id :| id in s.store && s.store[id].podName == p {
      RecordNamesProtected(s, id, issued);
    } else {
      var i :| 0 <= i < |s.idle| && s.idle[i].podName == p;
      assert HandleOk(s, s.idle[i], issued);
    }
  }

  lemma OwnedPvcIsSpared(s: System, v: string, issued: set<string>)
    requires Inv(s, issued) && v in s.kube.pvcs && OwnedPvc(s, v)
    ensures s.kube.pvcs[v].pool || s.kube.pvcs[v].session in s.store
  {
    hide PodName, PvcName, PvcLabel, SessionIdFromPodName, CaSecretName, CaLabel, IsSessionLabel, IsPoolLabel;
    assert PvcOk(s.kube, v, issued);
    if id :| id in s.store && s.store[id].pvcName == v {
      RecordNamesProtected(s, id, issued);
    } else {
      var i :| 0 <= i < |s.idle| && s.idle[i].pvcName == v;
      assert HandleOk(s, s.idle[i], issued);
    }
  }

  lemma SweepNeat(c: Config, s: System, now: int, tag: string, issued: set<string>)
    requires Inv(s, issued) && Neat(s, tag)
    ensures Neat(Sweep(c, s, now), tag)
  {
    hide PodName, PvcName, PvcLabel, SessionIdFromPodName, CaSecretName, CaLabel, IsSessionLabel, IsPoolLabel, Sweep;
    var s' := Sweep(c, s, now);
    SweepIsExact(c, s, now, issued);
    SweepOnlyDropsSecrets(c, s, now);
    assert OwnedPod(s, PodName(tag)) == OwnedPod(s', PodName(tag))
        && OwnedPvc(s, PvcName(tag)) == OwnedPvc(s', PvcName(tag));
    if CaSecretName(tag) in s'.kube.secrets {
      OwnedPodIsSpared(s, PodName(tag), issued);
      assert PodOk(s.kube, PodName(tag), issued);
    }
  }

  lemma SweepOnlyDropsSecrets(c: Config, s: System, now: int)
    ensures Sweep(c, s, now).kube.secrets <= s.kube.secrets
  {
  }

  // In a tidy system the sweep finds nothing to do.
  lemma TidySweepIsIdle(c: Config, s: System, now: int, issued: set<string>)
    requires Inv(s, issued) && Tidy(s)
    ensures Sweep(c, s, now) == s
  {
    hide PodName, PvcName, PvcLabel, SessionIdFromPodName, CaSecretName, CaLabel, IsSessionLabel, IsPoolLabel, Inv;
    hide OlderThan, Tidy;
    TidyIsSpared(s, issued);
    var orphans := OrphanPods(c, s, now);
    assert orphans == {};
    var k1 := PurgePods(s.kube, orphans);
    assert k1 == s.kube;
    assert OrphanPvcs(c, s.store, k1.pvcs, PodSessions(s.kube), now) == {};
  }

  lemma TidyIsSpared(s: System, issued: set<string>)
    requires Inv(s, issued) && Tidy(s)
    ensures forall p | p in s.kube.pods :: s.kube.pods[p].pool || s.kube.pods[p].session in s.store
    ensures forall v | v in s.kube.pvcs :: s.kube.pvcs[v].pool || s.kube.pvcs[v].session in s.store
  {
    hide PodName, PvcName, PvcLabel, SessionIdFromPodName, CaSecretName, CaLabel, IsSessionLabel, IsPoolLabel;
    forall p | p in s.kube.pods ensures s.kube.pods[p].pool || s.kube.pods[p].session in s.store {
      assert PodOk(s.kube, p, issued) && Neat(s, s.kube.pods[p].session);
      OwnedPodIsSpared(s, p, issued);
    }
    forall v | v in s.kube.pvcs ensures s.kube.pvcs[v].pool || s.kube.pvcs[v].session in s.store {
      assert PvcOk(s.kube, v, issued) && Neat(s, s.kube.pvcs[v].session);
      OwnedPvcIsSpared(s, v, issued);
    }
  }

  lemma {:induction false} ReapRunningNeat(c: Config, s: System, rs: seq<Record>, now: int, tag: string,
          issued: set<string>)
    requires Inv(s, issued) && Neat(s, tag)
    ensures Neat(ReapRunning(c, s, rs, now), tag)
  {
    hide Neat, Inv, Stop;
    if rs != [] {
      ReapRunningNeat(c, s, rs[..|rs| - 1], now, tag, issued);
      ReapRunningKeepsInv(c, s, rs[..|rs| - 1], now, issued);
      StopNeat(ReapRunning(c, s, rs[..|rs| - 1], now), rs[|rs| - 1].id, now, tag, issued);
    }
  }

  lemma {:induction false} ReapStoppedNeat(c: Config, s: System, rs: seq<Record>, now: int, tag: string,
          issued: set<string>)
    requires Inv(s, issued) && Neat(s, tag)
    ensures Neat(ReapStopped(c, s, rs, now), tag)
  {
    hide Neat, Inv, Delete;
    if rs != [] {
      ReapStoppedNeat(c, s, rs[..|rs| - 1], now, tag, issued);
      ReapStoppedKeepsInv(c, s, rs[..|rs| - 1], now, issued);
      DeleteNeat(ReapStopped(c, s, rs[..|rs| - 1], now), rs[|rs| - 1].id, tag, issued);
    }
  }

  lemma TouchNeat(s: System, active: map<string, nat>, id: string, now: int, tag: string)
    requires Neat(s, tag)
    ensures Neat(Touch(s.(active := active), id, now), tag)
  {
    hide PodName, PvcName, PvcLabel, SessionIdFromPodName, CaSecretName, CaLabel, IsSessionLabel, IsPoolLabel;
    var s' := Touch(s.(active := active), id, now);
    if x :| x in s.store && s.store[x].state == Running && s.store[x].podName == PodName(tag) {
      assert s'.store[x].podName == PodName(tag);
    }
    if x :| x in s.store && s.store[x].state != Dead && s.store[x].pvcName == PvcName(tag) {
      assert s'.store[x].pvcName == PvcName(tag);
    }
    assert OwnedPod(s, PodName(tag)) ==> OwnedPod(s', PodName(tag));
    assert OwnedPvc(s, PvcName(tag)) ==> OwnedPvc(s', PvcName(tag));
  }

  // ---- Exactly which steps leave something behind --------------------------------

  lemma EnsureNeat(c: Config, w: World, o: CreateOptions, recreate: bool, f: Faults, tag: string)
    requires Good(w) && Neat(w.sys, tag)
    ensures Neat(Ensure(c, w.sys, o, recreate, w.now, f).0, tag) <==> !Leaks(c, w, EnsureStep(o, recreate, f), tag)
  {
    hide PodName, PvcName, PvcLabel, SessionIdFromPodName, CaSecretName, CaLabel, IsSessionLabel, IsPoolLabel, Neat;
    hide Inv, Create, Resume, StrandsPvc, StrandsSecret, Canonical, ResolveImage, WantedImage;
    var s := w.sys;
    if o.ref != "" {
      var id := Canonical(c.sum, o.ref);
      ImageIsWanted(c, o.image);
      CanonicalNamespace(c.sum, o.ref);
      SessionIsNotPool(id);
      if id !in s.store {
        CreateNeat(c, s, o, "", w.now, f, tag, w.issued);
      } else if Recreates(c, s, o, recreate) {
        DeleteNeat(s, id, tag, w.issued);
        ForgetKeepsInv(s, id, w.issued);
        CreateNeat(c, PurgeAndForget(s, id), o, "", w.now, f, tag, w.issued);
      } else {
        ResumeNeat(c, s, id, w.now, f, tag, w.issued);
        OnlyStoppedStrands(c, s, id, w.now, f);
      }
    }
  }

  lemma OnlyStoppedStrands(c: Config, s: System, id: string, now: int, f: Faults)
    requires id in s.store
    ensures s.store[id].state == Running ==> Resume(c, s, id, now, f).0 == s && !StrandsSecret(c, s, id, f)
  {
  }

  // Where the objects named after an id were all owned, a step leaves one without
  // owner exactly when it was making objects for that id and the API server refused
  // a cold create's secret, a warm create's secret or a resume's pod.
  lemma NeatnessIsLostExactly(c: Config, w: World, step: Step, tag: string)
    requires Good(w) && Neat(w.sys, tag) && Allowed(c, w, step) && !Restarts(step)
    ensures Neat(Next(c, w, step), tag) <==> !Leaks(c, w, step, tag)
  {
    hide PodName, PvcName, PvcLabel, SessionIdFromPodName, CaSecretName, CaLabel, IsSessionLabel, IsPoolLabel, Neat;
    hide Inv, Create, Ensure, Resume, Stop, Delete, Touch, Warm, Sweep, StrandsPvc, StrandsSecret, IsRandomId;
    hide IsWarmId, Canonical;
    var s := w.sys;
    match step
    case CreateStep(o, newId, f) =>
      RandomNamespace(newId);
      SessionIsNotPool(newId);
      CreateNeat(c, s, o, newId, w.now, f, tag, w.issued);
    case EnsureStep(o, recreate, f) => EnsureNeat(c, w, o, recreate, f, tag);
    case ClearStep(ref) => DeleteNeat(s, Canonical(c.sum, ref), tag, w.issued);
    case StopStep(id) => StopNeat(s, id, w.now, tag, w.issued);
    case ResumeStep(id, f) => ResumeNeat(c, s, id, w.now, f, tag, w.issued);
    case DeleteStep(id) => DeleteNeat(s, id, tag, w.issued);
    case TouchStep(id) =>
      TouchNeat(s, s.active, id, w.now, tag);
      assert s.(active := s.active) == s;
    case BeginStep(id) => TouchNeat(s, s.active[id := ActiveCalls(s.active, id) + 1], id, w.now, tag);
    case EndStep(id) =>
      var n := ActiveCalls(s.active, id);
      TouchNeat(s, if n <= 1 then s.active - {id} else s.active[id := n - 1], id, w.now, tag);
    case WarmStep(id, f) =>
      WarmNamespace(id);
      PoolIsNotSession(id);
      WarmNeat(c, s, id, w.now, f, tag, w.issued);
    case SweepStep => SweepNeat(c, s, w.now, tag, w.issued);
    case ReapStep(running, stopped) =>
      var s1 := Sweep(c, s, w.now);
      SweepNeat(c, s, w.now, tag, w.issued);
      SweepKeepsInv(c, s, w.now, w.issued);
      ReapRunningNeat(c, s1, running, w.now, tag, w.issued);
      ReapRunningKeepsInv(c, s1, running, w.now, w.issued);
      ReapStoppedNeat(c, ReapRunning(c, s1, running, w.now), stopped, w.now, tag, w.issued);
    case TickStep(_) =>
  }

  // So from a tidy system a step leaves anything without owner exactly after one of
  // those failures.
  lemma TidinessIsLostExactly(c: Config, w: World, step: Step)
    requires Good(w) && Tidy(w.sys) && Allowed(c, w, step) && !Restarts(step)
    ensures Tidy(Next(c, w, step)) <==> !Leaky(c, w, step)
  {
    hide Neat, Inv, Next, Leaky, Allowed, Culprit;
    forall tag: string ensures Neat(Next(c, w, step), tag) <==> !Leaks(c, w, step, tag) {
      assert Neat(w.sys, tag);
      NeatnessIsLostExactly(c, w, step, tag);
    }
    assert Leaky(c, w, step) ==> Leaks(c, w, step, Culprit(c, step)) && !Neat(Next(c, w, step), Culprit(c, step));
  }

  // ---- Runs without those failures ------------------------------------------------

  ghost predicate CleanRun(c: Config, w: World, steps: seq<Step>)
    decreases |steps|
  {
    steps == [] ||
    (Allowed(c, w, steps[0]) && !Restarts(steps[0]) && !Leaky(c, w, steps[0])
        && CleanRun(c, Apply(c, w, steps[0]), steps[1..]))
  }

  lemma {:induction false} NothingLeaks(c: Config, w: World, steps: seq<Step>)
    requires Good(w) && Tidy(w.sys) && CleanRun(c, w, steps)
    ensures Good(Run(c, w, steps)) && Tidy(Run(c, w, steps).sys)
    decreases |steps|
  {
    hide Good, Tidy, Next, Leaky, Allowed;
    if steps != [] {
      StepKeepsGood(c, w, steps[0]);
      TidinessIsLostExactly(c, w, steps[0]);
      NothingLeaks(c, Apply(c, w, steps[0]), steps[1..]);
    }
  }

  lemma InitialIsTidy(now: int)
    ensures Good(Initial(now)) && Tidy(Initial(now).sys)
  {
  }

  // From the start on, then, every object belongs to a live session or to the idle pool.
  lemma NothingLeaksFromStart(c: Config, now: int, steps: seq<Step>)
    requires CleanRun(c, Initial(now), steps)
    ensures Tidy(Run(c, Initial(now), steps).sys)
  {
    hide Tidy, Run, CleanRun;
    InitialIsTidy(now);
    NothingLeaks(c, Initial(now), steps);
  }
}
