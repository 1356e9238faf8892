// The invariant that ties the session store to the platform, kept by every
// whole operation whatever the platform refuses along the way.
module Agreement {
  import opened Identifiers
  import opened Platform
  import opened Lifecycle

  // ---- The invariant -------------------------------------------------------

  // `issued` holds the warm-pool ids handed out so far.
  ghost predicate LabelOk(id: string, pool: bool, issued: set<string>) {
    && pool == IsPoolLabel(id)
    && (if pool then id in issued else IsSessionLabel(id))
  }

  // A pod mounts the PVC of its own label, or, once resumed, the PVC its session
  // took over from the pool.
  ghost predicate PodOk(k: Cluster, p: string, issued: set<string>)
    requires p in k.pods
  {
    var pod := k.pods[p];
    && p == PodName(pod.session)
    && LabelOk(pod.session, pod.pool, issued)
    && pod.pvc in k.pvcs
    && pod.pvc == PvcName(PvcLabel(pod.pvc))
    && (PvcLabel(pod.pvc) == pod.session || (!pod.pool && IsPoolLabel(PvcLabel(pod.pvc))))
  }

  ghost predicate PvcOk(k: Cluster, v: string, issued: set<string>)
    requires v in k.pvcs
  {
    v == PvcName(k.pvcs[v].session) && LabelOk(k.pvcs[v].session, k.pvcs[v].pool, issued)
  }

  ghost predicate ClusterOk(k: Cluster, issued: set<string>) {
    && (forall p | p in k.pods :: PodOk(k, p, issued))
    && (forall v | v in k.pvcs :: PvcOk(k, v, issued))
    && (forall p, q | p in k.pods && q in k.pods && k.pods[p].pvc == k.pods[q].pvc :: p == q)
  }

  // The label a record's PVC was created under: its own id or a pool id.
  ghost function Home(r: Record): string { PvcLabel(r.pvcName) }

  ghost predicate RecordOk(r: Record, id: string, issued: set<string>) {
    && r.id == id && IsSessionLabel(id)
    && r.pvcName == PvcName(Home(r))
    && (Home(r) == id || Home(r) in issued)
    && r.podName in {"", PodName(id), PodName(Home(r))}
  }

  ghost predicate Unmounted(k: Cluster, v: string) { forall p | p in k.pods :: k.pods[p].pvc != v }

  // What the platform holds for a record in each state.
  ghost predicate Agrees(k: Cluster, r: Record) {
    match r.state
    case Running => r.podName in k.pods && k.pods[r.podName].pvc == r.pvcName && r.pvcName in k.pvcs
    case Stopped => r.pvcName in k.pvcs && Unmounted(k, r.pvcName)
    case Dead => r.podName !in k.pods && r.pvcName !in k.pvcs && Unmounted(k, r.pvcName)
    case Creating => false
  }

  ghost predicate StoreOk(s: System, issued: set<string>) {
    && (forall id | id in s.store :: RecordOk(s.store[id], id, issued) && Agrees(s.kube, s.store[id]))
    && (forall a, b | a in s.store && b in s.store && s.store[a].pvcName == s.store[b].pvcName :: a == b)
  }

  ghost predicate HandleOk(s: System, h: Handle, issued: set<string>) {
    var id := SessionIdFromPodName(h.podName);
    && id in issued && h == Handle(PodName(id), PvcName(id))
    && h.podName in s.kube.pods && s.kube.pods[h.podName].pvc == h.pvcName
    && (forall x | x in s.store :: s.store[x].pvcName != h.pvcName)
  }

  ghost predicate IdleOk(s: System, issued: set<string>) {
    && (forall i | 0 <= i < |s.idle| :: HandleOk(s, s.idle[i], issued))
    && (forall i, j | 0 <= i < j < |s.idle| :: s.idle[i] != s.idle[j])
  }

  ghost predicate Inv(s: System, issued: set<string>) {
    && (forall id | id in issued :: IsPoolLabel(id))
    && ClusterOk(s.kube, issued) && StoreOk(s, issued) && IdleOk(s, issued)
  }

  // ---- Single runtime calls ------------------------------------------------

  // Removing a pod, and a PVC no other pod mounts, keeps the platform in order.
  lemma RemovalKeepsCluster(k: Cluster, k': Cluster, pods: set<string>, pvcs: set<string>, issued: set<string>)
    requires ClusterOk(k, issued)
    requires k'.pods == k.pods - pods && k'.pvcs == k.pvcs - pvcs
    requires forall v | v in pvcs :: Unmounted(k', v)
    ensures ClusterOk(k', issued)
  {
    forall p | p in k'.pods ensures PodOk(k', p, issued) {
      assert PodOk(k, p, issued);
      assert k'.pods[p].pvc !in pvcs;
    }
    forall v | v in k'.pvcs ensures PvcOk(k', v, issued) {
      assert PvcOk(k, v, issued);
    }
  }

  lemma FreshPvcIsUnmounted(k: Cluster, v: string, issued: set<string>)
    requires ClusterOk(k, issued) && v !in k.pvcs
    ensures Unmounted(k, v)
  {
    forall p | p in k.pods ensures k.pods[p].pvc != v { assert PodOk(k, p, issued); }
  }

  lemma AddPvc(k: Cluster, k': Cluster, id: string, pool: bool, now: int, issued: set<string>)
    requires ClusterOk(k, issued) && LabelOk(id, pool, issued) && PvcName(id) !in k.pvcs
    requires k'.pods == k.pods && k'.pvcs == k.pvcs[PvcName(id) := Pvc(id, pool, now)]
    ensures ClusterOk(k', issued) && Unmounted(k', PvcName(id))
  {
    FreshPvcIsUnmounted(k, PvcName(id), issued);
    forall p | p in k'.pods ensures PodOk(k', p, issued) { assert PodOk(k, p, issued); }
    forall v | v in k'.pvcs ensures PvcOk(k', v, issued) {
      if v != PvcName(id) { assert PvcOk(k, v, issued); }
    }
  }

  // A pod may join when it mounts an unmounted PVC of its own or of the pool.
  lemma AddPod(k: Cluster, k': Cluster, id: string, pod: Pod, issued: set<string>)
    requires ClusterOk(k, issued) && LabelOk(id, pod.pool, issued) && PodName(id) !in k.pods
    requires pod.session == id && pod.pvc in k.pvcs && Unmounted(k, pod.pvc)
    requires pod.pvc == PvcName(PvcLabel(pod.pvc))
    requires PvcLabel(pod.pvc) == id || (!pod.pool && IsPoolLabel(PvcLabel(pod.pvc)))
    requires k'.pods == k.pods[PodName(id) := pod] && k'.pvcs == k.pvcs
    ensures ClusterOk(k', issued)
  {
    forall p | p in k'.pods ensures PodOk(k', p, issued) {
      if p != PodName(id) { assert PodOk(k, p, issued); }
    }
    forall v | v in k'.pvcs ensures PvcOk(k', v, issued) { assert PvcOk(k, v, issued); }
  }

  ghost predicate OnePvcMore(k: Cluster, k': Cluster, id: string, pool: bool, now: int) {
    k'.pods == k.pods && PvcName(id) !in k.pvcs && k'.pvcs == k.pvcs[PvcName(id) := Pvc(id, pool, now)]
  }

  ghost predicate OneSandboxMore(k: Cluster, k': Cluster, id: string, pool: bool, now: int) {
    && PodName(id) !in k.pods && PvcName(id) !in k.pvcs
    && k'.pods == k.pods[PodName(id) := Pod(id, pool, PvcName(id), now)]
    && k'.pvcs == k.pvcs[PvcName(id) := Pvc(id, pool, now)]
  }

  // A cold create succeeds with exactly one new pod and PVC, or leaves the pods
  // alone and at most its own new PVC behind.
  lemma CreateSandboxEffect(k: Cluster, id: string, pool: bool, ca: bool, now: int, f: ApiFault)
    ensures var (k', h) := CreateSandbox(k, id, pool, ca, now, f);
      if h.Some? then h.value == Handle(PodName(id), PvcName(id)) && OneSandboxMore(k, k', id, pool, now)
      else (k'.pods == k.pods && k'.pvcs == k.pvcs) || OnePvcMore(k, k', id, pool, now)
  {
  }

  lemma CreateSandboxKeepsCluster(k: Cluster, id: string, pool: bool, ca: bool, now: int, f: ApiFault,
          issued: set<string>)
    requires ClusterOk(k, issued) && LabelOk(id, pool, issued)
    ensures ClusterOk(CreateSandbox(k, id, pool, ca, now, f).0, issued)
  {
    var (k', h) := CreateSandbox(k, id, pool, ca, now, f);
    CreateSandboxEffect(k, id, pool, ca, now, f);
    if h.Some? {
      var k1 := k.(pvcs := k'.pvcs);
      AddPvc(k, k1, id, pool, now, issued);
      AddPod(k1, k', id, Pod(id, pool, PvcName(id), now), issued);
    } else if k'.pvcs != k.pvcs {
      AddPvc(k, k', id, pool, now, issued);
    } else {
      RemovalKeepsCluster(k, k', {}, {}, issued);
    }
  }

  // ---- Framing -------------------------------------------------------------

  // The pod and the PVC of these names are as before, no other pod changed, and
  // nothing new is mounted on the PVC.
  ghost predicate Untouched(k: Cluster, k': Cluster, podName: string, pvcName: string) {
    && (podName in k.pods <==> podName in k'.pods)
    && (pvcName in k.pvcs <==> pvcName in k'.pvcs)
    && (forall p | p in k.pods && p in k'.pods :: k'.pods[p] == k.pods[p])
    && (forall p | p in k'.pods && p !in k.pods :: k'.pods[p].pvc != pvcName)
  }

  ghost predicate SameElsewhere(a: Store, b: Store, id: string) {
    forall x | x != id :: (x in a <==> x in b) && (x in a ==> a[x] == b[x])
  }

  lemma StoreFrame(s: System, s': System, id: string, issued: set<string>)
    requires StoreOk(s, issued) && SameElsewhere(s.store, s'.store, id)
    requires forall x | x in s.store && x != id :: Untouched(s.kube, s'.kube, s.store[x].podName, s.store[x].pvcName)
    requires id in s'.store ==> RecordOk(s'.store[id], id, issued) && Agrees(s'.kube, s'.store[id])
    requires id in s'.store ==> forall x | x in s.store && x != id :: s.store[x].pvcName != s'.store[id].pvcName
    ensures StoreOk(s', issued)
  {
    forall x | x in s'.store ensures RecordOk(s'.store[x], x, issued) && Agrees(s'.kube, s'.store[x]) {
      if x != id {
        assert RecordOk(s.store[x], x, issued) && Agrees(s.kube, s.store[x]);
        assert Untouched(s.kube, s'.kube, s.store[x].podName, s.store[x].pvcName);
      }
    }
  }

  lemma IdleFrame(s: System, s': System, issued: set<string>)
    requires IdleOk(s, issued) && s'.idle == s.idle
    requires forall i | 0 <= i < |s.idle| ::
      s.idle[i].podName in s'.kube.pods && s'.kube.pods[s.idle[i].podName] == s.kube.pods[s.idle[i].podName]
    requires forall x, i | x in s'.store && 0 <= i < |s.idle| :: s'.store[x].pvcName != s.idle[i].pvcName
    ensures IdleOk(s', issued)
  {
    forall i | 0 <= i < |s'.idle| ensures HandleOk(s', s'.idle[i], issued) {
      assert HandleOk(s, s.idle[i], issued);
    }
  }

  // Two sessions never meet in a name, nor does a session meet another's id.
  lemma NamesApart(s: System, a: string, b: string, issued: set<string>)
    requires Inv(s, issued) && a in s.store && b in s.store && a != b
    ensures s.store[a].pvcName != s.store[b].pvcName
    ensures s.store[a].podName != "" ==> s.store[a].podName != s.store[b].podName
    ensures s.store[a].podName != PodName(b) && s.store[a].pvcName != PvcName(b)
  {
    assert RecordOk(s.store[a], a, issued) && RecordOk(s.store[b], b, issued);
  }

  lemma IdleApart(s: System, id: string, i: nat, issued: set<string>)
    requires Inv(s, issued) && i < |s.idle|
    ensures IsSessionLabel(id) ==> PodName(id) != s.idle[i].podName && PvcName(id) != s.idle[i].pvcName
    ensures id in s.store ==> s.store[id].podName != s.idle[i].podName && s.store[id].pvcName != s.idle[i].pvcName
  {
    assert HandleOk(s, s.idle[i], issued);
    if id in s.store { assert RecordOk(s.store[id], id, issued); }
  }

  lemma LabelsAreNotEmpty(id: string)
    requires IsSessionLabel(id) || IsPoolLabel(id)
    ensures id != ""
  {
  }

  lemma DrawnIsNoSession(s: System, home: string, issued: set<string>)
    requires Inv(s, issued) && home in issued
    ensures !IsSessionLabel(home)
  {
  }

  lemma EmptyNameIsNoPod(k: Cluster, issued: set<string>)
    requires ClusterOk(k, issued)
    ensures "" !in k.pods
  {
    forall p | p in k.pods ensures p != "" { assert PodOk(k, p, issued); }
  }

  // ---- Tearing down the sandbox of one record -------------------------------

  lemma TeardownUnmounts(k: Cluster, k': Cluster, r: Record, issued: set<string>)
    requires ClusterOk(k, issued) && Agrees(k, r) && k'.pods == k.pods - {r.podName}
    ensures Unmounted(k', r.pvcName)
  {
    hide PodName, PvcName, PvcLabel, SessionIdFromPodName, IsSessionLabel, IsPoolLabel, PodOk, PvcOk;
  }

  lemma OthersAreUntouched(s: System, k': Cluster, id: string, x: string, pvcs: set<string>, issued: set<string>)
    requires Inv(s, issued) && id in s.store && x in s.store && x != id && pvcs <= {s.store[id].pvcName}
    requires k'.pods == s.kube.pods - {s.store[id].podName} && k'.pvcs == s.kube.pvcs - pvcs
    ensures Untouched(s.kube, k', s.store[x].podName, s.store[x].pvcName)
  {
    hide PodName, PvcName, PvcLabel, SessionIdFromPodName, IsSessionLabel, IsPoolLabel, PodOk, PvcOk, RecordOk, Agrees;
    hide HandleOk;
    EmptyNameIsNoPod(s.kube, issued);
    NamesApart(s, x, id, issued);
  }

  // Removing a record's pod and possibly its PVC touches no other record and no
  // idle handle.
  lemma TeardownIsLocal(s: System, k': Cluster, id: string, pvcs: set<string>, issued: set<string>)
    requires Inv(s, issued) && id in s.store && pvcs <= {s.store[id].pvcName}
    requires k'.pods == s.kube.pods - {s.store[id].podName} && k'.pvcs == s.kube.pvcs - pvcs
    ensures Unmounted(k', s.store[id].pvcName)
    ensures ClusterOk(k', issued)
    ensures forall x | x in s.store && x != id :: Untouched(s.kube, k', s.store[x].podName, s.store[x].pvcName)
    ensures forall i | 0 <= i < |s.idle| ::
      s.idle[i].podName in k'.pods && k'.pods[s.idle[i].podName] == s.kube.pods[s.idle[i].podName]
  {
    hide PodName, PvcName, PvcLabel, SessionIdFromPodName, IsSessionLabel, IsPoolLabel, PodOk, PvcOk, RecordOk, Agrees;
    hide Untouched, Unmounted;
    var r := s.store[id];
    TeardownUnmounts(s.kube, k', r, issued);
    RemovalKeepsCluster(s.kube, k', {r.podName}, pvcs, issued);
    forall x | x in s.store && x != id ensures Untouched(s.kube, k', s.store[x].podName, s.store[x].pvcName) {
      OthersAreUntouched(s, k', id, x, pvcs, issued);
    }
    forall i | 0 <= i < |s.idle| ensures s.idle[i].podName in k'.pods {
      IdleApart(s, id, i, issued);
      assert HandleOk(s, s.idle[i], issued);
    }
  }

  // One record is rewritten, or forgotten, its PVC name kept; other records and the idle
  // handles keep what they have.
  lemma RewriteKeepsInv(s: System, s': System, id: string, issued: set<string>)
    requires Inv(s, issued) && id in s.store && ClusterOk(s'.kube, issued)
    requires s'.idle == s.idle && SameElsewhere(s.store, s'.store, id)
    requires forall x | x in s.store && x != id :: Untouched(s.kube, s'.kube, s.store[x].podName, s.store[x].pvcName)
    requires id in s'.store ==> RecordOk(s'.store[id], id, issued) && Agrees(s'.kube, s'.store[id])
    requires id in s'.store ==> s'.store[id].pvcName == s.store[id].pvcName
    requires forall i | 0 <= i < |s.idle| ::
      s.idle[i].podName in s'.kube.pods && s'.kube.pods[s.idle[i].podName] == s.kube.pods[s.idle[i].podName]
    ensures Inv(s', issued)
  {
    hide PodName, PvcName, PvcLabel, SessionIdFromPodName, IsSessionLabel, IsPoolLabel, PodOk, PvcOk, RecordOk, Agrees;
    hide Untouched, HandleOk;
    forall x | x in s.store && x != id ensures s.store[x].pvcName != s.store[id].pvcName {
      NamesApart(s, x, id, issued);
    }
    StoreFrame(s, s', id, issued);
    forall x, i | x in s'.store && 0 <= i < |s.idle| ensures s'.store[x].pvcName != s.idle[i].pvcName {
      IdleApart(s, x, i, issued);
    }
    IdleFrame(s, s', issued);
  }

  // So a record whose sandbox is torn down may be rewritten or forgotten.
  lemma TeardownKeepsInv(s: System, s': System, id: string, pvcs: set<string>, issued: set<string>)
    requires Inv(s, issued) && id in s.store && pvcs <= {s.store[id].pvcName}
    requires s'.kube.pods == s.kube.pods - {s.store[id].podName} && s'.kube.pvcs == s.kube.pvcs - pvcs
    requires s'.idle == s.idle && SameElsewhere(s.store, s'.store, id)
    requires id in s'.store ==>
      && s'.store[id].id == id && s'.store[id].pvcName == s.store[id].pvcName
          && s'.store[id].podName == s.store[id].podName
      && (s'.store[id].state == Dead || (s'.store[id].state == Stopped && s.store[id].state == Running))
      && (s'.store[id].state == Dead <==> pvcs == {s.store[id].pvcName})
    ensures Inv(s', issued)
  {
    hide PodName, PvcName, PvcLabel, SessionIdFromPodName, IsSessionLabel, IsPoolLabel, PodOk, PvcOk, Untouched;
    hide ClusterOk, IdleOk;
    var r := s.store[id];
    assert RecordOk(r, id, issued) && Agrees(s.kube, r);
    TeardownIsLocal(s, s'.kube, id, pvcs, issued);
    RewriteKeepsInv(s, s', id, issued);
  }

  lemma StopSandboxEffect(k: Cluster, podName: string)
    ensures StopSandbox(k, podName).pods == k.pods - {podName} && StopSandbox(k, podName).pvcs == k.pvcs
    ensures StopSandbox(k, podName).secrets <= k.secrets
    ensures podName in k.pods && k.pods[podName].session != "" ==>
      StopSandbox(k, podName).secrets == k.secrets - {CaSecretName(k.pods[podName].session)}
  {
  }

  lemma StopKeepsInv(s: System, id: string, now: int, issued: set<string>)
    requires Inv(s, issued)
    ensures Inv(Stop(s, id, now).0, issued)
  {
    hide PodName, PvcName, PvcLabel, SessionIdFromPodName, CaSecretName, CaLabel, IsSessionLabel, IsPoolLabel;
    hide StopSandbox;
    if id in s.store {
      var r := s.store[id];
      assert RecordOk(r, id, issued) && r.state != Creating by { assert Agrees(s.kube, r); }
      if r.state == Running {
        StopSandboxEffect(s.kube, r.podName);
        TeardownKeepsInv(s, Stop(s, id, now).0, id, {}, issued);
      }
    }
  }

  lemma RecordIsItsOwn(s: System, id: string, issued: set<string>)
    requires Inv(s, issued) && id in s.store
    ensures s.store[id].id == id
  {
    assert RecordOk(s.store[id], id, issued);
  }

  lemma DeleteKeepsInv(s: System, id: string, issued: set<string>)
    requires Inv(s, issued)
    ensures Inv(Delete(s, id).0, issued)
  {
    hide PodName, PvcName, PvcLabel, SessionIdFromPodName, PurgeSandbox, Inv;
    if id in s.store {
      RecordIsItsOwn(s, id, issued);
      PurgeSandboxEffect(s.kube, s.store[id].podName, s.store[id].pvcName);
      TeardownKeepsInv(s, Delete(s, id).0, id, {s.store[id].pvcName}, issued);
    }
  }

  lemma ForgetKeepsInv(s: System, id: string, issued: set<string>)
    requires Inv(s, issued) && id in s.store
    ensures Inv(PurgeAndForget(s, id), issued)
  {
    hide PodName, PvcName, PvcLabel, SessionIdFromPodName, PurgeSandbox, Inv;
    PurgeSandboxEffect(s.kube, s.store[id].podName, s.store[id].pvcName);
    TeardownKeepsInv(s, PurgeAndForget(s, id), id, {s.store[id].pvcName}, issued);
  }

  // ---- Adding a sandbox ----------------------------------------------------

  // No record and no idle handle bears the names made from `id`.
  ghost predicate Unclaimed(s: System, id: string) {
    && (forall x | x in s.store :: s.store[x].pvcName != PvcName(id) && s.store[x].podName != PodName(id))
    && (forall i | 0 <= i < |s.idle| :: s.idle[i].podName != PodName(id) && s.idle[i].pvcName != PvcName(id))
  }

  lemma GrowthKeepsInv(s: System, id: string, pool: bool, ca: bool, now: int, f: ApiFault, issued: set<string>)
    requires Inv(s, issued) && LabelOk(id, pool, issued) && Unclaimed(s, id)
    ensures Inv(s.(kube := CreateSandbox(s.kube, id, pool, ca, now, f).0), issued)
  {
    var (k', h) := CreateSandbox(s.kube, id, pool, ca, now, f);
    var s' := s.(kube := k');
    CreateSandboxEffect(s.kube, id, pool, ca, now, f);
    CreateSandboxKeepsCluster(s.kube, id, pool, ca, now, f, issued);
    forall x | x in s'.store ensures RecordOk(s'.store[x], x, issued) && Agrees(k', s'.store[x]) {
      assert RecordOk(s.store[x], x, issued) && Agrees(s.kube, s.store[x]);
      assert Untouched(s.kube, k', s.store[x].podName, s.store[x].pvcName);
    }
    forall i | 0 <= i < |s.idle|
      ensures s.idle[i].podName in k'.pods && k'.pods[s.idle[i].podName] == s.kube.pods[s.idle[i].podName]
    {
      assert HandleOk(s, s.idle[i], issued);
    }
    forall x, i | x in s'.store && 0 <= i < |s.idle|
      ensures s'.store[x].pvcName != s.idle[i].pvcName
    {
      IdleApart(s, x, i, issued);
    }
    IdleFrame(s, s', issued);
  }

  // A ready pod and PVC that belong to nobody yet, named after `home`.
  ghost predicate Loose(s: System, home: string) {
    && Unclaimed(s, home)
    && PodName(home) in s.kube.pods && s.kube.pods[PodName(home)].pvc == PvcName(home)
  }

  lemma UnclaimedSession(s: System, id: string, issued: set<string>)
    requires Inv(s, issued) && IsSessionLabel(id) && id !in s.store
    ensures Unclaimed(s, id)
  {
    forall x | x in s.store ensures s.store[x].pvcName != PvcName(id) && s.store[x].podName != PodName(id) {
      assert RecordOk(s.store[x], x, issued);
    }
    forall i | 0 <= i < |s.idle| ensures s.idle[i].podName != PodName(id) && s.idle[i].pvcName != PvcName(id) {
      IdleApart(s, id, i, issued);
    }
  }

  lemma AcquireKeepsInv(s: System, issued: set<string>)
    requires Inv(s, issued) && s.idle != []
    ensures var s' := s.(idle := s.idle[1..]); var home := SessionIdFromPodName(s.idle[0].podName);
      Inv(s', issued) && Loose(s', home) && home in issued && s.idle[0] == Handle(PodName(home), PvcName(home))
  {
    var s' := s.(idle := s.idle[1..]);
    var home := SessionIdFromPodName(s.idle[0].podName);
    assert HandleOk(s, s.idle[0], issued);
    forall i | 0 <= i < |s'.idle|
      ensures HandleOk(s', s'.idle[i], issued) && s'.idle[i].podName != PodName(home)
        && s'.idle[i].pvcName != PvcName(home)
    {
      assert s'.idle[i] == s.idle[i + 1];
      assert HandleOk(s, s.idle[i + 1], issued);
    }
    forall x | x in s.store ensures s.store[x].pvcName != PvcName(home) && s.store[x].podName != PodName(home) {
      IdleApart(s, x, 0, issued);
    }
  }

  // A running record takes over a loose sandbox.
  lemma TakeoverKeepsInv(s: System, s': System, r: Record, home: string, issued: set<string>)
    requires Inv(s, issued) && Loose(s, home) && r.id !in s.store && IsSessionLabel(r.id) && r.state == Running
    requires (home == r.id || home in issued) && r.podName == PodName(home) && r.pvcName == PvcName(home)
    requires s'.store == s.store[r.id := r] && s'.idle == s.idle && s'.kube == s.kube
    ensures Inv(s', issued)
  {
    hide PodName, PvcName, PvcLabel, SessionIdFromPodName, CaSecretName, CaLabel, IsSessionLabel, IsPoolLabel;
    assert PodOk(s.kube, r.podName, issued);
    StoreFrame(s, s', r.id, issued);
    forall x, i | x in s'.store && 0 <= i < |s.idle| ensures s'.store[x].pvcName != s.idle[i].pvcName {
      if x != r.id { IdleApart(s, x, i, issued); }
    }
    IdleFrame(s, s', issued);
  }

  lemma PurgeSandboxEffect(k: Cluster, podName: string, pvcName: string)
    ensures PurgeSandbox(k, podName, pvcName).pods == k.pods - {podName}
    ensures PurgeSandbox(k, podName, pvcName).pvcs == k.pvcs - {pvcName}
    ensures PurgeSandbox(k, podName, pvcName).secrets <= k.secrets
    ensures SessionIdFromPodName(podName) != "" ==>
      PurgeSandbox(k, podName, pvcName).secrets == k.secrets - {CaSecretName(SessionIdFromPodName(podName))}
  {
  }

  // A sandbox that never became ready ends like one that ran and was deleted.
  lemma SettleKeepsInv(s: System, r: Record, notReady: bool, home: string, issued: set<string>)
    requires Inv(s, issued) && Loose(s, home) && r.id !in s.store && r.id != "" && IsSessionLabel(r.id)
    requires home == r.id || home in issued
    requires r.podName == PodName(home) && r.pvcName == PvcName(home)
    ensures Inv(Settle(s, r, notReady).0, issued)
  {
    hide PodName, PvcName, PvcLabel, SessionIdFromPodName, IsSessionLabel, IsPoolLabel, PurgeSandbox, Inv, Loose;
    var ran := s.(store := s.store[r.id := r.(state := Running)]);
    TakeoverKeepsInv(s, ran, r.(state := Running), home, issued);
    DeleteKeepsInv(ran, r.id, issued);
    assert notReady ==> Settle(s, r, notReady).0.store == Delete(ran, r.id).0.store;
  }

  // A cold create's own part: its objects are in order, and a complete sandbox is loose.
  lemma ColdKeepsInv(s: System, id: string, ca: bool, now: int, f: ApiFault, issued: set<string>)
    requires Inv(s, issued) && id !in s.store && IsSessionLabel(id) && !IsPoolLabel(id)
    ensures var (k, h) := CreateSandbox(s.kube, id, false, ca, now, f); var s' := s.(kube := k);
      Inv(s', issued) && (h.Some? ==> h.value == Handle(PodName(id), PvcName(id)) && Loose(s', id))
  {
    hide PodName, PvcName, PvcLabel, SessionIdFromPodName, CaSecretName, IsSessionLabel, IsPoolLabel, CreateSandbox;
    hide Inv;
    UnclaimedSession(s, id, issued);
    GrowthKeepsInv(s, id, false, ca, now, f, issued);
    CreateSandboxEffect(s.kube, id, false, ca, now, f);
  }

  lemma CreateKeepsInv(c: Config, s: System, o: CreateOptions, newId: string, now: int, f: Faults, issued: set<string>)
    requires Inv(s, issued)
    requires var id := SessionId(c, o, newId); id != "" && IsSessionLabel(id) && id !in s.store
    requires !IsPoolLabel(SessionId(c, o, newId))
    ensures Inv(Create(c, s, o, newId, now, f).0, issued)
  {
    hide PodName, PvcName, PvcLabel, SessionIdFromPodName, IsSessionLabel, IsPoolLabel, SessionId, IdsIn, PoolEligible;
    hide CreateSandbox, Settle, Inv, Loose;
    var id := SessionId(c, o, newId);
    var (s1, h, fromPool) := Provision(c, s, o, id, now, f);
    if fromPool { AcquireKeepsInv(s, issued); } else { ColdKeepsInv(s, id, c.proxy && c.caCert, now, f.api, issued); }
    if h.Some? {
      var home := if fromPool then SessionIdFromPodName(s.idle[0].podName) else id;
      SettleKeepsInv(s1, NewRecord(c, o, id, h.value, fromPool, now), f.notReady, home, issued);
    }
  }

  lemma IdleGrows(s: System, id: string, issued: set<string>)
    requires Inv(s, issued) && Loose(s, id) && id in issued
    ensures Inv(s.(idle := s.idle + [Handle(PodName(id), PvcName(id))]), issued)
  {
    hide PodName, PvcName, PvcLabel, SessionIdFromPodName, CaSecretName, CaLabel, IsSessionLabel, IsPoolLabel;
    var s' := s.(idle := s.idle + [Handle(PodName(id), PvcName(id))]);
    forall i | 0 <= i < |s'.idle| ensures HandleOk(s', s'.idle[i], issued) {
      if i < |s.idle| { assert HandleOk(s, s.idle[i], issued); }
    }
  }

  lemma WarmKeepsInv(c: Config, s: System, id: string, now: int, f: Faults, issued: set<string>)
    requires Inv(s, issued) && IsPoolLabel(id) && id !in issued && !IsSessionLabel(id)
    ensures Inv(Warm(c, s, id, now, f).0, issued + {id})
  {
    hide PodName, PvcName, PvcLabel, SessionIdFromPodName, CaSecretName, CaLabel, IsSessionLabel, IsPoolLabel, Inv;
    hide CreateSandbox, PurgeSandbox;
    IssuedGrows(s, id, issued);
    var (k, h) := CreateSandbox(s.kube, id, true, c.poolCaCert, now, f.api);
    GrowthKeepsInv(s, id, true, c.poolCaCert, now, f.api, issued + {id});
    CreateSandboxEffect(s.kube, id, true, c.poolCaCert, now, f.api);
    if h.Some? {
      if f.notReady {
        PurgeSandboxEffect(k, PodName(id), PvcName(id));
        SamePlatformKeepsInv(s, s.(kube := PurgeSandbox(k, PodName(id), PvcName(id))), issued + {id});
      } else {
        IdleGrows(s.(kube := k), id, issued + {id});
      }
    }
  }

  lemma SamePlatformKeepsInv(s: System, s': System, issued: set<string>)
    requires Inv(s, issued) && s'.store == s.store && s'.idle == s.idle
    requires s'.kube.pods == s.kube.pods && s'.kube.pvcs == s.kube.pvcs
    ensures Inv(s', issued)
  {
    forall p | p in s'.kube.pods ensures PodOk(s'.kube, p, issued) { assert PodOk(s.kube, p, issued); }
    forall v | v in s'.kube.pvcs ensures PvcOk(s'.kube, v, issued) { assert PvcOk(s.kube, v, issued); }
    forall x | x in s'.store ensures RecordOk(s'.store[x], x, issued) && Agrees(s'.kube, s'.store[x]) {
      assert RecordOk(s.store[x], x, issued) && Agrees(s.kube, s.store[x]);
    }
    forall i | 0 <= i < |s.idle| ensures HandleOk(s', s'.idle[i], issued) { assert HandleOk(s, s.idle[i], issued); }
  }

  lemma IssuedGrows(s: System, id: string, issued: set<string>)
    requires Inv(s, issued) && IsPoolLabel(id) && id !in issued && !IsSessionLabel(id)
    ensures Inv(s, issued + {id}) && Unclaimed(s, id)
  {
    var all := issued + {id};
    forall p | p in s.kube.pods ensures PodOk(s.kube, p, all) { assert PodOk(s.kube, p, issued); }
    forall v | v in s.kube.pvcs ensures PvcOk(s.kube, v, all) { assert PvcOk(s.kube, v, issued); }
    forall x | x in s.store
      ensures RecordOk(s.store[x], x, all) && Agrees(s.kube, s.store[x]) && s.store[x].pvcName != PvcName(id)
        && s.store[x].podName != PodName(id)
    {
      assert RecordOk(s.store[x], x, issued) && Agrees(s.kube, s.store[x]);
    }
    forall i | 0 <= i < |s.idle|
      ensures HandleOk(s, s.idle[i], all) && s.idle[i].podName != PodName(id) && s.idle[i].pvcName != PvcName(id)
    {
      assert HandleOk(s, s.idle[i], issued);
    }
  }

  // ---- Resume --------------------------------------------------------------

  lemma ResumeSandboxEffect(k: Cluster, id: string, pvcName: string, ca: bool, now: int, f: ApiFault)
    ensures var (k', h) := ResumeSandbox(k, id, pvcName, ca, now, f);
      && k'.pvcs == k.pvcs
      && (if h.Some? then h.value == Handle(PodName(id), pvcName) && PodName(id) !in k.pods
          && k'.pods == k.pods[PodName(id) := Pod(id, false, pvcName, now)]
          else k'.pods == k.pods)
  {
  }

  lemma ResumedPodJoins(s: System, k': Cluster, id: string, now: int, issued: set<string>)
    requires Inv(s, issued) && id in s.store && s.store[id].state == Stopped && !IsPoolLabel(id)
    requires PodName(id) !in s.kube.pods && k'.pvcs == s.kube.pvcs
    requires k'.pods == s.kube.pods[PodName(id) := Pod(id, false, s.store[id].pvcName, now)]
    ensures ClusterOk(k', issued)
  {
    hide PodName, PvcName, PvcLabel, SessionIdFromPodName, IsSessionLabel, IsPoolLabel, PodOk, PvcOk, HandleOk;
    var r := s.store[id];
    assert RecordOk(r, id, issued) && Agrees(s.kube, r);
    AddPod(s.kube, k', id, Pod(id, false, r.pvcName, now), issued);
  }

  lemma ResumedPodIsLocal(s: System, k': Cluster, id: string, now: int, issued: set<string>)
    requires Inv(s, issued) && id in s.store && PodName(id) !in s.kube.pods && k'.pvcs == s.kube.pvcs
    requires k'.pods == s.kube.pods[PodName(id) := Pod(id, false, s.store[id].pvcName, now)]
    ensures forall x | x in s.store && x != id :: Untouched(s.kube, k', s.store[x].podName, s.store[x].pvcName)
    ensures forall i | 0 <= i < |s.idle| ::
      s.idle[i].podName in k'.pods && k'.pods[s.idle[i].podName] == s.kube.pods[s.idle[i].podName]
  {
    hide PodName, PvcName, PvcLabel, SessionIdFromPodName, IsSessionLabel, IsPoolLabel, PodOk, PvcOk, RecordOk, Agrees;
    forall x | x in s.store && x != id ensures Untouched(s.kube, k', s.store[x].podName, s.store[x].pvcName) {
      NamesApart(s, x, id, issued);
    }
    forall i | 0 <= i < |s.idle|
      ensures s.idle[i].podName in k'.pods && k'.pods[s.idle[i].podName] == s.kube.pods[s.idle[i].podName]
    {
      assert HandleOk(s, s.idle[i], issued);
    }
  }

  lemma ResumedKeepsInv(s: System, s': System, id: string, now: int, issued: set<string>)
    requires Inv(s, issued) && id in s.store && s.store[id].state == Stopped && !IsPoolLabel(id)
    requires PodName(id) !in s.kube.pods && s'.idle == s.idle && SameElsewhere(s.store, s'.store, id)
    requires s'.kube.pods == s.kube.pods[PodName(id) := Pod(id, false, s.store[id].pvcName, now)]
    requires s'.kube.pvcs == s.kube.pvcs
    requires id in s'.store && s'.store[id].id == id && s'.store[id].state == Running
    requires s'.store[id].podName == PodName(id) && s'.store[id].pvcName == s.store[id].pvcName
    ensures Inv(s', issued)
  {
    hide PodName, PvcName, PvcLabel, SessionIdFromPodName, IsSessionLabel, IsPoolLabel, PodOk, PvcOk, Untouched;
    hide HandleOk, ClusterOk;
    var r := s.store[id];
    assert RecordOk(r, id, issued) && Agrees(s.kube, r);
    ResumedPodJoins(s, s'.kube, id, now, issued);
    ResumedPodIsLocal(s, s'.kube, id, now, issued);
    RewriteKeepsInv(s, s', id, issued);
  }

  // A record may lose its pod name, or be touched, without any other change.
  lemma RelabelKeepsInv(s: System, s': System, id: string, issued: set<string>)
    requires Inv(s, issued) && id in s.store && id in s'.store
    requires s'.idle == s.idle && SameElsewhere(s.store, s'.store, id)
    requires s'.kube.pods == s.kube.pods && s'.kube.pvcs == s.kube.pvcs
    requires s'.store[id].id == id && s'.store[id].state == s.store[id].state
    requires s'.store[id].pvcName == s.store[id].pvcName
    requires s'.store[id].podName == s.store[id].podName || (s'.store[id].podName == "" && s.store[id].state == Stopped)
    ensures Inv(s', issued)
  {
    hide PodName, PvcName, PvcLabel, SessionIdFromPodName, IsSessionLabel, IsPoolLabel, PodOk, PvcOk;
    var s1 := s.(kube := s'.kube);
    SamePlatformKeepsInv(s, s1, issued);
    assert RecordOk(s.store[id], id, issued) && Agrees(s'.kube, s.store[id]);
    forall i | 0 <= i < |s.idle| ensures s.idle[i].podName in s'.kube.pods { assert HandleOk(s, s.idle[i], issued); }
    RewriteKeepsInv(s1, s', id, issued);
  }

  lemma ResumeKeepsInv(c: Config, s: System, id: string, now: int, f: Faults, issued: set<string>)
    requires Inv(s, issued) && !IsPoolLabel(id)
    ensures Inv(Resume(c, s, id, now, f).0, issued)
  {
    hide PodName, PvcName, PvcLabel, SessionIdFromPodName, IsSessionLabel, IsPoolLabel, ResumeSandbox, StopSandbox;
    hide ClusterOk, IdleOk, StoreOk;
    var s' := Resume(c, s, id, now, f).0;
    if id in s.store && s.store[id].state == Stopped && !(c.proxy && f.assign) {
      RecordIsItsOwn(s, id, issued);
      var r := s.store[id];
      ResumeSandboxEffect(s.kube, id, r.pvcName, c.proxy && c.caCert, now, f.api);
      var (k, h) := ResumeSandbox(s.kube, id, r.pvcName, c.proxy && c.caCert, now, f.api);
      if h.None? {
        SamePlatformKeepsInv(s, s', issued);
      } else if f.notReady {
        StopSandboxEffect(k, h.value.podName);
        assert s'.kube.pods == s.kube.pods;
        RelabelKeepsInv(s, s', id, issued);
      } else {
        ResumedKeepsInv(s, s', id, now, issued);
      }
    }
  }

  // ---- Get-or-create, clear, activity, restart ------------------------------

  lemma EnsureKeepsInv(c: Config, s: System, o: CreateOptions, recreate: bool, now: int, f: Faults, issued: set<string>)
    requires Inv(s, issued)
    ensures Inv(Ensure(c, s, o, recreate, now, f).0, issued)
  {
    hide PodName, PvcName, PvcLabel, SessionIdFromPodName, Canonical, Create, Resume, PurgeSandbox, Inv, ResolveImage;
    if o.ref != "" {
      var id := Canonical(c.sum, o.ref);
      CanonicalNamespace(c.sum, o.ref);
      if id !in s.store {
        CreateKeepsInv(c, s, o, "", now, f, issued);
      } else {
        ForgetKeepsInv(s, id, issued);
        CreateKeepsInv(c, PurgeAndForget(s, id), o, "", now, f, issued);
        ResumeKeepsInv(c, s, id, now, f, issued);
      }
    }
  }

  lemma ClearKeepsInv(c: Config, s: System, ref: string, issued: set<string>)
    requires Inv(s, issued)
    ensures Inv(Clear(c, s, ref).0, issued)
  {
    if ref != "" && Canonical(c.sum, ref) in s.store {
      ForgetKeepsInv(s, Canonical(c.sum, ref), issued);
    }
  }

  lemma TouchKeepsInv(s: System, id: string, now: int, issued: set<string>)
    requires Inv(s, issued)
    ensures Inv(Touch(s, id, now), issued)
  {
    hide PodName, PvcName, PvcLabel, SessionIdFromPodName, Inv;
    if id in s.store {
      RecordIsItsOwn(s, id, issued);
      RelabelKeepsInv(s, Touch(s, id, now), id, issued);
    }
  }

  lemma ActiveIsFree(s: System, active: map<string, nat>, issued: set<string>)
    requires Inv(s, issued)
    ensures Inv(s.(active := active), issued)
  {
    SamePlatformKeepsInv(s, s.(active := active), issued);
  }

  lemma RestartKeepsInv(s: System, issued: set<string>)
    requires Inv(s, issued)
    ensures Inv(Restart(s), issued)
  {
  }
}
