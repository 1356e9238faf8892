// The orphan sweep: what it may remove, what it never touches, and what is left
// after a restart.
module Sweeping {
  import opened Identifiers
  import opened Platform
  import opened Lifecycle
  import opened Agreement

  // ---- What one sweep removes ------------------------------------------------

  ghost predicate OrphanPod(c: Config, s: System, p: string, now: int) {
    && p in s.kube.pods && !IsPoolLabel(s.kube.pods[p].session) && s.kube.pods[p].session !in s.store
    && (c.maxLifetime > 0 ==> now - s.kube.pods[p].createdAt > c.maxLifetime)
  }

  // A PVC goes with its old pod, or alone once old enough and without a pod.
  ghost predicate OrphanPvc(c: Config, s: System, v: string, now: int) {
    && v in s.kube.pvcs && !IsPoolLabel(s.kube.pvcs[v].session) && s.kube.pvcs[v].session !in s.store
    && (if PodName(s.kube.pvcs[v].session) in s.kube.pods then OrphanPod(c, s, PodName(s.kube.pvcs[v].session), now)
        else c.stoppedTTL > 0 ==> now - s.kube.pvcs[v].createdAt > c.stoppedTTL)
  }

  lemma ListedHasPod(k: Cluster, id: string, issued: set<string>)
    requires ClusterOk(k, issued)
    ensures id in PodSessions(k) <==> PodName(id) in k.pods
  {
    if id in PodSessions(k) {
      var p :| p in k.pods && k.pods[p].session == id;
      assert PodOk(k, p, issued);
    }
    if PodName(id) in k.pods {
      assert PodOk(k, PodName(id), issued);
    }
  }

  // Exactly the orphans disappear, nothing else on the platform changes, and the
  // store, the idle pool and the call counters are left alone.
  lemma SweepIsExact(c: Config, s: System, now: int, issued: set<string>)
    requires ClusterOk(s.kube, issued)
    ensures var s' := Sweep(c, s, now);
      && s' == s.(kube := s'.kube)
      && (forall p :: p in s'.kube.pods <==> p in s.kube.pods && !OrphanPod(c, s, p, now))
      && (forall v :: v in s'.kube.pvcs <==> v in s.kube.pvcs && !OrphanPvc(c, s, v, now))
      && (forall p | p in s'.kube.pods :: s'.kube.pods[p] == s.kube.pods[p])
      && (forall v | v in s'.kube.pvcs :: s'.kube.pvcs[v] == s.kube.pvcs[v])
  {
    var orphans := OrphanPods(c, s, now);
    var k1 := PurgePods(s.kube, orphans);
    var pvcs := OrphanPvcs(c, s.store, k1.pvcs, PodSessions(s.kube), now);
    var s' := Sweep(c, s, now);
    forall p ensures p in orphans <==> OrphanPod(c, s, p, now) {
      if p in s.kube.pods { assert PodOk(s.kube, p, issued); }
    }
    forall v | v in pvcs ensures PodName(k1.pvcs[v].session) !in s.kube.pods {
      ListedHasPod(s.kube, k1.pvcs[v].session, issued);
    }
    forall v ensures v in s'.kube.pvcs <==> v in s.kube.pvcs && !OrphanPvc(c, s, v, now) {
      if v in s.kube.pvcs {
        SweptPvc(c, s, v, now, issued);
      }
    }
  }

  lemma SweptPvc(c: Config, s: System, v: string, now: int, issued: set<string>)
    requires ClusterOk(s.kube, issued) && v in s.kube.pvcs
    ensures v in Sweep(c, s, now).kube.pvcs <==> !OrphanPvc(c, s, v, now)
  {
    hide PodName, PvcName, PvcLabel, SessionIdFromPodName, CaSecretName, CaLabel, IsSessionLabel, IsPoolLabel;
    var id := s.kube.pvcs[v].session;
    var p := PodName(id);
    assert PvcOk(s.kube, v, issued);
    ListedHasPod(s.kube, id, issued);
    var orphans := OrphanPods(c, s, now);
    var k1 := PurgePods(s.kube, orphans);
    assert v !in k1.pvcs <==> p in orphans by {
      if p in orphans {
        assert PodOk(s.kube, p, issued);
        assert v == PvcName(s.kube.pods[p].session);
      }
      if v !in k1.pvcs {
        var q :| q in orphans && v == PvcName(s.kube.pods[q].session);
        assert PodOk(s.kube, q, issued);
        assert q == p;
      }
    }
    assert p in s.kube.pods ==> PodOk(s.kube, p, issued);
  }

  // The grace period, exactly: of what no session tracks and the pool does not own, a pod
  // stays while it is younger than the lifetime cap, and a PVC without a pod while it is
  // younger than the retention period.
  lemma SweepGraceExactly(c: Config, s: System, now: int, issued: set<string>)
    requires Validated(c) && ClusterOk(s.kube, issued)
    ensures var k, k' := s.kube, Sweep(c, s, now).kube;
      && (forall p | p in k.pods && !k.pods[p].pool && k.pods[p].session !in s.store ::
            p in k'.pods <==> now - k.pods[p].createdAt <= c.maxLifetime)
      && (forall v | v in k.pvcs && !k.pvcs[v].pool && k.pvcs[v].session !in s.store
                     && PodName(k.pvcs[v].session) !in k.pods ::
            v in k'.pvcs <==> now - k.pvcs[v].createdAt <= c.stoppedTTL)
  {
    hide PodName, PvcName, IsSessionLabel, IsPoolLabel, Sweep;
    SweepIsExact(c, s, now, issued);
    forall p | p in s.kube.pods ensures s.kube.pods[p].pool == IsPoolLabel(s.kube.pods[p].session) {
      assert PodOk(s.kube, p, issued);
    }
    forall v | v in s.kube.pvcs ensures s.kube.pvcs[v].pool == IsPoolLabel(s.kube.pvcs[v].session) {
      assert PvcOk(s.kube, v, issued);
    }
  }

  // ---- Safety ----------------------------------------------------------------

  // The pods, PVCs and CA secrets of tracked sessions and of the warm pool.
  ghost predicate Protected(s: System, id: string) { id in s.store || IsPoolLabel(id) }

  ghost predicate ObjectsKept(k: Cluster, k': Cluster, id: string) {
    && (PodName(id) in k.pods ==> PodName(id) in k'.pods && k'.pods[PodName(id)] == k.pods[PodName(id)])
    && (PvcName(id) in k.pvcs ==> PvcName(id) in k'.pvcs && k'.pvcs[PvcName(id)] == k.pvcs[PvcName(id)])
    && (CaSecretName(id) in k.secrets ==> CaSecretName(id) in k'.secrets)
  }

  // The sweep leaves every object of a tracked session or of the pool alone: the
  // pod, PVC and secret named after a protected id, and the pod and PVC a tracked
  // record points to, even when they carry a pool name.
  lemma SweepSafety(c: Config, s: System, now: int, issued: set<string>)
    requires Inv(s, issued)
    ensures forall id | Protected(s, id) :: ObjectsKept(s.kube, Sweep(c, s, now).kube, id)
    ensures forall id | id in s.store ::
        && (s.store[id].podName in s.kube.pods ==> s.store[id].podName in Sweep(c, s, now).kube.pods)
        && (s.store[id].pvcName in s.kube.pvcs ==> s.store[id].pvcName in Sweep(c, s, now).kube.pvcs)
  {
    hide PodName, PvcName, PvcLabel, SessionIdFromPodName, CaSecretName, CaLabel, IsSessionLabel, IsPoolLabel, Sweep;
    forall id | Protected(s, id) ensures ObjectsKept(s.kube, Sweep(c, s, now).kube, id) {
      ProtectedIsKept(c, s, id, now, issued);
    }
    SweepIsExact(c, s, now, issued);
    forall id | id in s.store
      ensures s.store[id].podName in s.kube.pods ==> s.store[id].podName in Sweep(c, s, now).kube.pods
      ensures s.store[id].pvcName in s.kube.pvcs ==> s.store[id].pvcName in Sweep(c, s, now).kube.pvcs
    {
      RecordNamesProtected(s, id, issued);
    }
  }

  lemma ProtectedIsKept(c: Config, s: System, id: string, now: int, issued: set<string>)
    requires Inv(s, issued) && Protected(s, id)
    ensures ObjectsKept(s.kube, Sweep(c, s, now).kube, id)
  {
    hide PodName, PvcName, PvcLabel, SessionIdFromPodName, CaSecretName, CaLabel, IsSessionLabel, IsPoolLabel, Sweep;
    SweepIsExact(c, s, now, issued);
    if PodName(id) in s.kube.pods { assert PodOk(s.kube, PodName(id), issued); }
    if PvcName(id) in s.kube.pvcs { assert PvcOk(s.kube, PvcName(id), issued); }
    if CaSecretName(id) in s.kube.secrets { SecretSurvivesSweep(c, s, id, now, issued); }
  }

  // A tracked record's pod and PVC carry its own label or one of the pool's.
  lemma RecordNamesProtected(s: System, id: string, issued: set<string>)
    requires Inv(s, issued) && id in s.store
    ensures s.store[id].podName in s.kube.pods ==> Protected(s, s.kube.pods[s.store[id].podName].session)
    ensures s.store[id].pvcName in s.kube.pvcs ==> Protected(s, s.kube.pvcs[s.store[id].pvcName].session)
  {
    hide PodName, PvcName, PvcLabel, SessionIdFromPodName, CaSecretName, CaLabel, IsSessionLabel, IsPoolLabel;
    var r := s.store[id];
    EmptyNameIsNoPod(s.kube, issued);
    assert RecordOk(r, id, issued);
    if r.podName in s.kube.pods { assert PodOk(s.kube, r.podName, issued); }
    if r.pvcName in s.kube.pvcs { assert PvcOk(s.kube, r.pvcName, issued); }
  }

  lemma SecretSurvivesSweep(c: Config, s: System, id: string, now: int, issued: set<string>)
    requires ClusterOk(s.kube, issued) && Protected(s, id) && CaSecretName(id) in s.kube.secrets
    ensures CaSecretName(id) in Sweep(c, s, now).kube.secrets
  {
    hide PodName, PvcName, PvcLabel, SessionIdFromPodName, CaSecretName, CaLabel, IsSessionLabel, IsPoolLabel;
    var orphans := OrphanPods(c, s, now);
    var k1 := PurgePods(s.kube, orphans);
    forall p | p in orphans ensures SessionIdFromPodName(p) != id { assert PodOk(s.kube, p, issued); }
    var pvcs := OrphanPvcs(c, s.store, k1.pvcs, PodSessions(s.kube), now);
    forall v | v in pvcs ensures k1.pvcs[v].session != id { assert PvcOk(s.kube, v, issued); }
    assert forall p | p in orphans :: CaLabel(CaSecretName(SessionIdFromPodName(p))) != id;
    assert CaLabel(CaSecretName(id)) == id;
  }

  lemma SweepKeepsCluster(c: Config, s: System, now: int, issued: set<string>)
    requires Inv(s, issued)
    ensures ClusterOk(Sweep(c, s, now).kube, issued)
  {
    hide PodName, PvcName, PvcLabel, SessionIdFromPodName, CaSecretName, CaLabel, IsSessionLabel, IsPoolLabel;
    hide LabelOk, OrphanPod, OrphanPvc, Sweep;
    var s' := Sweep(c, s, now);
    SweepIsExact(c, s, now, issued);
    var pods := set p | p in s.kube.pods && p !in s'.kube.pods;
    var pvcs := set v | v in s.kube.pvcs && v !in s'.kube.pvcs;
    forall p | p in s'.kube.pods ensures s'.kube.pods[p].pvc !in pvcs {
      MountSurvivesSweep(c, s, p, now, issued);
    }
    assert s'.kube.pods == s.kube.pods - pods && s'.kube.pvcs == s.kube.pvcs - pvcs;
    RemovalKeepsCluster(s.kube, s'.kube, pods, pvcs, issued);
  }

  lemma SweepKeepsInv(c: Config, s: System, now: int, issued: set<string>)
    requires Inv(s, issued)
    ensures Inv(Sweep(c, s, now), issued)
  {
    hide PodName, PvcName, PvcLabel, SessionIdFromPodName, CaSecretName, CaLabel, IsSessionLabel, IsPoolLabel, Sweep;
    hide ClusterOk, PodOk, PvcOk, OrphanPod, OrphanPvc;
    var s' := Sweep(c, s, now);
    SweepIsExact(c, s, now, issued);
    SweepKeepsCluster(c, s, now, issued);
    SweepSafety(c, s, now, issued);
    forall x | x in s'.store ensures RecordOk(s'.store[x], x, issued) && Agrees(s'.kube, s'.store[x]) {
      assert RecordOk(s.store[x], x, issued) && Agrees(s.kube, s.store[x]);
    }
    forall i | 0 <= i < |s.idle| ensures HandleOk(s', s'.idle[i], issued) {
      assert HandleOk(s, s.idle[i], issued);
      assert Protected(s, SessionIdFromPodName(s.idle[i].podName));
    }
  }

  // No pod that stays loses the PVC it mounts.
  lemma MountSurvivesSweep(c: Config, s: System, p: string, now: int, issued: set<string>)
    requires Inv(s, issued) && p in s.kube.pods && !OrphanPod(c, s, p, now)
    ensures !OrphanPvc(c, s, s.kube.pods[p].pvc, now)
  {
    hide PodName, PvcName, PvcLabel, SessionIdFromPodName, CaSecretName, CaLabel, IsSessionLabel, IsPoolLabel;
    assert PodOk(s.kube, p, issued) && PvcOk(s.kube, s.kube.pods[p].pvc, issued);
  }

  // ---- Convergence -----------------------------------------------------------

  ghost predicate OldEnough(c: Config, k: Cluster, now: int) {
    && (c.maxLifetime > 0 ==> forall p | p in k.pods :: now - k.pods[p].createdAt > c.maxLifetime)
    && (c.stoppedTTL > 0 ==> forall v | v in k.pvcs :: now - k.pvcs[v].createdAt > c.stoppedTTL)
  }

  // The orchestrator just after a restart, on whatever platform it finds.
  function Emptied(k: Cluster): System { System(map[], k, [], map[]) }

  // A PVC whose session label is on some pod, though no pod without the pool label
  // leads to the PVC's name.
  ghost predicate Shielded(k: Cluster, v: string)
    requires v in k.pvcs
  {
    && k.pvcs[v].session in PodSessions(k)
    && !exists p :: p in k.pods && !k.pods[p].pool && v == PvcName(k.pods[p].session)
  }

  // On any platform whatsoever, with an empty store and everything older than its
  // limit, one sweep leaves no pod without the pool label, and of the PVCs without it
  // exactly the shielded ones.
  lemma SweepConverges(c: Config, k: Cluster, now: int)
    requires OldEnough(c, k, now)
    ensures var k' := Sweep(c, Emptied(k), now).kube;
      && (forall p | p in k'.pods :: p in k.pods && k'.pods[p] == k.pods[p] && k'.pods[p].pool)
      && (forall v | v in k'.pvcs :: v in k.pvcs && k'.pvcs[v] == k.pvcs[v])
      && (forall v | v in k.pvcs && !k.pvcs[v].pool :: v in k'.pvcs <==> Shielded(k, v))
  {
    hide PvcName, PodName, SessionIdFromPodName, CaSecretName;
    var s := Emptied(k);
    var orphans := OrphanPods(c, s, now);
    var k1 := PurgePods(k, orphans);
    forall v | v in k.pvcs && !k.pvcs[v].pool
      ensures v in Sweep(c, s, now).kube.pvcs <==> Shielded(k, v)
    {
      if v !in k1.pvcs {
        var p :| p in orphans && v == PvcName(k.pods[p].session);
        assert p in k.pods && !k.pods[p].pool;
      } else {
        forall p | p in k.pods && !k.pods[p].pool ensures v != PvcName(k.pods[p].session) {
          assert p in orphans;
        }
      }
    }
  }

  // So a sweep after a restart clears everything but the pool's objects if and only
  // if no PVC without the pool label is shielded.
  lemma SweepClearsExactly(c: Config, k: Cluster, now: int)
    requires OldEnough(c, k, now)
    ensures var k' := Sweep(c, Emptied(k), now).kube;
      (forall p | p in k'.pods :: k'.pods[p].pool) && (forall v | v in k'.pvcs :: k'.pvcs[v].pool)
      <==> forall v | v in k.pvcs && !k.pvcs[v].pool :: !Shielded(k, v)
  {
    SweepConverges(c, k, now);
    hide Sweep, OldEnough, Shielded;
  }

  // A platform on which every object carries the label of its name shields nothing.
  lemma OrderedShieldsNothing(k: Cluster, issued: set<string>)
    requires ClusterOk(k, issued)
    ensures forall v | v in k.pvcs && !k.pvcs[v].pool :: !Shielded(k, v)
  {
    forall v | v in k.pvcs && !k.pvcs[v].pool ensures !Shielded(k, v) {
      assert PvcOk(k, v, issued);
      if p :| p in k.pods && k.pods[p].session == k.pvcs[v].session { assert PodOk(k, p, issued); }
    }
  }

  // With sessions tracked, exactly their objects and the pool's remain.
  lemma SweepKeepsOnlyProtected(c: Config, s: System, now: int, issued: set<string>)
    requires ClusterOk(s.kube, issued) && OldEnough(c, s.kube, now)
    ensures var k' := Sweep(c, s, now).kube;
      && (forall p :: p in k'.pods <==> p in s.kube.pods && Protected(s, s.kube.pods[p].session))
      && (forall v :: v in k'.pvcs <==> v in s.kube.pvcs && Protected(s, s.kube.pvcs[v].session))
  {
    SweepIsExact(c, s, now, issued);
    var k' := Sweep(c, s, now).kube;
    forall v | v in s.kube.pvcs ensures v in k'.pvcs <==> Protected(s, s.kube.pvcs[v].session) {
      var p := PodName(s.kube.pvcs[v].session);
      if p in s.kube.pods { assert PodOk(s.kube, p, issued); }
    }
  }

  // ---- Purging one more orphan ---------------------------------------------------

  lemma PurgeNoPods(k: Cluster)
    ensures PurgePods(k, {}) == k
  {
  }

  lemma PurgeOneMorePod(k: Cluster, done: set<string>, p: string)
    requires done <= k.pods.Keys && p in k.pods
    ensures PurgePods(k, done + {p}) == PurgeSandbox(PurgePods(k, done), p, PvcName(k.pods[p].session))
  {
    hide PodName, PvcName, SessionIdFromPodName, CaSecretName;
    var a, b := PurgePods(k, done + {p}), PurgeSandbox(PurgePods(k, done), p, PvcName(k.pods[p].session));
    assert a.pods == b.pods;
    assert a.pvcs == b.pvcs;
    assert a.secrets == b.secrets;
  }

  lemma PurgeNoPvcs(k: Cluster)
    ensures PurgePvcs(k, {}) == k
  {
  }

  lemma PurgeOneMorePvc(k: Cluster, done: set<string>, v: string)
    requires done <= k.pvcs.Keys && v in k.pvcs
    ensures PurgePvcs(k, done + {v}) == PurgeSandbox(PurgePvcs(k, done), PodName(k.pvcs[v].session), v)
  {
    hide PodName, PvcName, SessionIdFromPodName, CaSecretName;
    var a, b := PurgePvcs(k, done + {v}), PurgeSandbox(PurgePvcs(k, done), PodName(k.pvcs[v].session), v);
    assert a.pods == b.pods;
    assert a.pvcs == b.pvcs;
    assert a.secrets == b.secrets;
  }
}
