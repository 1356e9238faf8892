// The Kubernetes runtime (internal/runtime/kubernetes.go), call by call on the
// cluster it changes. What the API server refuses is a parameter.
module Runtime {
  import opened Wrappers
  import opened Platform

  datatype SandboxRef = SandboxRef(podName: string, pvcName: string, session: string, pool: bool, createdAt: int)

  class KubeRuntime {
    var pods: map<string, Pod>
    var pvcs: map<string, Pvc>
    var secrets: set<string>

    constructor ()
      ensures View() == Cluster(map[], map[], {})
    {
      pods, pvcs, secrets := map[], map[], {};
    }

    ghost function View(): Cluster
      reads this
    { Cluster(pods, pvcs, secrets) }

    method CreateCASecret(id: string, ca: bool, refused: bool) returns (ok: bool)
      modifies this`secrets
      ensures ok == !(ca && (refused || CaSecretName(id) in old(secrets)))
      ensures secrets == if ok && ca then old(secrets) + {CaSecretName(id)} else old(secrets)
    {
      if !ca { return true; }
      if refused || CaSecretName(id) in secrets { return false; }
      secrets := secrets + {CaSecretName(id)};
      return true;
    }

    method DeleteCASecret(id: string)
      modifies this`secrets
      ensures secrets == old(secrets) - {CaSecretName(id)}
    {
      secrets := secrets - {CaSecretName(id)};
    }

    method Create(id: string, pool: bool, ca: bool, now: int, f: ApiFault) returns (h: Option<Handle>)
      modifies this
      ensures (View(), h) == CreateSandbox(old(View()), id, pool, ca, now, f)
    {
      var pvcName := PvcName(id);
      if f == PvcRefused || pvcName in pvcs { return None; }
      pvcs := pvcs[pvcName := Pvc(id, pool, now)];
      var ok := CreateCASecret(id, ca, f == SecretRefused);
      if !ok { return None; }
      if f == PodRefused || PodName(id) in pods {
        DeleteCASecret(id);
        pvcs := pvcs - {pvcName};
        assert pvcs == old(pvcs);
        assert secrets == old(secrets) - {CaSecretName(id)};
        return None;
      }
      pods := pods[PodName(id) := Pod(id, pool, pvcName, now)];
      return Some(Handle(PodName(id), pvcName));
    }

    method Stop(podName: string)
      modifies this
      ensures View() == StopSandbox(old(View()), podName)
    {
      var id := SessionIdFromPodName(podName);
      if podName in pods && pods[podName].session != "" {
        id := pods[podName].session;
      }
      pods := pods - {podName};
      if id != "" { DeleteCASecret(id); }
    }

    method Resume(id: string, pvcName: string, ca: bool, now: int, f: ApiFault) returns (h: Option<Handle>)
      modifies this
      ensures (View(), h) == ResumeSandbox(old(View()), id, pvcName, ca, now, f)
    {
      var ok := CreateCASecret(id, ca, f == SecretRefused);
      if !ok { return None; }
      if f == PodRefused || PodName(id) in pods { return None; }
      pods := pods[PodName(id) := Pod(id, false, pvcName, now)];
      return Some(Handle(PodName(id), pvcName));
    }

    method Purge(podName: string, pvcName: string)
      modifies this
      ensures View() == PurgeSandbox(old(View()), podName, pvcName)
    {
      pods := pods - {podName};
      var id := SessionIdFromPodName(podName);
      if id != "" { DeleteCASecret(id); }
      pvcs := pvcs - {pvcName};
    }

    // Every pod once, its PVC name recomputed from the session label.
    method ListSandboxes() returns (refs: seq<SandboxRef>)
      ensures forall i | 0 <= i < |refs| :: refs[i].podName in pods && refs[i] == PodRef(pods, refs[i].podName)
      ensures forall i, j | 0 <= i < j < |refs| :: refs[i].podName != refs[j].podName
      ensures forall p | p in pods :: PodRef(pods, p) in refs
    {
      refs := [];
      var todo := pods.Keys;
      while todo != {}
        invariant todo <= pods.Keys
        invariant forall i | 0 <= i < |refs| ::
          refs[i].podName in pods && refs[i].podName !in todo && refs[i] == PodRef(pods, refs[i].podName)
        invariant forall i, j | 0 <= i < j < |refs| :: refs[i].podName != refs[j].podName
        invariant forall p | p in pods && p !in todo :: PodRef(pods, p) in refs
      {
        var p :| p in todo;
        refs, todo := refs + [PodRef(pods, p)], todo - {p};
      }
    }

    // Every PVC once, its pod name recomputed from the session label.
    method ListWorkspaces() returns (refs: seq<SandboxRef>)
      ensures forall i | 0 <= i < |refs| :: refs[i].pvcName in pvcs && refs[i] == PvcRef(pvcs, refs[i].pvcName)
      ensures forall i, j | 0 <= i < j < |refs| :: refs[i].pvcName != refs[j].pvcName
      ensures forall v | v in pvcs :: PvcRef(pvcs, v) in refs
    {
      refs := [];
      var todo := pvcs.Keys;
      while todo != {}
        invariant todo <= pvcs.Keys
        invariant forall i | 0 <= i < |refs| ::
          refs[i].pvcName in pvcs && refs[i].pvcName !in todo && refs[i] == PvcRef(pvcs, refs[i].pvcName)
        invariant forall i, j | 0 <= i < j < |refs| :: refs[i].pvcName != refs[j].pvcName
        invariant forall v | v in pvcs && v !in todo :: PvcRef(pvcs, v) in refs
      {
        var v :| v in todo;
        refs, todo := refs + [PvcRef(pvcs, v)], todo - {v};
      }
    }
  }

  function PodRef(pods: map<string, Pod>, p: string): SandboxRef
    requires p in pods
  { SandboxRef(p, PvcName(pods[p].session), pods[p].session, pods[p].pool, pods[p].createdAt) }

  function PvcRef(pvcs: map<string, Pvc>, v: string): SandboxRef
    requires v in pvcs
  { SandboxRef(PodName(pvcs[v].session), v, pvcs[v].session, pvcs[v].pool, pvcs[v].createdAt) }
}
