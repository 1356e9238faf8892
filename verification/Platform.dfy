// The platform as three maps, and the object names derived from an id
// (internal/runtime/kubernetes.go). Every function below describes the whole
// effect of one runtime call; the class KubeRuntime performs the calls step by step.
module Platform {
  import opened Wrappers

  // ---- Names ---------------------------------------------------------------

  function TrimPrefix(s: string, prefix: string): string {
    if prefix <= s then s[|prefix|..] else s
  }

  function SessionIdFromPodName(podName: string): string { TrimPrefix(podName, "sbx-") }

  function PodName(id: string): (r: string)
    ensures SessionIdFromPodName(r) == id && r != ""
  { "sbx-" + id }

  ghost function PvcLabel(pvcName: string): string { TrimPrefix(pvcName, "pvc-") }

  function PvcName(id: string): (r: string)
    ensures PvcLabel(r) == id
  { "pvc-" + id }

  ghost function CaLabel(secretName: string): string { TrimPrefix(secretName, "ca-") }

  function CaSecretName(id: string): (r: string)
    ensures CaLabel(r) == id
  { "ca-" + id }

  // ---- Objects -------------------------------------------------------------

  // `session` is the session label, `pool` whether the pool label is set.
  datatype Pod = Pod(session: string, pool: bool, pvc: string, createdAt: int)
  datatype Pvc = Pvc(session: string, pool: bool, createdAt: int)
  datatype Cluster = Cluster(pods: map<string, Pod>, pvcs: map<string, Pvc>, secrets: set<string>)
  datatype Handle = Handle(podName: string, pvcName: string)

  // What the API server refuses beyond name conflicts.
  datatype ApiFault = NoFault | PvcRefused | SecretRefused | PodRefused

  // ---- Runtime calls -------------------------------------------------------

  // Create: PVC, then CA secret, then pod. A refused pod rolls both back; a
  // refused secret leaves the PVC behind.
  function CreateSandbox(k: Cluster, id: string, pool: bool, ca: bool, now: int, f: ApiFault): (Cluster,
          Option<Handle>) {
    if f == PvcRefused || PvcName(id) in k.pvcs then (k, None)
    else
      var k1 := k.(pvcs := k.pvcs[PvcName(id) := Pvc(id, pool, now)]);
      if ca && (f == SecretRefused || CaSecretName(id) in k.secrets) then (k1, None)
      else if f == PodRefused || PodName(id) in k.pods then
        (k.(secrets := k.secrets - {CaSecretName(id)}), None)
      else
        var k2 := if ca then k1.(secrets := k1.secrets + {CaSecretName(id)}) else k1;
        (k2.(pods := k2.pods[PodName(id) := Pod(id, pool, PvcName(id), now)]), Some(Handle(PodName(id), PvcName(id))))
  }

  function DropSecret(k: Cluster, id: string): Cluster {
    if id == "" then k else k.(secrets := k.secrets - {CaSecretName(id)})
  }

  // Stop: the pod and the secret of its session label; the PVC stays.
  function StopSandbox(k: Cluster, podName: string): Cluster {
    var id := if podName in k.pods && k.pods[podName].session != "" then k.pods[podName].session
              else SessionIdFromPodName(podName);
    DropSecret(k.(pods := k.pods - {podName}), id)
  }

  // Resume: secret, then pod on the retained PVC. A refused pod leaves the secret.
  function ResumeSandbox(k: Cluster, id: string, pvcName: string, ca: bool, now: int, f: ApiFault): (Cluster,
          Option<Handle>) {
    if ca && (f == SecretRefused || CaSecretName(id) in k.secrets) then (k, None)
    else
      var k1 := if ca then k.(secrets := k.secrets + {CaSecretName(id)}) else k;
      if f == PodRefused || PodName(id) in k1.pods then (k1, None)
      else (k1.(pods := k1.pods[PodName(id) := Pod(id, false, pvcName, now)]), Some(Handle(PodName(id), pvcName)))
  }

  // Purge: the pod, the secret found through the pod's name, the PVC.
  function PurgeSandbox(k: Cluster, podName: string, pvcName: string): Cluster {
    var k1 := DropSecret(k.(pods := k.pods - {podName}), SessionIdFromPodName(podName));
    k1.(pvcs := k1.pvcs - {pvcName})
  }
}
