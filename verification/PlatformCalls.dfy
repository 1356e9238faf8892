// The runtime's operations as sequences of single API calls, each of which the
// orchestrator may die before or after (internal/runtime/kubernetes.go).
module PlatformCalls {
  import opened Identifiers
  import opened Platform
  import opened Agreement

  datatype Call =
    | PutPvc(id: string, pool: bool, at: int)
    | PutSecret(id: string)
    | PutPod(id: string, pool: bool, pvcName: string, at: int)
    | DropPod(podName: string)
    | DropSecret(id: string)
    | DropPvc(pvcName: string)

  function Perform(k: Cluster, call: Call): Cluster {
    match call
    case PutPvc(id, pool, at) => k.(pvcs := k.pvcs[PvcName(id) := Pvc(id, pool, at)])
    case PutSecret(id) => k.(secrets := k.secrets + {CaSecretName(id)})
    case PutPod(id, pool, pvcName, at) => k.(pods := k.pods[PodName(id) := Pod(id, pool, pvcName, at)])
    case DropPod(podName) => k.(pods := k.pods - {podName})
    case DropSecret(id) => k.(secrets := k.secrets - {CaSecretName(id)})
    case DropPvc(pvcName) => k.(pvcs := k.pvcs - {pvcName})
  }

  function PerformAll(k: Cluster, calls: seq<Call>): Cluster
    decreases |calls|
  {
    if calls == [] then k else PerformAll(Perform(k, calls[0]), calls[1..])
  }

  // ---- The calls each operation makes, in order -------------------------------------

  function CreateCalls(k: Cluster, id: string, pool: bool, ca: bool, now: int, f: ApiFault): seq<Call> {
    if f == PvcRefused || PvcName(id) in k.pvcs then []
    else if ca && (f == SecretRefused || CaSecretName(id) in k.secrets) then [PutPvc(id, pool, now)]
    else
      var begin := [PutPvc(id, pool, now)] + if ca then [PutSecret(id)] else [];
      begin + (if f == PodRefused || PodName(id) in k.pods then [DropSecret(id), DropPvc(PvcName(id))]
               else [PutPod(id, pool, PvcName(id), now)])
  }

  function SecretCalls(id: string): seq<Call> { if id == "" then [] else [DropSecret(id)] }

  function StopCalls(k: Cluster, podName: string): seq<Call> {
    var id := if podName in k.pods && k.pods[podName].session != "" then k.pods[podName].session
              else SessionIdFromPodName(podName);
    [DropPod(podName)] + SecretCalls(id)
  }

  function ResumeCalls(k: Cluster, id: string, pvcName: string, ca: bool, now: int, f: ApiFault): seq<Call> {
    if ca && (f == SecretRefused || CaSecretName(id) in k.secrets) then []
    else
      (if ca then [PutSecret(id)] else [])
      + (if f == PodRefused || PodName(id) in k.pods then [] else [PutPod(id, false, pvcName, now)])
  }

  function PurgeCalls(podName: string, pvcName: string): seq<Call> {
    [DropPod(podName)] + SecretCalls(SessionIdFromPodName(podName)) + [DropPvc(pvcName)]
  }

  lemma {:induction false} PerformConcat(k: Cluster, a: seq<Call>, b: seq<Call>)
    ensures PerformAll(k, a + b) == PerformAll(PerformAll(k, a), b)
    decreases |a|
  {
    hide Perform;
    if a == [] {
      assert a + b == b;
    } else {
      assert (a + b)[1..] == a[1..] + b;
      PerformConcat(Perform(k, a[0]), a[1..], b);
    }
  }

  lemma PerformOne(k: Cluster, call: Call)
    ensures PerformAll(k, [call]) == Perform(k, call)
  {
  }

  lemma PerformTwo(k: Cluster, a: Call, b: Call)
    ensures PerformAll(k, [a, b]) == Perform(Perform(k, a), b)
  {
    assert [a, b] == [a] + [b];
    PerformConcat(k, [a], [b]);
  }

  // What a create has made before its pod.
  lemma CreateBegins(k: Cluster, id: string, pool: bool, ca: bool, now: int)
    ensures PerformAll(k, [PutPvc(id, pool, now)] + if ca then [PutSecret(id)] else [])
      == k.(pvcs := k.pvcs[PvcName(id) := Pvc(id, pool, now)],
            secrets := if ca then k.secrets + {CaSecretName(id)} else k.secrets)
  {
    hide PodName, PvcName, CaSecretName;
    PerformOne(k, PutPvc(id, pool, now));
    PerformTwo(k, PutPvc(id, pool, now), PutSecret(id));
    assert ca ==> [PutPvc(id, pool, now)] + [PutSecret(id)] == [PutPvc(id, pool, now), PutSecret(id)];
  }

  lemma CreateIsItsCalls(k: Cluster, id: string, pool: bool, ca: bool, now: int, f: ApiFault)
    ensures PerformAll(k, CreateCalls(k, id, pool, ca, now, f)) == CreateSandbox(k, id, pool, ca, now, f).0
  {
    hide PodName, PvcName, CaSecretName;
    var begin := [PutPvc(id, pool, now)] + if ca then [PutSecret(id)] else [];
    var end := if f == PodRefused || PodName(id) in k.pods then [DropSecret(id), DropPvc(PvcName(id))]
               else [PutPod(id, pool, PvcName(id), now)];
    CreateBegins(k, id, pool, ca, now);
    PerformConcat(k, begin, end);
    var k1 := PerformAll(k, begin);
    PerformOne(k, PutPvc(id, pool, now));
    PerformTwo(k1, DropSecret(id), DropPvc(PvcName(id)));
    PerformOne(k1, PutPod(id, pool, PvcName(id), now));
    if PvcName(id) !in k.pvcs {
      assert k.pvcs[PvcName(id) := Pvc(id, pool, now)] - {PvcName(id)} == k.pvcs;
      assert k.secrets + {CaSecretName(id)} - {CaSecretName(id)} == k.secrets - {CaSecretName(id)};
    }
  }

  lemma StopIsItsCalls(k: Cluster, podName: string)
    ensures PerformAll(k, StopCalls(k, podName)) == StopSandbox(k, podName)
  {
    hide PodName, PvcName, CaSecretName, SessionIdFromPodName;
    var id := if podName in k.pods && k.pods[podName].session != "" then k.pods[podName].session
              else SessionIdFromPodName(podName);
    PerformOne(k, DropPod(podName));
    PerformConcat(k, [DropPod(podName)], SecretCalls(id));
    PerformOne(PerformAll(k, [DropPod(podName)]), DropSecret(id));
  }

  lemma ResumeIsItsCalls(k: Cluster, id: string, pvcName: string, ca: bool, now: int, f: ApiFault)
    ensures PerformAll(k, ResumeCalls(k, id, pvcName, ca, now, f)) == ResumeSandbox(k, id, pvcName, ca, now, f).0
  {
    hide PodName, PvcName, CaSecretName;
    var a := if ca then [PutSecret(id)] else [];
    var b := if f == PodRefused || PodName(id) in k.pods then [] else [PutPod(id, false, pvcName, now)];
    PerformConcat(k, a, b);
    PerformOne(k, PutSecret(id));
    PerformOne(PerformAll(k, a), PutPod(id, false, pvcName, now));
  }

  lemma PurgeIsItsCalls(k: Cluster, podName: string, pvcName: string)
    ensures PerformAll(k, PurgeCalls(podName, pvcName)) == PurgeSandbox(k, podName, pvcName)
  {
    hide PodName, PvcName, CaSecretName, SessionIdFromPodName;
    var drop := SecretCalls(SessionIdFromPodName(podName));
    PerformConcat(k, [DropPod(podName)] + drop, [DropPvc(pvcName)]);
    PerformConcat(k, [DropPod(podName)], drop);
    PerformOne(k, DropPod(podName));
    PerformOne(PerformAll(k, [DropPod(podName)]), DropSecret(SessionIdFromPodName(podName)));
    PerformOne(PerformAll(k, [DropPod(podName)] + drop), DropPvc(pvcName));
  }

  // ---- Calls that keep the platform in order ------------------------------------------

  // A PVC and a pod are new and carry their own labels, a pod mounts a PVC no other pod
  // mounts, and only unmounted PVCs go.
  ghost predicate Safe(k: Cluster, call: Call, issued: set<string>) {
    match call
    case PutPvc(id, pool, _) => LabelOk(id, pool, issued) && PvcName(id) !in k.pvcs
    case PutPod(id, pool, pvcName, _) =>
      && LabelOk(id, pool, issued) && PodName(id) !in k.pods && pvcName in k.pvcs && Unmounted(k, pvcName)
      && pvcName == PvcName(PvcLabel(pvcName))
      && (PvcLabel(pvcName) == id || (!pool && IsPoolLabel(PvcLabel(pvcName))))
    case DropPvc(pvcName) => Unmounted(k, pvcName)
    case _ => true
  }

  ghost predicate AllSafe(k: Cluster, calls: seq<Call>, issued: set<string>)
    decreases |calls|
  {
    calls == [] || (Safe(k, calls[0], issued) && AllSafe(Perform(k, calls[0]), calls[1..], issued))
  }

  lemma SafeKeepsCluster(k: Cluster, call: Call, issued: set<string>)
    requires ClusterOk(k, issued) && Safe(k, call, issued)
    ensures ClusterOk(Perform(k, call), issued)
  {
    hide PodName, PvcName, PvcLabel, CaSecretName, LabelOk;
    var k' := Perform(k, call);
    match call
    case PutPvc(id, pool, at) => AddPvc(k, k', id, pool, at, issued);
    case PutPod(id, pool, pvcName, at) => AddPod(k, k', id, Pod(id, pool, pvcName, at), issued);
    case DropPod(podName) => RemovalKeepsCluster(k, k', {podName}, {}, issued);
    case DropPvc(pvcName) => RemovalKeepsCluster(k, k', {}, {pvcName}, issued);
    case _ => RemovalKeepsCluster(k, k', {}, {}, issued);
  }

  // Wherever a sequence of safe calls is cut off, the platform is in order.
  lemma {:induction false} PrefixKeepsCluster(k: Cluster, calls: seq<Call>, n: nat, issued: set<string>)
    requires ClusterOk(k, issued) && AllSafe(k, calls, issued) && n <= |calls|
    ensures ClusterOk(PerformAll(k, calls[..n]), issued)
    decreases |calls|
  {
    hide ClusterOk, Safe, Perform;
    if n > 0 {
      SafeKeepsCluster(k, calls[0], issued);
      PrefixKeepsCluster(Perform(k, calls[0]), calls[1..], n - 1, issued);
      assert calls[..n][1..] == calls[1..][..n - 1];
    }
  }

  lemma {:induction false} SafeConcat(k: Cluster, a: seq<Call>, b: seq<Call>, issued: set<string>)
    requires AllSafe(k, a, issued) && AllSafe(PerformAll(k, a), b, issued)
    ensures AllSafe(k, a + b, issued)
    decreases |a|
  {
    hide Safe, Perform;
    if a == [] {
      assert a + b == b;
    } else {
      assert (a + b)[1..] == a[1..] + b;
      SafeConcat(Perform(k, a[0]), a[1..], b, issued);
    }
  }

  lemma SafeOne(k: Cluster, call: Call, issued: set<string>)
    requires Safe(k, call, issued)
    ensures AllSafe(k, [call], issued)
  {
  }

  lemma CreateIsSafe(k: Cluster, id: string, pool: bool, ca: bool, now: int, f: ApiFault, issued: set<string>)
    requires ClusterOk(k, issued) && LabelOk(id, pool, issued)
    ensures AllSafe(k, CreateCalls(k, id, pool, ca, now, f), issued)
  {
    hide PodName, PvcName, PvcLabel, CaSecretName, LabelOk, ClusterOk;
    if f != PvcRefused && PvcName(id) !in k.pvcs {
      var put := PutPvc(id, pool, now);
      FreshPvcIsUnmounted(k, PvcName(id), issued);
      SafeOne(k, put, issued);
      PerformOne(k, put);
      var k1 := Perform(k, put);
      if !(ca && (f == SecretRefused || CaSecretName(id) in k.secrets)) {
        var secret := if ca then [PutSecret(id)] else [];
        SafeOne(k1, PutSecret(id), issued);
        PerformOne(k1, PutSecret(id));
        SafeConcat(k, [put], secret, issued);
        PerformConcat(k, [put], secret);
        var k2 := PerformAll(k, [put] + secret);
        assert PvcLabel(PvcName(id)) == id;
        if f == PodRefused || PodName(id) in k.pods {
          PerformOne(k2, DropSecret(id));
          SafeOne(k2, DropSecret(id), issued);
          SafeOne(Perform(k2, DropSecret(id)), DropPvc(PvcName(id)), issued);
          SafeConcat(k2, [DropSecret(id)], [DropPvc(PvcName(id))], issued);
          assert [DropSecret(id), DropPvc(PvcName(id))] == [DropSecret(id)] + [DropPvc(PvcName(id))];
          SafeConcat(k, [put] + secret, [DropSecret(id), DropPvc(PvcName(id))], issued);
        } else {
          SafeOne(k2, PutPod(id, pool, PvcName(id), now), issued);
          SafeConcat(k, [put] + secret, [PutPod(id, pool, PvcName(id), now)], issued);
        }
      }
    }
  }

  lemma StopIsSafe(k: Cluster, podName: string, issued: set<string>)
    ensures AllSafe(k, StopCalls(k, podName), issued)
  {
    hide SessionIdFromPodName;
    var id := if podName in k.pods && k.pods[podName].session != "" then k.pods[podName].session
              else SessionIdFromPodName(podName);
    SafeOne(k, DropPod(podName), issued);
    SafeOne(PerformAll(k, [DropPod(podName)]), DropSecret(id), issued);
    SafeConcat(k, [DropPod(podName)], SecretCalls(id), issued);
  }

  lemma ResumeIsSafe(k: Cluster, id: string, pvcName: string, ca: bool, now: int, f: ApiFault, issued: set<string>)
    requires LabelOk(id, false, issued) && pvcName in k.pvcs && Unmounted(k, pvcName)
    requires pvcName == PvcName(PvcLabel(pvcName))
    requires PvcLabel(pvcName) == id || IsPoolLabel(PvcLabel(pvcName))
    ensures AllSafe(k, ResumeCalls(k, id, pvcName, ca, now, f), issued)
  {
    hide PodName, PvcName, PvcLabel, CaSecretName, LabelOk;
    var a := if ca then [PutSecret(id)] else [];
    SafeOne(k, PutSecret(id), issued);
    PerformOne(k, PutSecret(id));
    var k1 := PerformAll(k, a);
    assert k1.pods == k.pods && k1.pvcs == k.pvcs;
    if PodName(id) !in k.pods {
      SafeOne(k1, PutPod(id, false, pvcName, now), issued);
      SafeConcat(k, a, [PutPod(id, false, pvcName, now)], issued);
    }
    assert a + [] == a;
  }

  // A purge is safe when no pod but the one purged mounts the PVC.
  lemma PurgeIsSafe(k: Cluster, podName: string, pvcName: string, issued: set<string>)
    requires forall p | p in k.pods && p != podName :: k.pods[p].pvc != pvcName
    ensures AllSafe(k, PurgeCalls(podName, pvcName), issued)
  {
    hide SessionIdFromPodName;
    var id := SessionIdFromPodName(podName);
    SafeOne(k, DropPod(podName), issued);
    PerformOne(k, DropPod(podName));
    var k1 := Perform(k, DropPod(podName));
    SafeOne(k1, DropSecret(id), issued);
    SafeConcat(k, [DropPod(podName)], SecretCalls(id), issued);
    PerformConcat(k, [DropPod(podName)], SecretCalls(id));
    PerformOne(k1, DropSecret(id));
    var k2 := PerformAll(k, [DropPod(podName)] + SecretCalls(id));
    SafeOne(k2, DropPvc(pvcName), issued);
    SafeConcat(k, [DropPod(podName)] + SecretCalls(id), [DropPvc(pvcName)], issued);
  }
}
