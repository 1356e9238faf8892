// What a caller asks of a create or a resume, and when it is granted
// (internal/manager/manager.go): the image, the posture, the pool, the cap.
module Requests {
  import opened Wrappers
  import opened Identifiers
  import opened Platform
  import opened Lifecycle

  // ---- The image ---------------------------------------------------------------

  // The characters with Unicode's property White_Space.
  predicate IsWhite(c: char) {
    || '\U{9}' <= c <= '\U{d}' || c == ' ' || c == '\U{85}' || c == '\U{a0}' || c == '\U{1680}'
    || '\U{2000}' <= c <= '\U{200a}' || c == '\U{2028}' || c == '\U{2029}' || c == '\U{202f}' || c == '\U{205f}'
    || c == '\U{3000}'
  }

  lemma SpaceIsWhite(c: char)
    ensures IsSpace(c) <==> IsWhite(c)
  {
  }

  ghost predicate White(s: string) { forall c | c in s :: IsWhite(c) }

  ghost predicate Around(a: string, alias: string, b: string, image: string) {
    White(a) && White(b) && image == a + alias + b
  }

  // White space around nothing, or around one of the two names of the default.
  ghost predicate MeansDefault(image: string) {
    exists a: string, alias: string, b: string ::
      alias in ["", "default", "sandbox-default"] && Around(a, alias, b, image)
  }

  ghost function WantedImage(c: Config, image: string): string {
    if MeansDefault(image) then c.defaultImage else image
  }

  // No white space at either end.
  ghost predicate Tight(s: string) { s != "" ==> !IsWhite(s[0]) && !IsWhite(s[|s| - 1]) }

  lemma {:induction false} TrimKeepsText(s: string) returns (a: string, b: string)
    ensures White(a) && White(b) && Tight(TrimSpace(s)) && s == a + TrimSpace(s) + b
    decreases |s|
  {
    hide IsSpace, IsWhite;
    if s != "" {
      SpaceIsWhite(s[0]);
      SpaceIsWhite(s[|s| - 1]);
    }
    if s != "" && IsSpace(s[0]) {
      a, b := TrimKeepsText(s[1..]);
      a := [s[0]] + a;
    } else if s != "" && IsSpace(s[|s| - 1]) {
      a, b := TrimKeepsText(s[..|s| - 1]);
      b := b + [s[|s| - 1]];
    } else {
      a, b := "", "";
    }
  }

  lemma {:induction false} TrimOfPadded(a: string, t: string, b: string)
    requires White(a) && White(b) && Tight(t)
    ensures TrimSpace(a + t + b) == t
    decreases |a| + |b|
  {
    hide IsSpace, IsWhite;
    var s := a + t + b;
    if s != "" {
      SpaceIsWhite(s[0]);
      SpaceIsWhite(s[|s| - 1]);
    }
    if a != "" {
      assert s[0] == a[0] && a[0] in a && s[1..] == a[1..] + t + b;
      TrimOfPadded(a[1..], t, b);
    } else if b != "" {
      var last := |b| - 1;
      assert b[0] in b && b[last] in b;
      if t == "" {
        assert s[0] == b[0] && s[1..] == a + t + b[1..];
        TrimOfPadded(a, t, b[1..]);
      } else {
        assert s[0] == t[0] && s[|s| - 1] == b[last] && s[..|s| - 1] == a + t + b[..last];
        TrimOfPadded(a, t, b[..last]);
      }
    } else {
      assert s == t;
    }
  }

  lemma AliasesAreTight(alias: string)
    requires alias in ["", "default", "sandbox-default"]
    ensures Tight(alias)
  {
  }

  // The image resolved is the one asked for, but for the names of the default.
  lemma ImageIsWanted(c: Config, image: string)
    ensures ResolveImage(c, image) == WantedImage(c, image)
  {
    hide IsSpace, IsWhite, TrimSpace;
    var a, b := TrimKeepsText(image);
    var core := TrimSpace(image);
    if core in {"", "default", "sandbox-default"} {
      assert Around(a, core, b, image);
    }
    if MeansDefault(image) {
      var x, alias, y :| alias in ["", "default", "sandbox-default"] && Around(x, alias, y, image);
      AliasesAreTight(alias);
      TrimOfPadded(x, alias, y);
    }
  }

  // An image written without blanks is taken as it is, unless it is such a name.
  lemma PrintableImageIsKept(c: Config, image: string)
    requires image != "" && forall ch | ch in image :: '!' <= ch <= '~'
    ensures ResolveImage(c, image) == if image == "default" || image == "sandbox-default" then c.defaultImage else image
  {
    hide WantedImage;
    assert image[0] in image && image[|image| - 1] in image;
    assert Tight(image);
    TrimOfPadded("", image, "");
    assert "" + image + "" == image;
  }

  // ---- A create --------------------------------------------------------------------

  // A warm sandbox serves only requests for the default image, and for no posture but
  // the configured one.
  ghost predicate FitsPool(c: Config, o: CreateOptions) {
    && WantedImage(c, o.image) == c.defaultImage
    && (o.writableRoot.Some? ==> o.writableRoot.value == c.writableRoot)
    && (o.runAsRoot.Some? ==> o.runAsRoot.value == c.runAsRoot)
  }

  ghost predicate ServedByPool(c: Config, s: System, o: CreateOptions) { c.pool && FitsPool(c, o) && s.idle != [] }

  // The platform takes the PVC, the secret if one is made, and the pod of a cold create.
  ghost predicate Obtainable(k: Cluster, id: string, ca: bool, f: ApiFault) {
    && f != PvcRefused && f != PodRefused && PvcName(id) !in k.pvcs && PodName(id) !in k.pods
    && (ca ==> f != SecretRefused && CaSecretName(id) !in k.secrets)
  }

  // There is room under the cap, a proxy and a sandbox.
  ghost predicate Granted(c: Config, s: System, o: CreateOptions, id: string, f: Faults) {
    && |IdsIn(s.store, Running)| + |IdsIn(s.store, Creating)| < c.maxRunning
    && (c.proxy ==> !f.assign && !f.scaler)
    && (ServedByPool(c, s, o) || Obtainable(s.kube, id, c.proxy && c.caCert, f.api))
  }

  // And the sandbox becomes ready.
  ghost predicate CanCreate(c: Config, s: System, o: CreateOptions, id: string, f: Faults) {
    Granted(c, s, o, id, f) && !f.notReady
  }

  // The record of a session just made.
  ghost function MadeRecord(c: Config, s: System, o: CreateOptions, id: string, now: int): Record {
    var pooled := ServedByPool(c, s, o);
    Record(id, o.ref, Running, WantedImage(c, o.image),
      if pooled then s.idle[0].podName else PodName(id), if pooled then s.idle[0].pvcName else PvcName(id),
      pooled, now, now, 0)
  }

  lemma PoolTakesWhatFits(c: Config, o: CreateOptions)
    ensures PoolEligible(c, o) <==> FitsPool(c, o)
  {
    ImageIsWanted(c, o.image);
  }

  // The platform with a pod, a PVC and, if asked for, a secret more, all of this id.
  ghost function Furnished(k: Cluster, id: string, pool: bool, ca: bool, now: int): Cluster {
    Cluster(k.pods[PodName(id) := Pod(id, pool, PvcName(id), now)], k.pvcs[PvcName(id) := Pvc(id, pool, now)],
      if ca then k.secrets + {CaSecretName(id)} else k.secrets)
  }

  lemma ColdCreateSucceeds(k: Cluster, id: string, pool: bool, ca: bool, now: int, f: ApiFault)
    ensures var (k', h) := CreateSandbox(k, id, pool, ca, now, f);
      && (h.Some? <==> Obtainable(k, id, ca, f))
      && (h.Some? ==> h.value == Handle(PodName(id), PvcName(id)) && k' == Furnished(k, id, pool, ca, now))
  {
    hide PodName, PvcName, CaSecretName;
  }

  // A create of an id that is not tracked succeeds if and only if it can, and then leaves
  // exactly this one record more, within the cap; the pool's first sandbox goes to it, or
  // it has new objects of its own, the secret among them. A sandbox that does not become
  // ready leaves a dead record; any other failure leaves the store alone.
  lemma CreateOutcome(c: Config, s: System, o: CreateOptions, newId: string, now: int, f: Faults)
    requires var id := if o.ref != "" then Canonical(c.sum, o.ref) else newId; id != "" && id !in s.store
    ensures var id := if o.ref != "" then Canonical(c.sum, o.ref) else newId;
      var (s', r) := Create(c, s, o, newId, now, f);
      && (r.Some? <==> CanCreate(c, s, o, id, f))
      && (r.Some? ==>
        && r.value == MadeRecord(c, s, o, id, now) && s'.store == s.store[id := r.value]
        && |IdsIn(s'.store, Running)| + |IdsIn(s'.store, Creating)| <= c.maxRunning
        && s'.idle == (if ServedByPool(c, s, o) then s.idle[1..] else s.idle)
        && (ServedByPool(c, s, o) ==> s'.kube == s.kube)
        && (!ServedByPool(c, s, o) ==> s'.kube == Furnished(s.kube, id, false, c.proxy && c.caCert, now)))
      && (r.None? && !Granted(c, s, o, id, f) ==> s'.store == s.store)
      && (r.None? && Granted(c, s, o, id, f) ==>
        s'.store == s.store[id := MadeRecord(c, s, o, id, now).(state := Dead)])
  {
    hide PodName, PvcName, CaSecretName, Canonical, ResolveImage, WantedImage, PoolEligible, FitsPool, CreateSandbox;
    hide PurgeSandbox, Obtainable, IdsIn;
    var id := if o.ref != "" then Canonical(c.sum, o.ref) else newId;
    PoolTakesWhatFits(c, o);
    ImageIsWanted(c, o.image);
    ColdCreateSucceeds(s.kube, id, false, c.proxy && c.caCert, now, f.api);
    OneMoreRunning(s.store, id, MadeRecord(c, s, o, id, now));
  }

  lemma OneMoreRunning(store: Store, id: string, r: Record)
    requires id !in store && r.state == Running
    ensures |IdsIn(store[id := r], Running)| == |IdsIn(store, Running)| + 1
    ensures IdsIn(store[id := r], Creating) == IdsIn(store, Creating)
  {
    assert IdsIn(store[id := r], Running) == IdsIn(store, Running) + {id};
  }

  // ---- A resume ----------------------------------------------------------------------

  // The platform takes the secret, if one is made, and the pod.
  ghost predicate Resumable(k: Cluster, id: string, ca: bool, f: ApiFault) {
    && f != PodRefused && PodName(id) !in k.pods
    && (ca ==> f != SecretRefused && CaSecretName(id) !in k.secrets)
  }

  // A stopped session is resumed if and only if its proxy, secret and pod are granted and
  // the pod becomes ready; it then runs under its own pod name, on the workspace it had,
  // its idle clock restarted. Otherwise it stays stopped, without a pod, and without a pod
  // name if its pod was given up.
  lemma ResumeOutcome(c: Config, s: System, id: string, now: int, f: Faults)
    requires id in s.store && s.store[id].state == Stopped
    ensures var was := s.store[id]; var (s', r) := Resume(c, s, id, now, f);
      && (r.Some? <==> !(c.proxy && f.assign) && Resumable(s.kube, id, c.proxy && c.caCert, f.api) && !f.notReady)
      && (r.Some? ==>
        && r.value == was.(podName := PodName(id), state := Running, lastActivityAt := now)
        && s'.kube == Cluster(s.kube.pods[PodName(id) := Pod(id, false, was.pvcName, now)], s.kube.pvcs,
              if c.proxy && c.caCert then s.kube.secrets + {CaSecretName(id)} else s.kube.secrets))
      && (r.None? ==> s'.kube.pods == s.kube.pods && s'.kube.pvcs == s.kube.pvcs)
      && s'.store ==
        if (c.proxy && f.assign) || !Resumable(s.kube, id, c.proxy && c.caCert, f.api) then s.store
        else s.store[id := if f.notReady then was.(podName := "") else r.value]
  {
    hide PodName, PvcName, CaSecretName, SessionIdFromPodName;
  }

  // ---- A warm sandbox ------------------------------------------------------------------

  lemma TargetIsMinIdle(c: Config)
    ensures Validated(c) ==> TargetIdle(c) == c.minIdleReady
    ensures TargetIdle(c) <= c.minIdleReady
  {
  }

  // The pool grows by one sandbox, complete and labelled as the pool's, if and only if it
  // is below the number wanted, the platform takes its objects, and it becomes ready.
  lemma WarmOutcome(c: Config, s: System, id: string, now: int, f: Faults)
    requires Validated(c)
    ensures var (s', ok) := Warm(c, s, id, now, f);
      && (ok <==> |s.idle| < c.minIdleReady && Obtainable(s.kube, id, c.poolCaCert, f.api) && !f.notReady)
      && s'.idle == (if ok then s.idle + [Handle(PodName(id), PvcName(id))] else s.idle)
      && (ok ==> s'.kube == Furnished(s.kube, id, true, c.poolCaCert, now))
  {
    hide PodName, PvcName, CaSecretName, CreateSandbox, PurgeSandbox, Obtainable, TargetIdle;
    TargetIsMinIdle(c);
    ColdCreateSucceeds(s.kube, id, true, c.poolCaCert, now, f.api);
    var (k, h) := CreateSandbox(s.kube, id, true, c.poolCaCert, now, f.api);
    assert h.Some? <==> Obtainable(s.kube, id, c.poolCaCert, f.api);
  }

  // ---- A stop, a delete, a clear ---------------------------------------------------------

  // Each fails for an unknown session alone, and then changes nothing; stopping a stopped or
  // dead session changes nothing either.
  lemma KnownSessionsOnly(c: Config, s: System, id: string, ref: string, now: int)
    ensures Stop(s, id, now).1 <==> id in s.store
    ensures Delete(s, id).1 <==> id in s.store
    ensures Clear(c, s, ref).1 <==> ref != "" && Canonical(c.sum, ref) in s.store
    ensures id !in s.store || s.store[id].state in {Stopped, Dead} ==> Stop(s, id, now).0 == s
    ensures id !in s.store ==> Delete(s, id).0 == s
    ensures !Clear(c, s, ref).1 ==> Clear(c, s, ref).0 == s
  {
    hide Canonical, PurgeSandbox, StopSandbox;
  }

  // ---- Names -------------------------------------------------------------------------------

  lemma PrefixKeepsLabel(prefix: string, id: string)
    requires IsLabel(id) && |prefix| > 0 && IsAlnum(prefix[0])
    requires forall i | 0 <= i < |prefix| :: IsAlnum(prefix[i]) || prefix[i] == '-'
    ensures IsLabel(prefix + id)
  {
    var s := prefix + id;
    forall i | 0 <= i < |s| ensures IsAlnum(s[i]) || s[i] == '-' {
      if i < |prefix| { assert s[i] == prefix[i]; } else { assert s[i] == id[i - |prefix|]; }
    }
  }

  // The names of a session's pod, PVC and secret are labels of at most 63 characters.
  lemma NamesAreLabels(sum: Digest, ref: string)
    ensures var id := Canonical(sum, ref);
      && IsLabel(PodName(id)) && |PodName(id)| <= 63
      && IsLabel(PvcName(id)) && |PvcName(id)| <= 63
      && IsLabel(CaSecretName(id)) && |CaSecretName(id)| <= 63
  {
    CanonicalIsLabel(sum, ref);
    var id := Canonical(sum, ref);
    hide Canonical, IsLabel;
    PrefixKeepsLabel("sbx-", id);
    PrefixKeepsLabel("pvc-", id);
    PrefixKeepsLabel("ca-", id);
  }
}
