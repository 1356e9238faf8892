// The contract of the header-driven entry point.
module GetOrCreate {
  import opened Identifiers
  import opened Platform
  import opened Lifecycle
  import opened Agreement
  import opened Requests
  import opened Tidiness

  // The caller asked for a particular image and for recreation to get it.
  predicate AsksForImage(o: CreateOptions, recreate: bool) { recreate && o.image != "" }

  predicate Reusable(s: System, id: string) { id in s.store && s.store[id].state in {Running, Stopped} }

  lemma CreateContract(c: Config, s: System, o: CreateOptions, now: int, f: Faults)
    requires o.ref != "" && Canonical(c.sum, o.ref) !in s.store
    ensures var id := Canonical(c.sum, o.ref); var (s', r) := Create(c, s, o, "", now, f);
      && SameElsewhere(s.store, s'.store, id)
      && (r.Some? <==> id in s'.store && s'.store[id].state == Running)
      && (r.Some? ==> s'.store[id] == r.value && r.value.id == id && r.value.image == WantedImage(c, o.image))
  {
    hide Create, Canonical, WantedImage, CanCreate, ServedByPool;
    CanonicalNamespace(c.sum, o.ref);
    CreateOutcome(c, s, o, "", now, f);
    var id := Canonical(c.sum, o.ref);
    var (s', r) := Create(c, s, o, "", now, f);
    if r.Some? {
      assert s'.store[id] == MadeRecord(c, s, o, id, now);
    } else {
      assert id in s'.store ==> s'.store[id].state == Dead;
    }
  }

  lemma ResumeContract(c: Config, s: System, id: string, now: int, f: Faults)
    requires id in s.store && s.store[id].id == id && s.store[id].state == Stopped
    ensures var (s', r) := Resume(c, s, id, now, f);
      && SameElsewhere(s.store, s'.store, id)
      && id in s'.store && s'.store[id].id == id
      && s'.store[id].image == s.store[id].image && s'.store[id].pvcName == s.store[id].pvcName
      && (r.Some? <==> s'.store[id].state == Running)
      && (r.Some? ==> s'.store[id] == r.value)
  {
  }

  lemma EnsureRecord(c: Config, s: System, o: CreateOptions, recreate: bool, now: int, f: Faults)
    requires o.ref != ""
    requires (Canonical(c.sum, o.ref) in s.store ==> s.store[Canonical(c.sum, o.ref)].id == Canonical(c.sum, o.ref))
    ensures var id := Canonical(c.sum, o.ref); var (s', r) := Ensure(c, s, o, recreate, now, f);
      && SameElsewhere(s.store, s'.store, id)
      && (r.Some? <==> id in s'.store && s'.store[id].state == Running)
      && (r.Some? ==>
        && s'.store[id] == r.value && r.value.id == id
        && (if AsksForImage(o, recreate) || !Reusable(s, id) then r.value.image == WantedImage(c, o.image)
            else r.value.image == s.store[id].image && r.value.pvcName == s.store[id].pvcName))
  {
    hide Create, Resume, Canonical, ResolveImage, PurgeSandbox, WantedImage;
    var id := Canonical(c.sum, o.ref);
    ImageIsWanted(c, o.image);
    if id !in s.store {
      CreateContract(c, s, o, now, f);
    } else {
      CreateContract(c, PurgeAndForget(s, id), o, now, f);
      if s.store[id].state == Stopped { ResumeContract(c, s, id, now, f); }
    }
  }

  // ---- Other sessions -----------------------------------------------------------

  ghost predicate PodOfOne(p: string, tags: set<string>) { exists t :: t in tags && p == PodName(t) }

  ghost predicate PvcOfOne(v: string, tags: set<string>) { exists t :: t in tags && v == PvcName(t) }

  // Only objects named after these tags have changed.
  ghost predicate ChangesOnly(k: Cluster, k': Cluster, tags: set<string>) {
    && (forall p | !PodOfOne(p, tags) :: (p in k.pods <==> p in k'.pods) && (p in k.pods ==> k'.pods[p] == k.pods[p]))
    && (forall v | !PvcOfOne(v, tags) :: (v in k.pvcs <==> v in k'.pvcs) && (v in k.pvcs ==> k'.pvcs[v] == k.pvcs[v]))
    && (forall t | t !in tags :: CaSecretName(t) in k.secrets <==> CaSecretName(t) in k'.secrets)
  }

  lemma ChangesConcat(k: Cluster, a: set<string>, k1: Cluster, b: set<string>, k2: Cluster)
    requires ChangesOnly(k, k1, a) && ChangesOnly(k1, k2, b)
    ensures ChangesOnly(k, k2, a + b)
  {
    hide PodName, PvcName, CaSecretName;
    forall p ensures PodOfOne(p, a + b) <==> PodOfOne(p, a) || PodOfOne(p, b) { UnionOfNames(p, a, b); }
    forall v ensures PvcOfOne(v, a + b) <==> PvcOfOne(v, a) || PvcOfOne(v, b) { UnionOfNames(v, a, b); }
    hide PodOfOne, PvcOfOne;
  }

  lemma UnionOfNames(p: string, a: set<string>, b: set<string>)
    ensures PodOfOne(p, a + b) <==> PodOfOne(p, a) || PodOfOne(p, b)
    ensures PvcOfOne(p, a + b) <==> PvcOfOne(p, a) || PvcOfOne(p, b)
  {
    hide PodName, PvcName;
    if t :| t in a && p == PodName(t) { assert t in a + b; }
    if t :| t in b && p == PodName(t) { assert t in a + b; }
    if t :| t in a && p == PvcName(t) { assert t in a + b; }
    if t :| t in b && p == PvcName(t) { assert t in a + b; }
  }

  lemma ChangesNothing(k: Cluster, tags: set<string>)
    ensures ChangesOnly(k, k, tags)
  {
  }

  lemma CreateSandboxChanges(k: Cluster, id: string, pool: bool, ca: bool, now: int, f: ApiFault)
    ensures ChangesOnly(k, CreateSandbox(k, id, pool, ca, now, f).0, {id})
  {
    hide PodName, PvcName, SessionIdFromPodName, CaSecretName;
    forall t ensures t != id ==> CaSecretName(t) != CaSecretName(id) { NamesDiffer(t, id); }
    assert PodOfOne(PodName(id), {id}) && PvcOfOne(PvcName(id), {id});
  }

  // A purge changes objects of the two tags its names are made from; no pod is named
  // by the empty string.
  lemma PurgeChanges(k: Cluster, podName: string, pvcName: string, tags: set<string>)
    requires (podName == "" && "" !in k.pods) || (PodOfOne(podName, tags) && SessionIdFromPodName(podName) in tags)
    requires PvcOfOne(pvcName, tags)
    ensures ChangesOnly(k, PurgeSandbox(k, podName, pvcName), tags)
  {
    NoNameFromNothing();
    hide PodName, PvcName, SessionIdFromPodName, CaSecretName;
    forall t, u ensures t != u ==> CaSecretName(t) != CaSecretName(u) { NamesDiffer(t, u); }
  }

  lemma ResumeSandboxChanges(k: Cluster, id: string, pvcName: string, ca: bool, now: int, f: ApiFault)
    ensures ChangesOnly(k, ResumeSandbox(k, id, pvcName, ca, now, f).0, {id})
  {
    hide PodName, PvcName, CaSecretName;
    forall t ensures t != id ==> CaSecretName(t) != CaSecretName(id) { NamesDiffer(t, id); }
    assert PodOfOne(PodName(id), {id});
  }

  lemma StopOwnChanges(k: Cluster, id: string)
    requires id != "" && PodName(id) in k.pods && k.pods[PodName(id)].session == id
    ensures ChangesOnly(k, StopSandbox(k, PodName(id)), {id})
  {
    hide PodName, PvcName, CaSecretName;
    forall t ensures t != id ==> CaSecretName(t) != CaSecretName(id) { NamesDiffer(t, id); }
    assert PodOfOne(PodName(id), {id});
  }

  lemma ResumeChanges(c: Config, s: System, id: string, now: int, f: Faults)
    requires id != ""
    ensures ChangesOnly(s.kube, Resume(c, s, id, now, f).0.kube, {id})
  {
    hide PodName, PvcName, SessionIdFromPodName, CaSecretName, ChangesOnly, ResumeSandbox, StopSandbox;
    ChangesNothing(s.kube, {id});
    if id in s.store && s.store[id].state == Stopped && !(c.proxy && f.assign) {
      var pvcName, ca := s.store[id].pvcName, c.proxy && c.caCert;
      var (k, h) := ResumeSandbox(s.kube, id, pvcName, ca, now, f.api);
      ResumeSandboxChanges(s.kube, id, pvcName, ca, now, f.api);
      ResumeSandboxEffect(s.kube, id, pvcName, ca, now, f.api);
      if h.Some? {
        StopOwnChanges(k, id);
        ChangesConcat(s.kube, {id}, k, {id}, StopSandbox(k, PodName(id)));
        assert {id} + {id} == {id};
      }
    }
  }

  // The tags whose objects an operation on `id` may change: its own, the one its
  // workspace came from, and the one at the front of the pool.
  ghost function Tags(s: System, id: string): set<string> {
    {id} + (if id in s.store then {Home(s.store[id])} else {})
    + (if s.idle != [] then {SessionIdFromPodName(s.idle[0].podName)} else {})
  }

  lemma ProvisionChanges(c: Config, s: System, o: CreateOptions, id: string, now: int, f: Faults, issued: set<string>)
    requires Inv(s, issued)
    ensures var (s1, h, fromPool) := Provision(c, s, o, id, now, f);
      && ChangesOnly(s.kube, s1.kube, Tags(s, id))
      && (h.Some? ==> exists t :: t in Tags(s, id) && h.value == Handle(PodName(t), PvcName(t)))
  {
    hide PodName, PvcName, SessionIdFromPodName, CaSecretName, CreateSandbox, Inv, ChangesOnly, PoolEligible;
    var tags, ca := Tags(s, id), c.proxy && c.caCert;
    var (s1, h, fromPool) := Provision(c, s, o, id, now, f);
    if fromPool {
      AcquireKeepsInv(s, issued);
      ChangesNothing(s.kube, tags);
    } else {
      CreateSandboxChanges(s.kube, id, false, ca, now, f.api);
      CreateSandboxEffect(s.kube, id, false, ca, now, f.api);
      ChangesNothing(s1.kube, tags);
      ChangesConcat(s.kube, {id}, s1.kube, tags, s1.kube);
      assert {id} + tags == tags;
    }
  }

  lemma CreateChanges(c: Config, s: System, o: CreateOptions, newId: string, now: int, f: Faults, issued: set<string>)
    requires Inv(s, issued)
    ensures ChangesOnly(s.kube, Create(c, s, o, newId, now, f).0.kube, Tags(s, SessionId(c, o, newId)))
  {
    hide PodName, PvcName, SessionIdFromPodName, CaSecretName, PurgeSandbox, Provision, SessionId, IdsIn, Inv;
    hide ChangesOnly, PodOfOne, PvcOfOne, Tags;
    var id := SessionId(c, o, newId);
    var tags := Tags(s, id);
    var (s1, h, fromPool) := Provision(c, s, o, id, now, f);
    ChangesNothing(s.kube, tags);
    ProvisionChanges(c, s, o, id, now, f, issued);
    if h.Some? {
      var t :| t in tags && h.value == Handle(PodName(t), PvcName(t));
      NamesOfTag(t, tags);
      PurgeChanges(s1.kube, h.value.podName, h.value.pvcName, tags);
      ChangesConcat(s.kube, tags, s1.kube, tags, PurgeSandbox(s1.kube, h.value.podName, h.value.pvcName));
      assert tags + tags == tags;
    }
  }

  lemma NamesOfTag(t: string, tags: set<string>)
    requires t in tags
    ensures PodOfOne(PodName(t), tags) && PvcOfOne(PvcName(t), tags) && SessionIdFromPodName(PodName(t)) == t
  {
    hide PodName, PvcName;
  }

  lemma ForgetChanges(s: System, id: string, issued: set<string>)
    requires Inv(s, issued) && id in s.store
    ensures ChangesOnly(s.kube, PurgeAndForget(s, id).kube, Tags(s, id))
  {
    hide PodName, PvcName, PvcLabel, SessionIdFromPodName, CaSecretName, PurgeSandbox, ChangesOnly, PodOfOne, PvcOfOne;
    var r := s.store[id];
    assert RecordOk(r, id, issued);
    EmptyNameIsNoPod(s.kube, issued);
    NamesOfTag(id, Tags(s, id));
    NamesOfTag(Home(r), Tags(s, id));
    PurgeChanges(s.kube, r.podName, r.pvcName, Tags(s, id));
  }

  lemma EnsureChanges(c: Config, s: System, o: CreateOptions, recreate: bool, now: int, f: Faults, issued: set<string>)
    requires Inv(s, issued) && o.ref != ""
    ensures ChangesOnly(s.kube, Ensure(c, s, o, recreate, now, f).0.kube, Tags(s, Canonical(c.sum, o.ref)))
  {
    hide Create, Resume, Canonical, ResolveImage, PurgeSandbox, Inv, ChangesOnly, Home, SessionIdFromPodName;
    var id := Canonical(c.sum, o.ref);
    CanonicalNamespace(c.sum, o.ref);
    var tags := Tags(s, id);
    ChangesNothing(s.kube, tags);
    if id !in s.store {
      CreateChanges(c, s, o, "", now, f, issued);
    } else {
      var s1 := PurgeAndForget(s, id);
      ForgetChanges(s, id, issued);
      ForgetKeepsInv(s, id, issued);
      CreateChanges(c, s1, o, "", now, f, issued);
      ChangesConcat(s.kube, tags, s1.kube, Tags(s1, id), Create(c, s1, o, "", now, f).0.kube);
      assert tags + Tags(s1, id) == tags;
      ResumeChanges(c, s, id, now, f);
      var resumed := Resume(c, s, id, now, f).0.kube;
      ChangesNothing(resumed, tags);
      ChangesConcat(s.kube, {id}, resumed, tags, resumed);
      assert {id} + tags == tags;
    }
  }

  ghost predicate SameSecret(k: Cluster, k': Cluster, tag: string) {
    CaSecretName(tag) in k.secrets <==> CaSecretName(tag) in k'.secrets
  }

  // A session's pod, its CA secret and its PVC are as they were, or missing as they were.
  ghost predicate Untouched(k: Cluster, k': Cluster, r: Record) {
    && (r.podName in k.pods <==> r.podName in k'.pods)
    && (r.podName in k.pods ==> k'.pods[r.podName] == k.pods[r.podName])
    && (r.podName in k.pods ==> SameSecret(k, k', SessionIdFromPodName(r.podName)))
    && (r.pvcName in k.pvcs <==> r.pvcName in k'.pvcs)
    && (r.pvcName in k.pvcs ==> k'.pvcs[r.pvcName] == k.pvcs[r.pvcName])
  }

  lemma OtherIsUntouched(s: System, k': Cluster, id: string, x: string, issued: set<string>)
    requires Inv(s, issued) && x in s.store && x != id && IsSessionLabel(id) && ChangesOnly(s.kube, k', Tags(s, id))
    ensures Untouched(s.kube, k', s.store[x])
  {
    hide PodName, PvcName, PvcLabel, SessionIdFromPodName, CaSecretName, IsSessionLabel, IsPoolLabel;
    var r := s.store[x];
    assert RecordOk(r, x, issued);
    EmptyNameIsNoPod(s.kube, issued);
    forall t | t in Tags(s, id)
      ensures r.pvcName != PvcName(t) && r.podName != PodName(t)
    {
      ForeignTag(s, id, x, t, issued);
    }
    if r.podName in s.kube.pods { LivePod(s, x, issued); }
    if r.podName != "" { assert r.podName == PodName(SessionIdFromPodName(r.podName)); }
  }

  lemma ForeignTag(s: System, id: string, x: string, t: string, issued: set<string>)
    requires Inv(s, issued) && x in s.store && x != id && IsSessionLabel(id) && t in Tags(s, id)
    ensures s.store[x].pvcName != PvcName(t) && s.store[x].podName != PodName(t)
  {
    hide PodName, PvcName, PvcLabel, SessionIdFromPodName;
    assert RecordOk(s.store[x], x, issued);
    if id in s.store {
      assert RecordOk(s.store[id], id, issued);
      NamesApart(s, x, id, issued);
    }
    if s.idle != [] {
      IdleApart(s, x, 0, issued);
      IdleHandleOk(s, 0, issued);
    }
  }

  // A call succeeds exactly when it leaves a running record under the canonical
  // id, which it returns and whose sandbox exists. The image is the one asked for
  // when recreation was; otherwise a running or stopped session keeps its image
  // and its workspace. Every other session keeps its record, its pod, its secret and
  // its PVC, whatever the outcome.
  lemma EnsureContract(c: Config, s: System, o: CreateOptions, recreate: bool, now: int, f: Faults, issued: set<string>)
    requires Inv(s, issued) && o.ref != ""
    ensures var id := Canonical(c.sum, o.ref); var (s', r) := Ensure(c, s, o, recreate, now, f);
      && SameElsewhere(s.store, s'.store, id)
      && (r.Some? <==> id in s'.store && s'.store[id].state == Running)
      && (r.Some? ==>
        && s'.store[id] == r.value && r.value.id == id && Agrees(s'.kube, r.value)
        && (if AsksForImage(o, recreate) || !Reusable(s, id) then r.value.image == WantedImage(c, o.image)
            else r.value.image == s.store[id].image && r.value.pvcName == s.store[id].pvcName))
    ensures var k' := Ensure(c, s, o, recreate, now, f).0.kube;
      forall x | x in s.store && x != Canonical(c.sum, o.ref) :: Untouched(s.kube, k', s.store[x])
  {
    hide Ensure, Canonical, WantedImage, Agrees, Reusable, ChangesOnly, Untouched, IsSessionLabel;
    var id := Canonical(c.sum, o.ref);
    assert id in s.store ==> RecordOk(s.store[id], id, issued);
    EnsureRecord(c, s, o, recreate, now, f);
    EnsureKeepsInv(c, s, o, recreate, now, f, issued);
    var s' := Ensure(c, s, o, recreate, now, f).0;
    assert id in s'.store ==> Agrees(s'.kube, s'.store[id]);
    CanonicalNamespace(c.sum, o.ref);
    EnsureChanges(c, s, o, recreate, now, f, issued);
    forall x | x in s.store && x != id ensures Untouched(s.kube, s'.kube, s.store[x]) {
      OtherIsUntouched(s, s'.kube, id, x, issued);
    }
  }

  // Whether a get-or-create has to make a new sandbox: there is no session, or none that
  // can be reused, or another image is asked for.
  ghost predicate MakesNew(c: Config, s: System, o: CreateOptions, recreate: bool, id: string) {
    !Reusable(s, id) || (AsksForImage(o, recreate) && s.store[id].image != WantedImage(c, o.image))
  }

  // Without the session of this id and what its record points to.
  ghost function Cleared(s: System, id: string): System {
    if id in s.store then PurgeAndForget(s, id) else s
  }

  // And it succeeds whenever it can: a running session of the right image as it is, a
  // stopped one if it can be resumed, and a new one if it can be made once the old
  // sandbox is out of the way.
  lemma EnsureSucceedsExactly(c: Config, s: System, o: CreateOptions, recreate: bool, now: int, f: Faults)
    requires o.ref != ""
    ensures var id := Canonical(c.sum, o.ref); var r := Ensure(c, s, o, recreate, now, f).1;
      r.Some? <==>
        if MakesNew(c, s, o, recreate, id) then CanCreate(c, Cleared(s, id), o, id, f)
        else s.store[id].state == Stopped ==>
          !(c.proxy && f.assign) && Resumable(s.kube, id, c.proxy && c.caCert, f.api) && !f.notReady
  {
    hide Create, Resume, Canonical, ResolveImage, PurgeAndForget, WantedImage, CanCreate, Resumable;
    var id := Canonical(c.sum, o.ref);
    CanonicalNamespace(c.sum, o.ref);
    ImageIsWanted(c, o.image);
    ClearedForgets(s, id);
    CreateOutcome(c, Cleared(s, id), o, "", now, f);
    if id in s.store && s.store[id].state == Stopped { ResumeOutcome(c, s, id, now, f); }
  }

  lemma ClearedForgets(s: System, id: string)
    ensures id !in Cleared(s, id).store
  {
  }

  // Repeating a successful call, at any later time and whatever the platform would
  // refuse now, returns the same record and changes neither store nor platform.
  lemma EnsureIsIdempotent(c: Config, s: System, o: CreateOptions, recreate: bool, now: int, f: Faults, later: int,
          g: Faults, issued: set<string>)
    requires Inv(s, issued) && o.ref != "" && Ensure(c, s, o, recreate, now, f).1.Some?
    ensures var (s', r) := Ensure(c, s, o, recreate, now, f); Ensure(c, s', o, recreate, later, g) == (s', r)
  {
    hide Create, Resume, Canonical, ResolveImage, WantedImage, Inv;
    ImageIsWanted(c, o.image);
    EnsureContract(c, s, o, recreate, now, f, issued);
  }
}
