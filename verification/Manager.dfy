// The manager and the reaper as they run (internal/manager/manager.go,
// internal/reaper/reaper.go): whole operations on the store, the runtime and
// the pool they share. Each is proved against its function in Lifecycle.
module Manager {
  import opened Wrappers
  import opened Identifiers
  import opened Slugs
  import opened Platform
  import opened Lifecycle
  import opened Sweeping
  import opened SessionStore
  import opened Runtime
  import W = WarmPool

  class Manager {
    const cfg: Config
    const store: MemoryStore
    const rt: KubeRuntime
    const pool: W.Pool
    var active: map<string, nat>

    constructor (cfg: Config)
      ensures Valid() && this.cfg == cfg && fresh(Repr())
      ensures View() == System(map[], Cluster(map[], map[], {}), [], map[])
    {
      this.cfg := cfg;
      store := new MemoryStore();
      rt := new KubeRuntime();
      pool := new W.Pool(cfg);
      active := map[];
    }

    ghost function Repr(): set<object>
      reads this, store, pool
    { {this, store, rt, pool, pool.slots} + store.Held() }

    ghost predicate Valid()
      reads Repr()
    {
      && store.Valid() && pool.Valid() && pool.cfg == cfg && pool.warming == 0
      && (forall id | id in store.contents :: store.contents[id].id == id)
    }

    ghost function View(): System
      reads this, store, rt, pool
    { System(store.contents, rt.View(), pool.idle, active) }

    // Write a caller's copy back over the stored record.
    method Save(s: Session)
      requires Valid() && s !in Repr() && s.id in store.contents
      modifies store
      ensures Valid() && fresh(Repr() - old(Repr())) && s !in Repr()
      ensures View() == old(View()).(store := old(store.contents)[s.id := s.Snapshot()])
    {
      hide MemoryStore.Valid, W.Pool.Valid;
      NoEmptyId();
      var _ := store.Update(s);
    }

    lemma NoEmptyId()
      requires Valid()
      ensures "" !in store.contents
    {
    }

    // ---- Stop and delete ------------------------------------------------------

    method Stop(id: string, now: int) returns (ok: bool)
      requires Valid()
      modifies Repr()
      ensures Valid() && fresh(Repr() - old(Repr()))
      ensures (View(), ok) == Lifecycle.Stop(old(View()), id, now) && active == old(active)
    {
      hide MemoryStore.Valid, W.Pool.Valid;
      var s := store.Get(id);
      if s == null { return false; }
      if s.state == Stopped || s.state == Dead { return true; }
      rt.Stop(s.podName);
      s.state := Stopped;
      s.stoppedAt := now;
      Save(s);
      ok := true;
    }

    method Delete(id: string) returns (ok: bool)
      requires Valid()
      modifies Repr()
      ensures Valid() && fresh(Repr() - old(Repr()))
      ensures (View(), ok) == Lifecycle.Delete(old(View()), id)
    {
      hide MemoryStore.Valid, W.Pool.Valid;
      var s := store.Get(id);
      if s == null { return false; }
      rt.Purge(s.podName, s.pvcName);
      s.state := Dead;
      Save(s);
      ok := true;
    }

    // ---- Resume -----------------------------------------------------------------

    // A caller receives its own copy of the record, never an object the store holds.
    method Resume(id: string, now: int, f: Faults) returns (s: Session?)
      requires Valid()
      modifies Repr()
      ensures Valid() && fresh(Repr() - old(Repr()))
      ensures s != null ==> fresh(s) && s !in Repr()
      ensures (View(), Seen(s)) == Lifecycle.Resume(cfg, old(View()), id, now, f)
    {
      hide MemoryStore.Valid, W.Pool.Valid;
      s := store.Get(id);
      if s == null { return null; }
      if s.state == Running { return s; }
      if s.state != Stopped || (cfg.proxy && f.assign) { return null; }
      var h := rt.Resume(id, s.pvcName, cfg.proxy && cfg.caCert, now, f.api);
      if h.None? { return null; }
      s.podName := h.value.podName;
      var ok := Revive(s, now, f.notReady);
      if !ok { return null; }
    }

    // Record the new pod as creating, wait for it, then running or stopped again.
    method Revive(s: Session, now: int, notReady: bool) returns (ok: bool)
      requires Valid() && s !in Repr() && s.id in store.contents
      modifies Repr(), s
      ensures Valid() && fresh(Repr() - old(Repr())) && s !in Repr() && ok == !notReady
      ensures ok ==> s.Snapshot() == old(s.Snapshot()).(state := Running, lastActivityAt := now)
      ensures View() == old(View()).(
        kube := if ok then old(rt.View()) else StopSandbox(old(rt.View()), old(s.podName)),
        store := old(store.contents)[old(s.id) := if ok then s.Snapshot()
            else old(s.Snapshot()).(podName := "", state := Stopped)])
    {
      hide StopSandbox, MemoryStore.Valid, W.Pool.Valid;
      s.state := Creating;
      Save(s);
      if notReady {
        UpdateTwice(old(store.contents), s.id, s.Snapshot(), s.Snapshot().(podName := "", state := Stopped));
        CleanupFailedResume(s);
        return false;
      }
      UpdateTwice(old(store.contents), s.id, s.Snapshot(), s.Snapshot().(state := Running, lastActivityAt := now));
      s.state := Running;
      s.lastActivityAt := now;
      Save(s);
      return true;
    }

    // The pod goes, the workspace stays, and the record may be resumed again.
    method CleanupFailedResume(s: Session)
      requires Valid() && s !in Repr() && s.id in store.contents
      modifies Repr(), s
      ensures Valid() && fresh(Repr() - old(Repr())) && s !in Repr()
      ensures View() == old(View()).(kube := StopSandbox(old(rt.View()), old(s.podName)),
        store := old(store.contents)[old(s.id) := old(s.Snapshot()).(podName := "", state := Stopped)])
    {
      hide MemoryStore.Valid, W.Pool.Valid;
      rt.Stop(s.podName);
      s.podName := "";
      s.state := Stopped;
      Save(s);
    }

    // ---- Create -----------------------------------------------------------------

    method Create(o: CreateOptions, newId: string, now: int, f: Faults) returns (s: Session?)
      requires Valid()
      modifies Repr()
      ensures Valid() && fresh(Repr() - old(Repr()))
      ensures s != null ==> fresh(s) && s !in Repr()
      ensures (View(), Seen(s)) == Lifecycle.Create(cfg, old(View()), o, newId, now, f)
    {
      hide PoolEligible, ResolveImage, Canonical, IdsIn, Lists, Lifecycle.Provision, Lifecycle.Settle;
      hide MemoryStore.Valid, W.Pool.Valid;
      var image := ResolveImage(cfg, o.image);
      var full := AtCapacity();
      if full { return null; }
      var id := newId;
      if o.ref != "" { id := CanonicalID(cfg.sum, o.ref); }
      s := new Session(Record(id, o.ref, Creating, image, "", "", false, now, now, 0));
      if cfg.proxy && (f.assign || f.scaler) { return null; }
      assert id == SessionId(cfg, o, newId);
      ghost var (s1, h, fromPool) := Lifecycle.Provision(cfg, old(View()), o, id, now, f);
      var ok := Provision(s, o, now, f);
      assert View() == s1 && ok == h.Some?;
      if !ok { return null; }
      assert Lifecycle.Create(cfg, old(View()), o, newId, now, f) == Lifecycle.Settle(s1, s.Snapshot(), f.notReady);
      ok := Settle(s, f.notReady);
      if !ok { return null; }
    }

    // The global cap counts running and creating sessions, read one after the other.
    method AtCapacity() returns (full: bool)
      requires Valid()
      ensures Valid()
      ensures full == (|IdsIn(store.contents, Running)| + |IdsIn(store.contents, Creating)| >= cfg.maxRunning)
    {
      hide IdsIn, Lists, MemoryStore.Valid, W.Pool.Valid;
      var running, _ := store.ListByState(Running);
      var creating, _ := store.ListByState(Creating);
      return |running| + |creating| >= cfg.maxRunning;
    }

    // A warm sandbox if the pool can serve the request, a cold one otherwise.
    method Provision(s: Session, o: CreateOptions, now: int, f: Faults) returns (ok: bool)
      requires Valid() && s !in Repr() && s.podName == "" && !s.fromPool && s.image == ResolveImage(cfg, o.image)
      modifies rt, pool, pool.slots, s
      ensures Valid() && Repr() == old(Repr())
      ensures var (s1, h, fromPool) := Lifecycle.Provision(cfg, old(View()), o, old(s.id), now, f);
        && View() == s1 && ok == h.Some?
        && (ok ==>
          s.Snapshot() == old(s.Snapshot()).(
            podName := h.value.podName, pvcName := h.value.pvcName, fromPool := fromPool))
    {
      hide StopSandbox, PurgeSandbox, CreateSandbox, ResumeSandbox, ResolveImage, Canonical, MemoryStore.Valid;
      hide W.Pool.Valid;
      var eligible := s.image == cfg.defaultImage
        && ResolveBool(o.writableRoot, cfg.writableRoot) == cfg.writableRoot
        && ResolveBool(o.runAsRoot, cfg.runAsRoot) == cfg.runAsRoot;
      if cfg.pool && eligible {
        var h := pool.Acquire(s.image);
        if h.Some? {
          s.podName := h.value.podName;
          s.pvcName := h.value.pvcName;
          s.fromPool := true;
        }
      }
      if s.podName == "" {
        var h := rt.Create(s.id, false, cfg.proxy && cfg.caCert, now, f.api);
        if h.None? { return false; }
        s.podName := h.value.podName;
        s.pvcName := h.value.pvcName;
      }
      return true;
    }

    method Insert(s: Session) returns (ok: bool)
      requires Valid() && s !in Repr()
      modifies store
      ensures Valid() && fresh(Repr() - old(Repr())) && s !in Repr()
      ensures ok <==> s.id != "" && s.id !in old(store.contents)
      ensures View() == if ok then old(View()).(store := old(store.contents)[s.id := s.Snapshot()]) else old(View())
    {
      hide MemoryStore.Valid, W.Pool.Valid;
      ok := store.Create(s);
    }

    // Persist, wait for readiness, mark running; undo what was made on failure.
    method Settle(s: Session, notReady: bool) returns (ok: bool)
      requires Valid() && s !in Repr() && s.state == Creating
      modifies Repr(), s
      ensures Valid() && fresh(Repr() - old(Repr())) && s !in Repr()
      ensures (View(), if ok then Some(s.Snapshot()) else None)
          == Lifecycle.Settle(old(View()), old(s.Snapshot()), notReady)
    {
      hide MemoryStore.Valid, W.Pool.Valid;
      ok := Insert(s);
      if !ok {
        rt.Purge(s.podName, s.pvcName);
        return false;
      }
      if notReady {
        UpdateTwice(old(store.contents), s.id, s.Snapshot(), s.Snapshot().(state := Dead));
        CleanupFailedCreate(s);
        return false;
      }
      UpdateTwice(old(store.contents), s.id, s.Snapshot(), s.Snapshot().(state := Running));
      s.state := Running;
      Save(s);
      ok := true;
    }

    method CleanupFailedCreate(s: Session)
      requires Valid() && s !in Repr() && s.id in store.contents
      modifies Repr(), s
      ensures Valid() && fresh(Repr() - old(Repr())) && s !in Repr()
      ensures View() == old(View()).(kube := PurgeSandbox(old(rt.View()), old(s.podName), old(s.pvcName)),
        store := old(store.contents)[old(s.id) := old(s.Snapshot()).(state := Dead)])
    {
      hide MemoryStore.Valid, W.Pool.Valid;
      rt.Purge(s.podName, s.pvcName);
      s.state := Dead;
      Save(s);
    }

    // ---- Get-or-create, clear -----------------------------------------------------

    method EnsureSession(o: CreateOptions, recreate: bool, now: int, f: Faults) returns (s: Session?)
      requires Valid()
      modifies Repr()
      ensures Valid() && fresh(Repr() - old(Repr()))
      ensures s != null ==> fresh(s) && s !in Repr()
      ensures (View(), Seen(s)) == Lifecycle.Ensure(cfg, old(View()), o, recreate, now, f)
    {
      hide MemoryStore.Valid, W.Pool.Valid, Spelled, Canonical, ResolveImage, Lifecycle.Create, Lifecycle.Resume;
      hide PurgeSandbox;
      if o.ref == "" { return null; }
      var id := CanonicalID(cfg.sum, o.ref);
      var existing := store.Get(id);
      if existing != null {
        var desired := ResolveImage(cfg, o.image);
        if recreate && o.image != "" && existing.image != desired {
          PurgeAndForget(existing);
        } else if existing.state == Running {
          return existing;
        } else if existing.state == Stopped {
          s := Resume(id, now, f);
          return;
        } else {
          PurgeAndForget(existing);
        }
      }
      s := Create(o, "", now, f);
    }

    method Clear(ref: string) returns (ok: bool)
      requires Valid()
      modifies Repr()
      ensures Valid() && fresh(Repr() - old(Repr()))
      ensures (View(), ok) == Lifecycle.Clear(cfg, old(View()), ref)
    {
      hide MemoryStore.Valid, W.Pool.Valid;
      if ref == "" { return false; }
      var id := CanonicalID(cfg.sum, ref);
      var s := store.Get(id);
      if s == null { return false; }
      PurgeAndForget(s);
      return true;
    }

    method PurgeAndForget(s: Session)
      requires Valid() && s !in Repr() && s.id in store.contents && s.Snapshot() == store.contents[s.id]
      modifies Repr()
      ensures Valid() && fresh(Repr() - old(Repr()))
      ensures View() == Lifecycle.PurgeAndForget(old(View()), s.id)
    {
      hide MemoryStore.Valid, W.Pool.Valid;
      rt.Purge(s.podName, s.pvcName);
      var _ := store.Delete(s.id);
    }

    // ---- Activity ---------------------------------------------------------------

    method Touch(id: string, now: int)
      requires Valid()
      modifies Repr()
      ensures Valid() && fresh(Repr() - old(Repr()))
      ensures View() == Lifecycle.Touch(old(View()), id, now)
    {
      hide MemoryStore.Valid, W.Pool.Valid;
      var _ := store.Touch(id, now);
    }

    method BeginActivity(id: string, now: int)
      requires Valid()
      modifies Repr()
      ensures Valid() && fresh(Repr() - old(Repr()))
      ensures View() == Lifecycle.BeginActivity(old(View()), id, now)
    {
      hide MemoryStore.Valid, W.Pool.Valid;
      active := active[id := ActiveCalls(active, id) + 1];
      Touch(id, now);
    }

    method EndActivity(id: string, now: int)
      requires Valid()
      modifies Repr()
      ensures Valid() && fresh(Repr() - old(Repr()))
      ensures View() == Lifecycle.EndActivity(old(View()), id, now)
    {
      hide MemoryStore.Valid, W.Pool.Valid;
      var n := ActiveCalls(active, id);
      if n <= 1 {
        active := active - {id};
      } else {
        active := active[id := n - 1];
      }
      Touch(id, now);
    }

    // ---- Warm pool --------------------------------------------------------------

    method Replenish(draw: nat -> W.Attempt, now: int)
      requires Valid()
      modifies Repr()
      ensures Valid() && fresh(Repr() - old(Repr()))
      ensures View() == W.WarmAll(cfg, old(View()), draw, 0, now)
    {
      hide W.WarmAll, MemoryStore.Valid, W.Pool.Valid;
      pool.Replenish(rt, draw, now, View());
    }

    // ---- Sweeping and reaping -----------------------------------------------------

    method SweepOrphans(now: int)
      requires Valid()
      modifies rt
      ensures Valid() && Repr() == old(Repr())
      ensures View() == Sweep(cfg, old(View()), now)
    {
      hide MemoryStore.Valid, W.Pool.Valid, PurgePods, PurgePvcs, PurgeSandbox;
      ghost var s0 := View();
      var _, records := store.List();
      var known := {};
      for i := 0 to |records|
        invariant known == set j | 0 <= j < i :: records[j].id
      {
        known := known + {records[i].id};
      }
      assert known == store.contents.Keys;
      var live := SweepPods(known, now);
      SweepPvcs(known, live, now);
    }

    // Purge the old pods nobody knows; report the session labels of all pods seen.
    method SweepPods(known: set<string>, now: int) returns (live: set<string>)
      requires Valid() && known == store.contents.Keys
      modifies rt
      ensures Valid() && Repr() == old(Repr())
      ensures rt.View() == PurgePods(old(rt.View()), OrphanPods(cfg, old(View()), now))
      ensures live == PodSessions(old(rt.View()))
    {
      hide PurgePods, PurgeSandbox;
      ghost var k := rt.View();
      ghost var orphans := OrphanPods(cfg, View(), now);
      var refs := rt.ListSandboxes();
      live := {};
      ghost var done := {};
      PurgeNoPods(k);
      for i := 0 to |refs|
        invariant live == set j | 0 <= j < i :: refs[j].session
        invariant done == set j | 0 <= j < i && refs[j].podName in orphans :: refs[j].podName
        invariant done <= orphans && rt.View() == PurgePods(k, done)
      {
        var p := refs[i];
        live := live + {p.session};
        if !(p.pool || p.session in known || (cfg.maxLifetime > 0 && now - p.createdAt <= cfg.maxLifetime)) {
          assert p.podName in orphans;
          PurgeOneMorePod(k, done, p.podName);
          rt.Purge(p.podName, p.pvcName);
          done := done + {p.podName};
        } else {
          assert p.podName !in orphans;
        }
      }
      assert done == orphans by {
        forall p | p in orphans ensures p in done { assert PodRef(k.pods, p) in refs; }
      }
      assert live == PodSessions(k) by {
        forall x | x in PodSessions(k) ensures x in live {
          var p :| p in k.pods && k.pods[p].session == x;
          assert PodRef(k.pods, p) in refs;
        }
      }
    }

    method SweepPvcs(known: set<string>, live: set<string>, now: int)
      requires Valid() && known == store.contents.Keys
      modifies rt
      ensures Valid() && Repr() == old(Repr())
      ensures rt.View() == PurgePvcs(old(rt.View()), OrphanPvcs(cfg, store.contents, old(rt.pvcs), live, now))
    {
      hide PurgePvcs, PurgeSandbox;
      ghost var k := rt.View();
      ghost var orphans := OrphanPvcs(cfg, store.contents, k.pvcs, live, now);
      var refs := rt.ListWorkspaces();
      ghost var done := {};
      PurgeNoPvcs(k);
      for i := 0 to |refs|
        invariant done == set j | 0 <= j < i && refs[j].pvcName in orphans :: refs[j].pvcName
        invariant done <= orphans && rt.View() == PurgePvcs(k, done)
      {
        var v := refs[i];
        if !(v.pool || v.session in known || v.session in live
            || (cfg.stoppedTTL > 0 && now - v.createdAt <= cfg.stoppedTTL)) {
          assert v.pvcName in orphans;
          PurgeOneMorePvc(k, done, v.pvcName);
          rt.Purge(v.podName, v.pvcName);
          done := done + {v.pvcName};
        } else {
          assert v.pvcName !in orphans;
        }
      }
      assert done == orphans by {
        forall v | v in orphans ensures v in done { assert PvcRef(k.pvcs, v) in refs; }
      }
    }

    method ReapOnce(now: int) returns (running: seq<Record>, stopped: seq<Record>)
      requires Valid()
      modifies Repr()
      ensures Valid() && fresh(Repr() - old(Repr()))
      ensures Lists(old(View()).store, Running, running)
      ensures Lists(ReapRunning(cfg, Sweep(cfg, old(View()), now), running, now).store, Stopped, stopped)
      ensures View() == Reap(cfg, old(View()), running, stopped, now)
    {
      hide MemoryStore.Valid, W.Pool.Valid, Lists, Lifecycle.Stop, Lifecycle.Delete, Sweep, RunningExpired;
      hide StoppedExpired;
      SweepOrphans(now);
      running := StopExpired(now);
      stopped := DeleteExpired(now);
    }

    method Snapshots(st: State) returns (records: seq<Record>)
      requires Valid()
      ensures Valid() && Lists(View().store, st, records)
    {
      hide MemoryStore.Valid, W.Pool.Valid, Lists;
      var _, found := store.ListByState(st);
      return found;
    }

    method StopExpired(now: int) returns (running: seq<Record>)
      requires Valid()
      modifies Repr()
      ensures Valid() && fresh(Repr() - old(Repr()))
      ensures Lists(old(View()).store, Running, running)
      ensures View() == ReapRunning(cfg, old(View()), running, now)
    {
      hide MemoryStore.Valid, W.Pool.Valid, Lists, Lifecycle.Stop, Lifecycle.Delete, Sweep, RunningExpired;
      hide StoppedExpired, ReapRunning, Valid;
      var records := Snapshots(Running);
      assert records[..0] == [];
      ReapsNone(cfg, View(), now);
      for i := 0 to |records|
        invariant Valid() && fresh(Repr() - old(Repr()))
        invariant View() == ReapRunning(cfg, old(View()), records[..i], now) && active == old(active)
      {
        ReapRunningStep(cfg, old(View()), records, i, now);
        if RunningExpired(cfg, active, records[i], now) {
          var _ := Stop(records[i].id, now);
        }
      }
      assert records[..|records|] == records;
      return records;
    }

    method DeleteExpired(now: int) returns (stopped: seq<Record>)
      requires Valid()
      modifies Repr()
      ensures Valid() && fresh(Repr() - old(Repr()))
      ensures Lists(old(View()).store, Stopped, stopped)
      ensures View() == ReapStopped(cfg, old(View()), stopped, now)
    {
      hide MemoryStore.Valid, W.Pool.Valid, Lists, Lifecycle.Stop, Lifecycle.Delete, Sweep, RunningExpired;
      hide StoppedExpired, ReapStopped, Valid;
      var records := Snapshots(Stopped);
      assert records[..0] == [];
      ReapsNone(cfg, View(), now);
      for i := 0 to |records|
        invariant Valid() && fresh(Repr() - old(Repr()))
        invariant View() == ReapStopped(cfg, old(View()), records[..i], now)
      {
        ReapStoppedStep(cfg, old(View()), records, i, now);
        if StoppedExpired(cfg, records[i], now) {
          var _ := Delete(records[i].id);
        }
      }
      assert records[..|records|] == records;
      return records;
    }
  }

  ghost function Seen(s: Session?): Option<Record>
    reads s
  { if s == null then None else Some(s.Snapshot()) }

  lemma UpdateTwice(m: Store, id: string, a: Record, b: Record)
    ensures m[id := a][id := b] == m[id := b]
  {
  }

  lemma ReapsNone(c: Config, s: System, now: int)
    ensures ReapRunning(c, s, [], now) == s && ReapStopped(c, s, [], now) == s
  {
  }

  lemma ReapRunningStep(c: Config, s: System, rs: seq<Record>, i: nat, now: int)
    requires i < |rs|
    ensures var s1 := ReapRunning(c, s, rs[..i], now);
      ReapRunning(c, s, rs[..i + 1], now) ==
        if RunningExpired(c, s.active, rs[i], now) then Lifecycle.Stop(s1, rs[i].id, now).0 else s1
  {
    assert rs[..i + 1][..i] == rs[..i];
  }

  lemma ReapStoppedStep(c: Config, s: System, rs: seq<Record>, i: nat, now: int)
    requires i < |rs|
    ensures var s1 := ReapStopped(c, s, rs[..i], now);
      ReapStopped(c, s, rs[..i + 1], now) ==
        if StoppedExpired(c, rs[i], now) then Lifecycle.Delete(s1, rs[i].id).0 else s1
  {
    assert rs[..i + 1][..i] == rs[..i];
  }
}
