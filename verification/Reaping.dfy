// What one reaper pass does to every session, and how long a workspace lives.
module Reaping {
  import opened Identifiers
  import opened Platform
  import opened Lifecycle
  import opened Agreement
  import opened PlatformCalls
  import opened Requests
  import opened Runs

  ghost predicate Mentions(rs: seq<Record>, id: string) { exists r | r in rs :: r.id == id }

  // ---- Limits -------------------------------------------------------------------

  // A running session is young enough, and has been active lately or has a call open; a
  // stopped one was stopped lately.
  ghost predicate WithinLimits(c: Config, active: map<string, nat>, r: Record, now: int) {
    && (r.state == Running ==>
      && (c.maxLifetime > 0 ==> now - r.createdAt <= c.maxLifetime)
      && (now - r.lastActivityAt <= c.runningTTL || (r.id in active && active[r.id] > 0)))
    && (r.state == Stopped ==> now - r.stoppedAt <= c.stoppedTTL)
  }

  // What a pass makes of a record.
  ghost function AfterPass(c: Config, active: map<string, nat>, r: Record, now: int): Record {
    if WithinLimits(c, active, r, now) then r
    else if r.state == Running then r.(state := Stopped, stoppedAt := now)
    else r.(state := Dead)
  }

  lemma ExpiryIsLimit(c: Config, active: map<string, nat>, r: Record, now: int)
    ensures RunningExpired(c, active, r, now) <==> r.state == Running && !WithinLimits(c, active, r, now)
    ensures StoppedExpired(c, r, now) <==> r.state == Stopped && !WithinLimits(c, active, r, now)
  {
  }

  // ---- The two passes ---------------------------------------------------------

  lemma MentionsLast(rs: seq<Record>, id: string)
    requires rs != []
    ensures Mentions(rs, id) <==> Mentions(rs[..|rs| - 1], id) || id == rs[|rs| - 1].id
  {
    assert rs == rs[..|rs| - 1] + [rs[|rs| - 1]];
  }

  lemma MentionsNone(id: string)
    ensures !Mentions([], id)
  {
  }

  lemma {:induction false} ReapRunningEffect(c: Config, s: System, rs: seq<Record>, now: int)
    requires forall r | r in rs :: r.id in s.store && s.store[r.id] == r && r.state == Running
    ensures var s' := ReapRunning(c, s, rs, now);
      && s'.store.Keys == s.store.Keys && s'.active == s.active
      && forall id | id in s.store ::
        s'.store[id] == if Mentions(rs, id) then AfterPass(c, s.active, s.store[id], now) else s.store[id]
    decreases |rs|
  {
    hide PodName, PvcName, SessionIdFromPodName, CaSecretName, RunningExpired, StoppedExpired, Mentions, WithinLimits;
    if rs != [] {
      var init, last := rs[..|rs| - 1], rs[|rs| - 1];
      ExpiryIsLimit(c, s.active, last, now);
      ReapRunningEffect(c, s, init, now);
      forall id ensures Mentions(rs, id) <==> Mentions(init, id) || id == last.id { MentionsLast(rs, id); }
    } else {
      forall id ensures !Mentions(rs, id) { MentionsNone(id); }
    }
  }

  lemma {:induction false} ReapStoppedEffect(c: Config, s: System, rs: seq<Record>, now: int)
    requires forall r | r in rs :: r.id in s.store && s.store[r.id] == r && r.state == Stopped
    ensures var s' := ReapStopped(c, s, rs, now);
      && s'.store.Keys == s.store.Keys && s'.active == s.active
      && forall id | id in s.store ::
        s'.store[id] == if Mentions(rs, id) then AfterPass(c, s.active, s.store[id], now) else s.store[id]
    decreases |rs|
  {
    hide PodName, PvcName, SessionIdFromPodName, CaSecretName, RunningExpired, StoppedExpired, Mentions, WithinLimits;
    if rs != [] {
      var init, last := rs[..|rs| - 1], rs[|rs| - 1];
      ExpiryIsLimit(c, s.active, last, now);
      ReapStoppedEffect(c, s, init, now);
      forall id ensures Mentions(rs, id) <==> Mentions(init, id) || id == last.id { MentionsLast(rs, id); }
    } else {
      forall id ensures !Mentions(rs, id) { MentionsNone(id); }
    }
  }

  // ---- Exactness --------------------------------------------------------------

  // A session stopped in this pass is not deleted in it.
  lemma JustStoppedIsWithin(c: Config, active: map<string, nat>, r: Record, now: int)
    requires c.stoppedTTL > 0
    ensures var r' := AfterPass(c, active, r, now); r.state == Running ==> AfterPass(c, active, r', now) == r'
    ensures r.state !in {Running, Stopped} ==> AfterPass(c, active, r, now) == r
  {
  }

  // A pass stops exactly the running sessions past a limit and deletes exactly the stopped
  // ones; every other session keeps its record and, by the invariant, its sandbox or
  // workspace. With positive limits no session goes from running to dead in one pass.
  lemma ReapIsExact(c: Config, w: World, running: seq<Record>, stopped: seq<Record>)
    requires Validated(c) && Allowed(c, w, ReapStep(running, stopped))
    requires forall id | id in w.sys.store :: w.sys.store[id].id == id
    ensures var s' := Reap(c, w.sys, running, stopped, w.now);
      && s'.store.Keys == w.sys.store.Keys && s'.active == w.sys.active
      && forall id | id in w.sys.store :: s'.store[id] == AfterPass(c, w.sys.active, w.sys.store[id], w.now)
  {
    hide PurgePods, PurgePvcs, OrphanPods, OrphanPvcs, ReapRunning, ReapStopped, AfterPass, WithinLimits;
    var s1 := Sweep(c, w.sys, w.now);
    var s2 := ReapRunning(c, s1, running, w.now);
    ReapRunningEffect(c, s1, running, w.now);
    ReapStoppedEffect(c, s2, stopped, w.now);
    var s3 := Reap(c, w.sys, running, stopped, w.now);
    forall id | id in w.sys.store ensures s3.store[id] == AfterPass(c, w.sys.active, w.sys.store[id], w.now) {
      JustStoppedIsWithin(c, w.sys.active, w.sys.store[id], w.now);
      assert w.sys.store[id].state == Running ==> w.sys.store[id] in running;
      assert s2.store[id].state == Stopped ==> s2.store[id] in stopped;
    }
  }

  lemma KeysAreIds(w: World)
    requires Good(w)
    ensures forall id | id in w.sys.store :: w.sys.store[id].id == id
  {
    forall id | id in w.sys.store ensures w.sys.store[id].id == id { assert RecordOk(w.sys.store[id], id, w.issued); }
  }

  // After a pass every running session is younger than the lifetime cap, and was active
  // within the idle limit or has a call open; every stopped one was stopped within the
  // retention period. A session for which this held before keeps its record; a stopped
  // one for which it did not is dead, and its workspace gone.
  lemma ReapLeavesNoneExpired(c: Config, w: World, running: seq<Record>, stopped: seq<Record>)
    requires Validated(c) && Good(w) && Allowed(c, w, ReapStep(running, stopped))
    ensures var s' := Reap(c, w.sys, running, stopped, w.now);
      && (forall id | id in s'.store && s'.store[id].state == Running ::
            && w.now - s'.store[id].createdAt <= c.maxLifetime
            && (w.now - s'.store[id].lastActivityAt <= c.runningTTL || (id in s'.active && s'.active[id] > 0)))
      && (forall id | id in s'.store && s'.store[id].state == Stopped :: w.now - s'.store[id].stoppedAt <= c.stoppedTTL)
      && (forall id | id in w.sys.store && WithinLimits(c, w.sys.active, w.sys.store[id], w.now) ::
            id in s'.store && s'.store[id] == w.sys.store[id])
      && (forall id | id in w.sys.store && w.sys.store[id].state == Stopped
                      && w.now - w.sys.store[id].stoppedAt > c.stoppedTTL ::
            id in s'.store && s'.store[id].state == Dead && w.sys.store[id].pvcName !in s'.kube.pvcs)
      && StoreMatchesPlatform(s')
  {
    hide Reap, Inv, Allowed;
    KeysAreIds(w);
    ReapIsExact(c, w, running, stopped);
    StepKeepsGood(c, w, ReapStep(running, stopped));
    GoodMatches(Apply(c, w, ReapStep(running, stopped)));
  }

  // ---- Calls in flight --------------------------------------------------------

  // Calls of a session that have begun and not ended; none outlives a restart.
  function Pending(step: Step, id: string, open: nat): nat {
    if step == BeginStep(id) then open + 1
    else if step == EndStep(id) then (if open > 0 then open - 1 else 0)
    else if Restarts(step) then 0
    else open
  }

  function OpenCalls(steps: seq<Step>, id: string, open: nat): nat
    decreases |steps|
  {
    if steps == [] then open else OpenCalls(steps[1..], id, Pending(steps[0], id, open))
  }

  lemma StepCountsCalls(c: Config, w: World, step: Step, id: string)
    ensures ActiveCalls(Next(c, w, step).active, id) == Pending(step, id, ActiveCalls(w.sys.active, id))
  {
    hide PodName, PvcName, SessionIdFromPodName, CaSecretName, Canonical, ResolveImage, StopSandbox, ResumeSandbox;
    hide PurgeSandbox, CreateSandbox, OperationCalls, PerformAll, PurgePods, PurgePvcs, OrphanPods, OrphanPvcs;
    if step.ReapStep? {
      ReapKeepsActive(c, Sweep(c, w.sys, w.now), step.running, step.stopped, w.now);
    }
  }

  lemma {:induction false} ReapKeepsActive(c: Config, s: System, running: seq<Record>, stopped: seq<Record>, now: int)
    ensures ReapStopped(c, ReapRunning(c, s, running, now), stopped, now).active == s.active
    decreases |running| + |stopped|
  {
    if stopped != [] {
      ReapKeepsActive(c, s, running, stopped[..|stopped| - 1], now);
    } else if running != [] {
      ReapKeepsActive(c, s, running[..|running| - 1], [], now);
    }
  }

  // The counter the reaper consults is exactly the number of open calls, whatever
  // else happened in between, restarts and crashes included.
  lemma {:induction false} ActiveCountsOpenCalls(c: Config, w: World, steps: seq<Step>, id: string)
    ensures ActiveCalls(Run(c, w, steps).sys.active, id) == OpenCalls(steps, id, ActiveCalls(w.sys.active, id))
    decreases |steps|
  {
    hide Next, Pending, ActiveCalls;
    if steps != [] {
      StepCountsCalls(c, w, steps[0], id);
      ActiveCountsOpenCalls(c, Apply(c, w, steps[0]), steps[1..], id);
    }
  }

  // So a pass that reaches a session within its lifetime cap stops it if and only if
  // it has been idle too long and no call is open.
  lemma IdleStopMeansNoOpenCall(c: Config, w: World, steps: seq<Step>, id: string, running: seq<Record>,
          stopped: seq<Record>)
    requires Validated(c) && Good(w) && AllowedRun(c, w, steps)
    requires Allowed(c, Run(c, w, steps), ReapStep(running, stopped))
    requires id in Run(c, w, steps).sys.store
    requires var w' := Run(c, w, steps);
      w'.sys.store[id].state == Running && w'.now - w'.sys.store[id].createdAt <= c.maxLifetime
    ensures var w' := Run(c, w, steps); var s' := Reap(c, w'.sys, running, stopped, w'.now);
      && id in s'.store
      && (s'.store[id].state == Stopped
          <==> OpenCalls(steps, id, ActiveCalls(w.sys.active, id)) == 0
               && w'.now - w'.sys.store[id].lastActivityAt > c.runningTTL)
  {
    hide Run, Reap, OpenCalls, AllowedRun;
    RunKeepsGood(c, w, steps);
    KeysAreIds(Run(c, w, steps));
    ActiveCountsOpenCalls(c, w, steps, id);
    ReapIsExact(c, Run(c, w, steps), running, stopped);
  }

  function Begun(steps: seq<Step>, id: string): nat {
    if steps == [] then 0 else (if steps[0] == BeginStep(id) then 1 else 0) + Begun(steps[1..], id)
  }

  function Ended(steps: seq<Step>, id: string): nat {
    if steps == [] then 0 else (if steps[0] == EndStep(id) then 1 else 0) + Ended(steps[1..], id)
  }

  // Every end is preceded by its begin, counting `open` calls from before.
  ghost predicate Paired(steps: seq<Step>, id: string, open: nat)
    decreases |steps|
  {
    steps == [] ||
    (if steps[0] == BeginStep(id) then Paired(steps[1..], id, open + 1)
     else if steps[0] == EndStep(id) then open > 0 && Paired(steps[1..], id, open - 1)
     else Paired(steps[1..], id, open))
  }

  ghost predicate OneLife(steps: seq<Step>) { forall step | step in steps :: !Restarts(step) }

  lemma {:induction false} OpenCallsOfOneLife(steps: seq<Step>, id: string, open: nat)
    requires OneLife(steps) && Paired(steps, id, open)
    ensures OpenCalls(steps, id, open) == open + Begun(steps, id) - Ended(steps, id)
    decreases |steps|
  {
    if steps != [] {
      assert steps[0] in steps && forall step | step in steps[1..] :: step in steps;
      OpenCallsOfOneLife(steps[1..], id, Pending(steps[0], id, open));
    }
  }

  lemma {:induction false} OpenCallsConcat(a: seq<Step>, b: seq<Step>, id: string, open: nat)
    ensures OpenCalls(a + b, id, open) == OpenCalls(b, id, OpenCalls(a, id, open))
    decreases |a|
  {
    hide Pending;
    if a == [] {
      assert a + b == b;
    } else {
      assert (a + b)[1..] == a[1..] + b;
      OpenCallsConcat(a[1..], b, id, Pending(a[0], id, open));
    }
  }

  // Whatever lives the orchestrator had before: in its present one the open calls are
  // those begun and not ended.
  lemma OpenCallsSinceRestart(before: seq<Step>, life: seq<Step>, id: string)
    requires before == [] || Restarts(before[|before| - 1])
    requires OneLife(life) && Paired(life, id, 0)
    ensures OpenCalls(before + life, id, 0) == Begun(life, id) - Ended(life, id)
  {
    OpenCallsConcat(before, life, id, 0);
    if before != [] {
      var last := before[|before| - 1];
      OpenCallsConcat(before[..|before| - 1], [last], id, 0);
      assert before[..|before| - 1] + [last] == before;
      assert [last][1..] == [];
      assert OpenCalls(before, id, 0) == 0;
    }
    OpenCallsOfOneLife(life, id, 0);
  }

  // ---- Retention --------------------------------------------------------------

  // Operations a caller aims at a session with this image that give up its workspace.
  ghost predicate GivesUp(c: Config, step: Step, id: string, image: string) {
    || Restarts(step)
    || step == DeleteStep(id)
    || (step.ClearStep? && Canonical(c.sum, step.ref) == id)
    || (step.EnsureStep? && Canonical(c.sum, step.options.ref) == id
        && step.recreate && step.options.image != "" && WantedImage(c, step.options.image) != image)
  }

  // The workspace of a session stopped no earlier than `since`, or running.
  ghost predicate Retained(s: System, id: string, pvcName: string, image: string, since: int) {
    && id in s.store && s.store[id].pvcName == pvcName && s.store[id].image == image && pvcName in s.kube.pvcs
    && (s.store[id].state == Running || (s.store[id].state == Stopped && s.store[id].stoppedAt >= since))
  }

  lemma GoodAgrees(w: World, id: string)
    requires Good(w) && id in w.sys.store
    ensures Agrees(w.sys.kube, w.sys.store[id])
  {
  }

  lemma ReapRetains(c: Config, w: World, step: Step, id: string, pvcName: string, image: string, since: int)
    requires Validated(c) && Good(w) && Allowed(c, w, step) && step.ReapStep?
    requires Retained(w.sys, id, pvcName, image, since) && since <= w.now <= since + c.stoppedTTL
    ensures Retained(Next(c, w, step), id, pvcName, image, since)
  {
    hide Reap, Allowed, Inv;
    KeysAreIds(w);
    ReapIsExact(c, w, step.running, step.stopped);
    StepKeepsGood(c, w, step);
    GoodAgrees(Apply(c, w, step), id);
  }

  lemma StepRetains(c: Config, w: World, step: Step, id: string, pvcName: string, image: string, since: int)
    requires Validated(c) && Good(w) && Allowed(c, w, step) && !GivesUp(c, step, id, image)
    requires Retained(w.sys, id, pvcName, image, since) && since <= w.now <= since + c.stoppedTTL
    ensures Retained(Next(c, w, step), id, pvcName, image, since)
  {
    hide Next, Allowed, Inv;
    StepKeepsGood(c, w, step);
    if step.ReapStep? {
      ReapRetains(c, w, step, id, pvcName, image, since);
    } else {
      RecordSurvives(c, w, step, id, pvcName, image, since);
      GoodAgrees(Apply(c, w, step), id);
    }
  }

  lemma CreateSparesRecords(c: Config, s: System, o: CreateOptions, newId: string, now: int, f: Faults, id: string)
    requires id in s.store
    ensures id in Create(c, s, o, newId, now, f).0.store && Create(c, s, o, newId, now, f).0.store[id] == s.store[id]
  {
  }

  // No other step forgets the record, kills it, or moves its last stop back.
  lemma RecordSurvives(c: Config, w: World, step: Step, id: string, pvcName: string, image: string, since: int)
    requires Good(w) && Allowed(c, w, step) && !GivesUp(c, step, id, image) && !step.ReapStep?
    requires Retained(w.sys, id, pvcName, image, since) && since <= w.now
    ensures var s' := Next(c, w, step);
      id in s'.store && s'.store[id].pvcName == pvcName && s'.store[id].image == image
      && (s'.store[id].state == Running || (s'.store[id].state == Stopped && s'.store[id].stoppedAt >= since))
  {
    hide PodName, PvcName, PvcLabel, SessionIdFromPodName, CaSecretName, CaLabel, Canonical, ResolveImage;
    hide PoolEligible, Inv, Create, PurgeSandbox, StopSandbox, WantedImage;
    if step.CreateStep? {
      CreateSparesRecords(c, w.sys, step.options, step.newId, w.now, step.faults, id);
    } else if step.EnsureStep? {
      var other := Canonical(c.sum, step.options.ref);
      ImageIsWanted(c, step.options.image);
      CreateSparesRecords(c, w.sys, step.options, "", w.now, step.faults, id);
      if other in w.sys.store && other != id {
        CreateSparesRecords(c, PurgeAndForget(w.sys, other), step.options, "", w.now, step.faults, id);
      }
    }
  }

  // A stopped session keeps its workspace for the whole retention period after
  // its last stop, through sweeps, reaper passes, resumes that succeed or fail,
  // and anything done to other sessions.
  lemma {:induction false} WorkspaceIsRetained(c: Config, w: World, steps: seq<Step>, id: string, pvcName: string,
          image: string, since: int)
    requires Validated(c) && Good(w) && AllowedRun(c, w, steps)
    requires forall step | step in steps :: !GivesUp(c, step, id, image)
    requires Retained(w.sys, id, pvcName, image, since) && since <= w.now
    requires Run(c, w, steps).now <= since + c.stoppedTTL
    ensures Retained(Run(c, w, steps).sys, id, pvcName, image, since)
    decreases |steps|
  {
    hide Retained, Next, Inv;
    if steps != [] {
      assert steps[0] in steps && forall st | st in steps[1..] :: st in steps;
      ClockOnlyAdvances(c, w, steps);
      StepRetains(c, w, steps[0], id, pvcName, image, since);
      StepKeepsGood(c, w, steps[0]);
      WorkspaceIsRetained(c, Apply(c, w, steps[0]), steps[1..], id, pvcName, image, since);
    }
  }

  // In particular from the moment of a stop that took effect.
  lemma StopRetainsWorkspace(c: Config, w: World, steps: seq<Step>, id: string)
    requires Validated(c) && Good(w) && id in w.sys.store && w.sys.store[id].state == Running
    requires AllowedRun(c, w, [StopStep(id)] + steps)
    requires forall step | step in steps :: !GivesUp(c, step, id, w.sys.store[id].image)
    requires Run(c, w, [StopStep(id)] + steps).now <= w.now + c.stoppedTTL
    ensures var r := w.sys.store[id];
      Retained(Run(c, w, [StopStep(id)] + steps).sys, id, r.pvcName, r.image, w.now)
  {
    hide PodName, PvcName, SessionIdFromPodName, CaSecretName, IsSessionLabel, IsPoolLabel, Inv;
    var w1 := Apply(c, w, StopStep(id));
    assert ([StopStep(id)] + steps)[1..] == steps;
    StepKeepsGood(c, w, StopStep(id));
    GoodAgrees(w1, id);
    WorkspaceIsRetained(c, w1, steps, id, w.sys.store[id].pvcName, w.sys.store[id].image, w.now);
  }

  lemma {:induction false} ClockOnlyAdvances(c: Config, w: World, steps: seq<Step>)
    requires AllowedRun(c, w, steps)
    ensures w.now <= Run(c, w, steps).now
    decreases |steps|
  {
    if steps != [] {
      ClockOnlyAdvances(c, Apply(c, w, steps[0]), steps[1..]);
    }
  }

  // ---- Activity ---------------------------------------------------------------

  // A running session made then, with this image, active no earlier than `since`.
  ghost predicate Lively(s: System, id: string, image: string, made: int, since: int) {
    && id in s.store && s.store[id].state == Running && s.store[id].image == image
    && s.store[id].createdAt == made && s.store[id].lastActivityAt >= since
  }

  ghost predicate ActivityOf(step: Step, id: string) {
    step == TouchStep(id) || step == BeginStep(id) || step == EndStep(id)
  }

  // Nobody stops the session or gives it up.
  ghost predicate LeftAlone(c: Config, step: Step, id: string, image: string) {
    step != StopStep(id) && !GivesUp(c, step, id, image)
  }

  lemma LivelySurvives(c: Config, w: World, step: Step, id: string, image: string, made: int, since: int)
    requires Good(w) && Allowed(c, w, step) && LeftAlone(c, step, id, image) && !step.ReapStep?
    requires Lively(w.sys, id, image, made, since) && since <= w.now
    ensures Lively(Next(c, w, step), id, image, made, since)
  {
    hide PodName, PvcName, PvcLabel, SessionIdFromPodName, CaSecretName, CaLabel, Canonical, ResolveImage;
    hide PoolEligible, Inv, Create, PurgeSandbox, StopSandbox, WantedImage, ResumeSandbox;
    if step.CreateStep? {
      CreateSparesRecords(c, w.sys, step.options, step.newId, w.now, step.faults, id);
    } else if step.EnsureStep? {
      var other := Canonical(c.sum, step.options.ref);
      ImageIsWanted(c, step.options.image);
      CreateSparesRecords(c, w.sys, step.options, "", w.now, step.faults, id);
      if other in w.sys.store && other != id {
        CreateSparesRecords(c, PurgeAndForget(w.sys, other), step.options, "", w.now, step.faults, id);
      }
    }
  }

  lemma LivelyIsWithinLimits(c: Config, w: World, step: Step, id: string, image: string, made: int, since: int)
    requires Validated(c) && Good(w) && Allowed(c, w, step) && step.ReapStep?
    requires Lively(w.sys, id, image, made, since) && w.now <= since + c.runningTTL && w.now <= made + c.maxLifetime
    ensures Lively(Next(c, w, step), id, image, made, since)
  {
    hide Reap, Allowed, Inv;
    KeysAreIds(w);
    ReapIsExact(c, w, step.running, step.stopped);
  }

  lemma {:induction false} StaysRunning(c: Config, w: World, steps: seq<Step>, id: string, image: string, made: int,
          since: int)
    requires Validated(c) && Good(w) && AllowedRun(c, w, steps)
    requires forall step | step in steps :: LeftAlone(c, step, id, image)
    requires Lively(w.sys, id, image, made, since) && since <= w.now
    requires Run(c, w, steps).now <= since + c.runningTTL && Run(c, w, steps).now <= made + c.maxLifetime
    ensures Lively(Run(c, w, steps).sys, id, image, made, since)
    decreases |steps|
  {
    hide Lively, Next, Inv, LeftAlone;
    if steps != [] {
      assert steps[0] in steps && forall st | st in steps[1..] :: st in steps;
      ClockOnlyAdvances(c, w, steps);
      StepKeepsGood(c, w, steps[0]);
      if steps[0].ReapStep? {
        LivelyIsWithinLimits(c, w, steps[0], id, image, made, since);
      } else {
        LivelySurvives(c, w, steps[0], id, image, made, since);
      }
      StaysRunning(c, Apply(c, w, steps[0]), steps[1..], id, image, made, since);
    }
  }

  // The beginning or end of a call, like a touch, restarts a running session's idle clock:
  // until the idle limit has passed since then, or the lifetime cap since its creation, no
  // run stops it in which nobody asks for that.
  lemma ActivityKeepsRunning(c: Config, w: World, step: Step, steps: seq<Step>, id: string)
    requires Validated(c) && Good(w) && ActivityOf(step, id)
    requires id in w.sys.store && w.sys.store[id].state == Running
    requires AllowedRun(c, w, [step] + steps)
    requires forall st | st in steps :: LeftAlone(c, st, id, w.sys.store[id].image)
    requires Run(c, w, [step] + steps).now <= w.now + c.runningTTL
    requires Run(c, w, [step] + steps).now <= w.sys.store[id].createdAt + c.maxLifetime
    ensures var s := Run(c, w, [step] + steps).sys; id in s.store && s.store[id].state == Running
  {
    hide PodName, PvcName, SessionIdFromPodName, CaSecretName, Inv, Run, AllowedRun;
    var w1 := Apply(c, w, step);
    var r := w.sys.store[id];
    assert ([step] + steps)[1..] == steps;
    RunFirst(c, w, [step] + steps);
    StepKeepsGood(c, w, step);
    StaysRunning(c, w1, steps, id, r.image, r.createdAt, w.now);
  }
}
