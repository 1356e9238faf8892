// The orphan sweep against creates and resumes (internal/manager/manager.go): its three
// reads and each platform call of its purges are separate steps, interleaved with those
// of the sessions. Only objects named after session ids appear, by that id: the sweep
// passes over the pool's.
module SweepRace {
  import opened Wrappers
  import opened Lifecycle

  type Id = string

  // How far a create in flight has come, and since when it runs.
  datatype Phase = NoPvc | HasPvc | HasSecret | HasPod
  datatype Making = Making(phase: Phase, since: int)

  // A tracked session: whether its record names the pod of its own id, with the secret
  // that goes with it, and whether it owns the PVC of its own id. One from the pool does
  // neither until it is resumed.
  datatype Live = Live(state: State, named: bool, pvc: bool)

  // The purge of one id: its pod is gone, then its secret.
  datatype Purge = NoPurge | PodGone(x: Id) | SecretGone(x: Id)

  // `known` is the sweep's list of sessions, `listed` its list of pods; `left` is what
  // its loop has yet to look at, with creation times.
  datatype Sweep =
    | Resting
    | SawStore(start: int, known: set<Id>)
    | Pods(start: int, known: set<Id>, listed: set<Id>, left: map<Id, int>, purge: Purge)
    | Pvcs(start: int, known: set<Id>, listed: set<Id>, left: map<Id, int>, purge: Purge)

  datatype World = World(
    now: int, store: map<Id, Live>, creating: map<Id, Making>,
    pods: map<Id, int>, secrets: set<Id>, pvcs: map<Id, int>, sweep: Sweep)

  datatype Step =
    | Begin(x: Id)
    | MakePvc(x: Id)
    | MakeSecret(x: Id)
    | MakePod(x: Id)
    | Record(x: Id)
    | TakePooled(x: Id)      // a create served by the pool
    | RollBack(x: Id)
    | Strand(x: Id)          // a create whose secret is refused
    | Stop(x: Id)
    | Resume(x: Id)
    | ResumeRefused(x: Id)   // its pod is refused: the secret stays
    | ResumeUnready(x: Id)   // undone, and the record names no pod
    | Delete(x: Id)
    | Forget(x: Id)
    | Restart
    | Tick(later: int)
    | SweepBegin
    | ListPods
    | ListPvcs
    | PurgePod(x: Id)
    | PurgeSecret
    | PurgePvc
    | PurgeFails
    | SweepEnd

  // Whether secrets are made at all.
  predicate Certified(c: Config) { c.proxy && c.caCert }

  predicate Within(c: Config, m: Making, now: int) {
    now - m.since <= c.maxLifetime && now - m.since <= c.stoppedTTL
  }

  predicate At(w: World, x: Id, phase: Phase) { x in w.creating && w.creating[x].phase == phase }

  predicate Looping(s: Sweep) { s.Pods? || s.Pvcs? }

  // The platform has no objects in the way of a resume.
  predicate CanResume(c: Config, w: World, x: Id) {
    x in w.store && w.store[x].state == Stopped && (Certified(c) ==> x !in w.secrets)
  }

  // Each create takes no longer than either limit.
  ghost predicate Enabled(c: Config, w: World, step: Step) {
    match step
    case Begin(x) => x !in w.store && x !in w.creating
    case MakePvc(x) => At(w, x, NoPvc) && x !in w.pvcs
    case MakeSecret(x) => At(w, x, HasPvc) && (Certified(c) ==> x !in w.secrets)
    case MakePod(x) => At(w, x, HasSecret) && x !in w.pods
    case Record(x) => At(w, x, HasPod)
    case TakePooled(x) => At(w, x, NoPvc)
    case RollBack(x) => x in w.creating && w.creating[x].phase != HasPvc
    case Strand(x) => At(w, x, HasPvc) && Certified(c)
    case Stop(x) => x in w.store && w.store[x].state == Running
    case Resume(x) => CanResume(c, w, x) && x !in w.pods
    case ResumeRefused(x) => CanResume(c, w, x)
    case ResumeUnready(x) => CanResume(c, w, x) && x !in w.pods
    case Delete(x) => x in w.store
    case Forget(x) => x in w.store
    case Tick(later) => later >= w.now && forall x | x in w.creating :: Within(c, w.creating[x], later)
    case SweepBegin => w.sweep.Resting?
    case ListPods => w.sweep.SawStore?
    case ListPvcs => w.sweep.Pods? && w.sweep.purge.NoPurge?
    case PurgePod(x) =>
      && Looping(w.sweep) && w.sweep.purge.NoPurge? && x in w.sweep.left && x !in w.sweep.known
      && (if w.sweep.Pods? then w.sweep.start - w.sweep.left[x] > c.maxLifetime
          else x !in w.sweep.listed && w.sweep.start - w.sweep.left[x] > c.stoppedTTL)
    case PurgeSecret => Looping(w.sweep) && w.sweep.purge.PodGone?
    case PurgePvc => Looping(w.sweep) && w.sweep.purge.SecretGone?
    case PurgeFails => Looping(w.sweep)
    case SweepEnd => Looping(w.sweep) ==> w.sweep.purge.NoPurge?
    case Restart => true
  }

  function Without(m: map<Id, int>, x: Id, drop: bool): map<Id, int> { if drop then m - {x} else m }

  function With(c: Config, secrets: set<Id>, x: Id): set<Id> { if Certified(c) then secrets + {x} else secrets }

  // The end of a session's objects: what its record names, and its PVC.
  function Purged(w: World, x: Id): World
    requires x in w.store
  {
    var r := w.store[x];
    w.(pods := Without(w.pods, x, r.named), secrets := if r.named then w.secrets - {x} else w.secrets,
       pvcs := Without(w.pvcs, x, r.pvc))
  }

  ghost function Next(c: Config, w: World, step: Step): World
    requires Enabled(c, w, step)
  {
    match step
    case Begin(x) => w.(creating := w.creating[x := Making(NoPvc, w.now)])
    case MakePvc(x) => w.(pvcs := w.pvcs[x := w.now], creating := w.creating[x := w.creating[x].(phase := HasPvc)])
    case MakeSecret(x) =>
      w.(secrets := With(c, w.secrets, x), creating := w.creating[x := w.creating[x].(phase := HasSecret)])
    case MakePod(x) => w.(pods := w.pods[x := w.now], creating := w.creating[x := w.creating[x].(phase := HasPod)])
    case Record(x) => w.(store := w.store[x := Live(Running, true, true)], creating := w.creating - {x})
    case TakePooled(x) => w.(store := w.store[x := Live(Running, false, false)], creating := w.creating - {x})
    case RollBack(x) =>
      var phase := w.creating[x].phase;
      w.(creating := w.creating - {x}, pods := Without(w.pods, x, phase == HasPod),
         secrets := if phase == NoPvc then w.secrets else w.secrets - {x}, pvcs := Without(w.pvcs, x, phase != NoPvc))
    case Strand(x) => w.(creating := w.creating - {x})
    case Stop(x) =>
      var named := w.store[x].named;
      w.(store := w.store[x := w.store[x].(state := Stopped)], pods := Without(w.pods, x, named),
         secrets := if named then w.secrets - {x} else w.secrets)
    case Resume(x) =>
      w.(store := w.store[x := w.store[x].(state := Running, named := true)], pods := w.pods[x := w.now],
         secrets := With(c, w.secrets, x))
    case ResumeRefused(x) => w.(secrets := With(c, w.secrets, x))
    case ResumeUnready(x) => w.(store := w.store[x := w.store[x].(named := false)], secrets := w.secrets - {x})
    case Delete(x) => Purged(w, x).(store := w.store[x := Live(Dead, false, false)])
    case Forget(x) => Purged(w, x).(store := w.store - {x})
    case Restart => World(w.now, map[], map[], w.pods, w.secrets, w.pvcs, Resting)
    case Tick(later) => w.(now := later)
    case SweepBegin => w.(sweep := SawStore(w.now, w.store.Keys))
    case ListPods => w.(sweep := Pods(w.sweep.start, w.sweep.known, w.pods.Keys, w.pods, NoPurge))
    case ListPvcs => w.(sweep := Pvcs(w.sweep.start, w.sweep.known, w.sweep.listed, w.pvcs, NoPurge))
    case PurgePod(x) => w.(pods := w.pods - {x}, sweep := w.sweep.(left := w.sweep.left - {x}, purge := PodGone(x)))
    case PurgeSecret =>
      var x := w.sweep.purge.x;
      w.(secrets := w.secrets - {x}, sweep := w.sweep.(purge := SecretGone(x)))
    case PurgePvc => w.(pvcs := w.pvcs - {w.sweep.purge.x}, sweep := w.sweep.(purge := NoPurge))
    case PurgeFails => w.(sweep := w.sweep.(purge := NoPurge))
    case SweepEnd => w.(sweep := Resting)
  }

  // ---- Ownership ---------------------------------------------------------------------

  predicate OwnsPod(w: World, x: Id) {
    (x in w.store && w.store[x].state == Running && w.store[x].named) || At(w, x, HasPod)
  }

  predicate OwnsSecret(c: Config, w: World, x: Id) { Certified(c) && (OwnsPod(w, x) || At(w, x, HasSecret)) }

  predicate OwnsPvc(w: World, x: Id) {
    (x in w.store && w.store[x].pvc) || At(w, x, HasPvc) || At(w, x, HasSecret) || At(w, x, HasPod)
  }

  // A call of a purge that takes an object of a session tracked or being created.
  ghost predicate Harms(c: Config, w: World, step: Step, x: Id)
    requires Enabled(c, w, step)
  {
    || (step == PurgePod(x) && OwnsPod(w, x))
    || (step.PurgeSecret? && w.sweep.purge.x == x && OwnsSecret(c, w, x))
    || (step.PurgePvc? && w.sweep.purge.x == x && OwnsPvc(w, x))
  }

  // What x owns is there; its create has not run for longer than the limits, made what
  // it made since it began, and is not of a tracked id; a stopped session has no pod; and
  // a purge under way is of an id the sweep's loop has reached.
  ghost predicate Inv(c: Config, w: World, x: Id) {
    && (OwnsPod(w, x) ==> x in w.pods)
    && (OwnsSecret(c, w, x) ==> x in w.secrets)
    && (OwnsPvc(w, x) ==> x in w.pvcs)
    && (x in w.creating ==> x !in w.store && w.creating[x].since <= w.now && Within(c, w.creating[x], w.now))
    && (At(w, x, HasPod) ==> w.pods[x] >= w.creating[x].since)
    && (x in w.creating && w.creating[x].phase != NoPvc ==> w.pvcs[x] >= w.creating[x].since)
    && (x in w.store && w.store[x].named && w.store[x].state != Running ==> x !in w.pods)
    && (!w.sweep.Resting? ==> w.sweep.start <= w.now)
    && (w.sweep.Pods? ==> w.sweep.left.Keys <= w.sweep.listed)
    && (Looping(w.sweep) && w.sweep.purge in {PodGone(x), SecretGone(x)} ==>
          x !in w.sweep.left && (w.sweep.Pods? ==> x in w.sweep.listed))
  }

  // Steps of creates; of tracked sessions; the others are the sweep's, the clock's, and
  // restarts.
  predicate CreateStep(step: Step) {
    match step
    case Begin(_) => true
    case MakePvc(_) => true
    case MakeSecret(_) => true
    case MakePod(_) => true
    case Record(_) => true
    case TakePooled(_) => true
    case RollBack(_) => true
    case Strand(_) => true
    case _ => false
  }

  predicate TrackedStep(step: Step) {
    match step
    case Stop(_) => true
    case Resume(_) => true
    case ResumeRefused(_) => true
    case ResumeUnready(_) => true
    case Delete(_) => true
    case Forget(_) => true
    case _ => false
  }

  predicate EndsCreate(step: Step) { step.Record? || step.TakePooled? || step.RollBack? || step.Strand? }

  lemma MakingKeepsInv(c: Config, w: World, step: Step, x: Id)
    requires Inv(c, w, x) && Enabled(c, w, step) && CreateStep(step) && !EndsCreate(step)
    requires c.maxLifetime > 0 && c.stoppedTTL > 0
    ensures Inv(c, Next(c, w, step), x)
  {
  }

  lemma EndingKeepsInv(c: Config, w: World, step: Step, x: Id)
    requires Inv(c, w, x) && Enabled(c, w, step) && EndsCreate(step)
    ensures Inv(c, Next(c, w, step), x)
  {
  }

  lemma PausingKeepsInv(c: Config, w: World, step: Step, x: Id)
    requires Inv(c, w, x) && Enabled(c, w, step) && TrackedStep(step) && !step.Delete? && !step.Forget?
    ensures Inv(c, Next(c, w, step), x)
  {
  }

  lemma RemovingKeepsInv(c: Config, w: World, step: Step, x: Id)
    requires Inv(c, w, x) && Enabled(c, w, step) && (step.Delete? || step.Forget?)
    ensures Inv(c, Next(c, w, step), x)
  {
  }

  lemma StepKeepsInv(c: Config, w: World, step: Step, x: Id)
    requires Inv(c, w, x) && Enabled(c, w, step) && c.maxLifetime > 0 && c.stoppedTTL > 0
    requires !Harms(c, w, step, x)
    ensures Inv(c, Next(c, w, step), x)
  {
    if EndsCreate(step) {
      EndingKeepsInv(c, w, step, x);
    } else if CreateStep(step) {
      MakingKeepsInv(c, w, step, x);
    } else if step.Delete? || step.Forget? {
      RemovingKeepsInv(c, w, step, x);
    } else if TrackedStep(step) {
      PausingKeepsInv(c, w, step, x);
    } else {
      SweepKeepsInv(c, w, step, x);
    }
  }

  lemma SweepKeepsInv(c: Config, w: World, step: Step, x: Id)
    requires Inv(c, w, x) && Enabled(c, w, step) && !CreateStep(step) && !TrackedStep(step)
    requires !Harms(c, w, step, x)
    ensures Inv(c, Next(c, w, step), x)
  {
  }

  // ---- When a sweep can harm a session --------------------------------------------------

  ghost predicate LeftPod(w: World, x: Id) { x in w.pods && !OwnsPod(w, x) }

  ghost predicate LeftSecret(c: Config, w: World, x: Id) { x in w.secrets && !OwnsSecret(c, w, x) }

  ghost predicate LeftPvc(w: World, x: Id) { x in w.pvcs && !OwnsPvc(w, x) }

  // What is left over keeps any session from making objects of its own: no PVC beside the
  // one left over, and no pod beside the secret left over, or where none are made, beside
  // the pod.
  ghost predicate Blocked(c: Config, w: World, x: Id) {
    && LeftPvc(w, x) && (if Certified(c) then LeftSecret(c, w, x) else LeftPod(w, x))
    && (x in w.store ==> !w.store[x].named)
  }

  // An object of an untracked id is left over from before and past its limit, a pod, or
  // a PVC without a pod, and what is left over does not block the id.
  ghost predicate Exposed(c: Config, w: World, x: Id) {
    && x !in w.store && !Blocked(c, w, x)
    && ((LeftPod(w, x) && w.now - w.pods[x] > c.maxLifetime)
        || (LeftPvc(w, x) && w.now - w.pvcs[x] > c.stoppedTTL && x !in w.pods))
  }

  // Its pod, or its PVC, is past its limit, as this sweep measures it.
  ghost predicate Overdue(objects: map<Id, int>, x: Id, start: int, limit: int) {
    x in objects && start - objects[x] > limit
  }

  // The rest of a purge under way takes only what is left over.
  ghost predicate SafePurge(c: Config, w: World, x: Id, purge: Purge) {
    && (purge == PodGone(x) ==> LeftPvc(w, x) && (Certified(c) ==> Blocked(c, w, x)))
    && (purge == SecretGone(x) ==> LeftPvc(w, x))
  }

  // During a sweep: x is known; or its pod, if overdue, is left over and x blocked, and
  // its PVC is passed over, not overdue, or x blocked.
  ghost predicate Safe(c: Config, w: World, x: Id) {
    match w.sweep
    case Resting => true
    case SawStore(start, known) =>
      || x in known
      || (&& (Overdue(w.pods, x, start, c.maxLifetime) ==> LeftPod(w, x) && Blocked(c, w, x))
          && (LeftPod(w, x) || !Overdue(w.pvcs, x, start, c.stoppedTTL) || Blocked(c, w, x)))
    case Pods(start, known, listed, left, purge) =>
      && SafePurge(c, w, x, purge)
      && (|| x in known
          || (&& (Overdue(left, x, start, c.maxLifetime) ==> LeftPod(w, x) && Blocked(c, w, x))
              && (x in listed || !Overdue(w.pvcs, x, start, c.stoppedTTL) || Blocked(c, w, x))))
    case Pvcs(start, known, listed, left, purge) =>
      && SafePurge(c, w, x, purge)
      && (x in known || x in listed || !Overdue(left, x, start, c.stoppedTTL) || Blocked(c, w, x))
  }

  lemma SafeIsHarmless(c: Config, w: World, step: Step, x: Id)
    requires Inv(c, w, x) && Safe(c, w, x) && Enabled(c, w, step)
    ensures !Harms(c, w, step, x)
  {
  }

  lemma BeginIsSafe(c: Config, w: World, x: Id)
    requires Inv(c, w, x) && w.sweep.Resting? && !Exposed(c, w, x)
    ensures Safe(c, Next(c, w, SweepBegin), x)
  {
  }

  // What is left over stays, and what blocks x goes on blocking it.
  ghost predicate KeepsLeft(c: Config, w: World, w': World, x: Id) {
    && w'.sweep == w.sweep && (LeftPod(w, x) ==> LeftPod(w', x)) && (LeftPvc(w, x) ==> LeftPvc(w', x))
    && (Blocked(c, w, x) ==> Blocked(c, w', x))
  }

  lemma CreateKeepsLeft(c: Config, w: World, step: Step, x: Id)
    requires Inv(c, w, x) && Enabled(c, w, step) && CreateStep(step)
    ensures KeepsLeft(c, w, Next(c, w, step), x)
  {
  }

  lemma TrackedKeepsLeft(c: Config, w: World, step: Step, x: Id)
    requires Inv(c, w, x) && Enabled(c, w, step) && TrackedStep(step)
    ensures KeepsLeft(c, w, Next(c, w, step), x)
  {
  }

  // What a session makes during a sweep is not overdue.
  lemma SessionMakesYoung(c: Config, w: World, step: Step, x: Id, start: int, limit: int)
    requires Enabled(c, w, step) && (CreateStep(step) || TrackedStep(step)) && start <= w.now && limit > 0
    ensures var w' := Next(c, w, step);
      && (Overdue(w'.pods, x, start, limit) ==> Overdue(w.pods, x, start, limit))
      && (Overdue(w'.pvcs, x, start, limit) ==> Overdue(w.pvcs, x, start, limit))
  {
  }

  // No session gets past what blocks it, and what it makes is young.
  lemma SessionKeepsSafe(c: Config, w: World, step: Step, x: Id)
    requires Inv(c, w, x) && Enabled(c, w, step) && Safe(c, w, x) && (CreateStep(step) || TrackedStep(step))
    requires c.maxLifetime > 0 && c.stoppedTTL > 0
    ensures Safe(c, Next(c, w, step), x)
  {
    hide Enabled, Next, LeftPod, LeftPvc, LeftSecret, Blocked, Overdue, CreateStep, TrackedStep;
    if CreateStep(step) { CreateKeepsLeft(c, w, step, x); } else { TrackedKeepsLeft(c, w, step, x); }
    if !w.sweep.Resting? {
      SessionMakesYoung(c, w, step, x, w.sweep.start, c.maxLifetime);
      SessionMakesYoung(c, w, step, x, w.sweep.start, c.stoppedTTL);
    }
  }

  // A purge takes what is left over, one call after the other.
  lemma PurgeBeginsSafe(c: Config, w: World, y: Id, x: Id)
    requires Inv(c, w, x) && Enabled(c, w, PurgePod(y)) && Safe(c, w, x)
    ensures Safe(c, Next(c, w, PurgePod(y)), x)
  {
  }

  lemma PurgeKeepsSafe(c: Config, w: World, step: Step, x: Id)
    requires Inv(c, w, x) && Enabled(c, w, step) && Safe(c, w, x) && (step.PurgeSecret? || step.PurgePvc?)
    ensures Safe(c, Next(c, w, step), x)
  {
  }

  lemma ListingKeepsSafe(c: Config, w: World, step: Step, x: Id)
    requires Inv(c, w, x) && Enabled(c, w, step) && Safe(c, w, x) && step != SweepBegin
    requires !CreateStep(step) && !TrackedStep(step) && !step.PurgePod? && !step.PurgeSecret? && !step.PurgePvc?
    ensures Safe(c, Next(c, w, step), x)
  {
  }

  lemma StepKeepsSafe(c: Config, w: World, step: Step, x: Id)
    requires Inv(c, w, x) && Enabled(c, w, step) && Safe(c, w, x) && step != SweepBegin
    requires c.maxLifetime > 0 && c.stoppedTTL > 0
    ensures Safe(c, Next(c, w, step), x)
  {
    hide Inv, Enabled, Next, Safe;
    if CreateStep(step) || TrackedStep(step) {
      SessionKeepsSafe(c, w, step, x);
    } else if step.PurgePod? {
      PurgeBeginsSafe(c, w, step.x, x);
    } else if step.PurgeSecret? || step.PurgePvc? {
      PurgeKeepsSafe(c, w, step, x);
    } else {
      ListingKeepsSafe(c, w, step, x);
    }
  }

  // ---- Runs ------------------------------------------------------------------------------

  // Some step of the run harms x.
  ghost predicate HarmsIn(c: Config, w: World, steps: seq<Step>, x: Id)
    decreases |steps|
  {
    && steps != [] && Enabled(c, w, steps[0])
    && (Harms(c, w, steps[0], x) || HarmsIn(c, Next(c, w, steps[0]), steps[1..], x))
  }

  ghost predicate OneSweep(steps: seq<Step>) { SweepBegin !in steps }

  lemma {:induction false} SafeRunIsHarmless(c: Config, w: World, steps: seq<Step>, x: Id)
    requires Inv(c, w, x) && Safe(c, w, x) && OneSweep(steps) && c.maxLifetime > 0 && c.stoppedTTL > 0
    ensures !HarmsIn(c, w, steps, x)
    decreases |steps|
  {
    hide Inv, Safe, Harms, Enabled, Next;
    if steps != [] && Enabled(c, w, steps[0]) {
      assert steps[0] in steps && forall step | step in steps[1..] :: step in steps;
      SafeIsHarmless(c, w, steps[0], x);
      StepKeepsInv(c, w, steps[0], x);
      StepKeepsSafe(c, w, steps[0], x);
      SafeRunIsHarmless(c, Next(c, w, steps[0]), steps[1..], x);
    }
  }

  lemma HarmsLater(c: Config, w: World, step: Step, rest: seq<Step>, x: Id)
    requires Enabled(c, w, step) && HarmsIn(c, Next(c, w, step), rest, x)
    ensures HarmsIn(c, w, [step] + rest, x)
  {
    assert ([step] + rest)[1..] == rest;
  }

  lemma HarmsNow(c: Config, w: World, step: Step, x: Id)
    requires Enabled(c, w, step) && Harms(c, w, step, x)
    ensures HarmsIn(c, w, [step], x)
  {
  }

  // ---- What harms an exposed id ------------------------------------------------------------

  // A sweep begun here, once it has listed the pods, and then the PVCs.
  function PodsListed(w: World): World { w.(sweep := Pods(w.now, w.store.Keys, w.pods.Keys, w.pods, NoPurge)) }

  function PvcsListed(w: World): World { w.(sweep := Pvcs(w.now, w.store.Keys, w.pods.Keys, w.pvcs, NoPurge)) }

  lemma HarmsOncePodsListed(c: Config, w: World, steps: seq<Step>, x: Id)
    requires w.sweep.Resting? && HarmsIn(c, PodsListed(w), steps, x)
    ensures HarmsIn(c, Next(c, w, SweepBegin), [ListPods] + steps, x)
  {
    hide HarmsIn;
    HarmsLater(c, Next(c, w, SweepBegin), ListPods, steps, x);
  }

  lemma HarmsOncePvcsListed(c: Config, w: World, steps: seq<Step>, x: Id)
    requires w.sweep.Resting? && HarmsIn(c, PvcsListed(w), steps, x)
    ensures HarmsIn(c, Next(c, w, SweepBegin), [ListPods] + ([ListPvcs] + steps), x)
  {
    hide HarmsIn;
    HarmsLater(c, PodsListed(w), ListPvcs, steps, x);
    HarmsOncePodsListed(c, w, [ListPvcs] + steps, x);
  }

  // A whole purge of x takes a PVC that x owns.
  function WholePurge(x: Id): seq<Step> { [PurgePod(x)] + ([PurgeSecret] + [PurgePvc]) }

  lemma PurgeHarms(c: Config, w: World, x: Id)
    requires Enabled(c, w, PurgePod(x)) && OwnsPvc(w, x)
    ensures HarmsIn(c, w, WholePurge(x), x)
  {
    hide HarmsIn;
    var w1 := Next(c, w, PurgePod(x));
    HarmsNow(c, Next(c, w1, PurgeSecret), PurgePvc, x);
    HarmsLater(c, w1, PurgeSecret, [PurgePvc], x);
    HarmsLater(c, w, PurgePod(x), [PurgeSecret] + [PurgePvc], x);
  }

  lemma PurgeHarmsMaking(c: Config, w: World, x: Id)
    requires Enabled(c, w, PurgePod(x)) && At(w, x, NoPvc) && x !in w.pvcs
    ensures HarmsIn(c, w, [MakePvc(x)] + WholePurge(x), x)
  {
    hide HarmsIn, WholePurge;
    PurgeHarms(c, Next(c, w, MakePvc(x)), x);
    HarmsLater(c, w, MakePvc(x), WholePurge(x), x);
  }

  lemma PurgeHarmsNew(c: Config, w: World, x: Id)
    requires Enabled(c, w, PurgePod(x)) && x !in w.store && x !in w.creating && x !in w.pvcs
    ensures HarmsIn(c, w, [Begin(x)] + ([MakePvc(x)] + WholePurge(x)), x)
  {
    hide HarmsIn, WholePurge;
    PurgeHarmsMaking(c, Next(c, w, Begin(x)), x);
    HarmsLater(c, w, Begin(x), [MakePvc(x)] + WholePurge(x), x);
  }

  // An old pod is left over and a cold create of the same id makes its PVC: purging
  // the pod takes the PVC along.
  lemma LeftPodHarms(c: Config, w: World, x: Id) returns (steps: seq<Step>)
    requires Inv(c, w, x) && w.sweep.Resting? && x !in w.store
    requires LeftPod(w, x) && w.now - w.pods[x] > c.maxLifetime && !LeftPvc(w, x)
    ensures OneSweep(steps) && HarmsIn(c, Next(c, w, SweepBegin), steps, x)
  {
    hide HarmsIn, Next;
    var w2 := PodsListed(w);
    assert Enabled(c, w2, PurgePod(x));
    if OwnsPvc(w, x) {
      PurgeHarms(c, w2, x);
      steps := WholePurge(x);
    } else if x in w.creating {
      PurgeHarmsMaking(c, w2, x);
      steps := [MakePvc(x)] + WholePurge(x);
    } else {
      PurgeHarmsNew(c, w2, x);
      steps := [Begin(x)] + ([MakePvc(x)] + WholePurge(x));
    }
    HarmsOncePodsListed(c, w, steps, x);
    steps := [ListPods] + steps;
  }

  // A session of x made from the pool, stopped and resumed.
  function PooledThenResumed(x: Id): seq<Step> { [TakePooled(x)] + ([Stop(x)] + [Resume(x)]) }

  // Nothing is in the way of resuming a session of x that comes from the pool.
  ghost predicate CanPool(c: Config, w: World, x: Id) {
    x !in w.store && x !in w.pods && (Certified(c) ==> x !in w.secrets) && (x in w.creating ==> At(w, x, NoPvc))
  }

  // A call of a purge that takes the pod or the secret of x, if there is one.
  ghost predicate Takes(c: Config, w: World, step: Step, x: Id) {
    && (step == PurgePod(x) || (step == PurgeSecret && Certified(c))) && Enabled(c, w, step)
    && (step == PurgeSecret ==> w.sweep.purge == PodGone(x))
  }

  lemma ResumedIsHarmed(c: Config, w: World, x: Id, step: Step)
    requires x in w.store && CanResume(c, w, x) && x !in w.pods && Takes(c, w, step, x)
    ensures HarmsIn(c, w, [Resume(x)] + [step], x)
  {
    hide HarmsIn;
    HarmsNow(c, Next(c, w, Resume(x)), step, x);
    HarmsLater(c, w, Resume(x), [step], x);
  }

  lemma StoppedIsHarmed(c: Config, w: World, x: Id, step: Step)
    requires x in w.store && w.store[x] == Live(Running, false, false) && x !in w.pods
    requires (Certified(c) ==> x !in w.secrets) && Takes(c, w, step, x)
    ensures HarmsIn(c, w, [Stop(x)] + ([Resume(x)] + [step]), x)
  {
    hide HarmsIn;
    ResumedIsHarmed(c, Next(c, w, Stop(x)), x, step);
    HarmsLater(c, w, Stop(x), [Resume(x)] + [step], x);
  }

  lemma PooledIsHarmed(c: Config, w: World, x: Id, step: Step)
    requires CanPool(c, w, x) && x in w.creating && Takes(c, w, step, x)
    ensures HarmsIn(c, w, PooledThenResumed(x) + [step], x)
  {
    hide HarmsIn;
    StoppedIsHarmed(c, Next(c, w, TakePooled(x)), x, step);
    HarmsLater(c, w, TakePooled(x), [Stop(x)] + ([Resume(x)] + [step]), x);
    assert PooledThenResumed(x) + [step] == [TakePooled(x)] + ([Stop(x)] + ([Resume(x)] + [step]));
  }

  lemma NewPooledIsHarmed(c: Config, w: World, x: Id, step: Step) returns (steps: seq<Step>)
    requires CanPool(c, w, x) && Takes(c, w, step, x)
    ensures OneSweep(steps) && HarmsIn(c, w, steps, x)
  {
    hide HarmsIn;
    steps := PooledThenResumed(x) + [step];
    if x in w.creating {
      PooledIsHarmed(c, w, x, step);
    } else {
      PooledIsHarmed(c, Next(c, w, Begin(x)), x, step);
      HarmsLater(c, w, Begin(x), steps, x);
      steps := [Begin(x)] + steps;
    }
  }

  // Pod and PVC are left over, but no secret; a session of the same id from the pool is
  // resumed after the purge took the pod: its next call takes the new secret.
  lemma LeftWithoutSecretHarms(c: Config, w: World, x: Id) returns (steps: seq<Step>)
    requires Inv(c, w, x) && w.sweep.Resting? && x !in w.store && Certified(c)
    requires LeftPod(w, x) && w.now - w.pods[x] > c.maxLifetime && LeftPvc(w, x) && !LeftSecret(c, w, x)
    ensures OneSweep(steps) && HarmsIn(c, Next(c, w, SweepBegin), steps, x)
  {
    hide HarmsIn;
    steps := NewPooledIsHarmed(c, Next(c, PodsListed(w), PurgePod(x)), x, PurgeSecret);
    HarmsLater(c, PodsListed(w), PurgePod(x), steps, x);
    HarmsOncePodsListed(c, w, [PurgePod(x)] + steps, x);
    steps := [ListPods] + ([PurgePod(x)] + steps);
  }

  // An old PVC is left over; a session of the same id is made from the pool, stopped
  // and resumed, all after the sweep listed the pods: purging the PVC takes the new pod along.
  lemma LeftPvcHarms(c: Config, w: World, x: Id) returns (steps: seq<Step>)
    requires Inv(c, w, x) && w.sweep.Resting? && x !in w.store && !(Certified(c) && LeftSecret(c, w, x))
    requires LeftPvc(w, x) && w.now - w.pvcs[x] > c.stoppedTTL && x !in w.pods
    ensures OneSweep(steps) && HarmsIn(c, Next(c, w, SweepBegin), steps, x)
  {
    hide HarmsIn, Next;
    steps := NewPooledIsHarmed(c, PvcsListed(w), x, PurgePod(x));
    HarmsOncePvcsListed(c, w, steps, x);
    steps := [ListPods] + ([ListPvcs] + steps);
  }

  lemma ExposedIsHarmed(c: Config, w: World, x: Id) returns (steps: seq<Step>)
    requires Inv(c, w, x) && w.sweep.Resting? && Exposed(c, w, x)
    ensures OneSweep(steps) && HarmsIn(c, Next(c, w, SweepBegin), steps, x)
  {
    hide HarmsIn;
    if LeftPod(w, x) && w.now - w.pods[x] > c.maxLifetime {
      if LeftPvc(w, x) { steps := LeftWithoutSecretHarms(c, w, x); } else { steps := LeftPodHarms(c, w, x); }
    } else {
      steps := LeftPvcHarms(c, w, x);
    }
  }

  // A sweep that begins here can take an object of a session tracked or being created
  // under the id x if and only if x is exposed.
  lemma SweepHarmsExactly(c: Config, w: World, x: Id)
    requires Inv(c, w, x) && w.sweep.Resting? && c.maxLifetime > 0 && c.stoppedTTL > 0
    ensures (exists steps :: OneSweep(steps) && HarmsIn(c, Next(c, w, SweepBegin), steps, x)) <==> Exposed(c, w, x)
  {
    hide HarmsIn, Exposed, Safe;
    var w1 := Next(c, w, SweepBegin);
    if Exposed(c, w, x) {
      var steps := ExposedIsHarmed(c, w, x);
    } else {
      BeginIsSafe(c, w, x);
      StepKeepsInv(c, w, SweepBegin, x);
      forall steps | OneSweep(steps) ensures !HarmsIn(c, w1, steps, x) { SafeRunIsHarmless(c, w1, steps, x); }
    }
  }

  // ---- An exposed id is reached ----------------------------------------------------------

  function Start(now: int): World { World(now, map[], map[], map[], {}, map[], Resting) }

  // The state after a run, if each of its steps can be taken.
  ghost function After(c: Config, w: World, steps: seq<Step>): Option<World>
    decreases |steps|
  {
    if steps == [] then Some(w)
    else if Enabled(c, w, steps[0]) then After(c, Next(c, w, steps[0]), steps[1..]) else None
  }

  lemma AfterFirst(c: Config, w: World, step: Step, rest: seq<Step>)
    requires Enabled(c, w, step)
    ensures After(c, w, [step] + rest) == After(c, Next(c, w, step), rest)
  {
    assert ([step] + rest)[1..] == rest;
  }

  lemma {:induction false} AfterConcat(c: Config, w: World, a: seq<Step>, b: seq<Step>)
    requires After(c, w, a).Some?
    ensures After(c, w, a + b) == After(c, After(c, w, a).value, b)
    decreases |a|
  {
    hide Enabled, Next;
    if a == [] {
      assert a + b == b;
    } else {
      AfterConcat(c, Next(c, w, a[0]), a[1..], b);
      assert a + b == [a[0]] + (a[1..] + b);
    }
  }

  lemma {:induction false} HarmsAfter(c: Config, w: World, steps: seq<Step>, rest: seq<Step>, x: Id)
    requires After(c, w, steps).Some? && HarmsIn(c, After(c, w, steps).value, rest, x)
    ensures HarmsIn(c, w, steps + rest, x)
    decreases |steps|
  {
    hide Enabled, Next, Harms;
    if steps == [] {
      assert steps + rest == rest;
    } else {
      HarmsAfter(c, Next(c, w, steps[0]), steps[1..], rest, x);
      assert steps + rest == [steps[0]] + (steps[1..] + rest);
      HarmsLater(c, w, steps[0], steps[1..] + rest, x);
    }
  }

  // From an empty platform a session taken from the pool, stopped and resumed leaves its
  // pod without a PVC of its name, once the orchestrator has restarted.
  function ToLeftPod(x: Id, later: int): seq<Step> {
    ([Begin(x)] + PooledThenResumed(x)) + ([Restart] + [Tick(later)])
  }

  // And a stopped one leaves its PVC without a pod.
  function ToLeftPvc(x: Id, later: int): seq<Step> {
    (([Begin(x)] + ([MakePvc(x)] + [MakeSecret(x)])) + ([MakePod(x)] + ([Step.Record(x)] + [Stop(x)])))
    + ([Restart] + [Tick(later)])
  }

  lemma TwoSteps(c: Config, w: World, a: Step, b: Step)
    requires Enabled(c, w, a) && Enabled(c, Next(c, w, a), b)
    ensures After(c, w, [a] + [b]) == Some(Next(c, Next(c, w, a), b))
  {
    hide Enabled, Next;
    var w2 := Next(c, Next(c, w, a), b);
    assert [b] + [] == [b] && After(c, w2, []) == Some(w2);
    AfterFirst(c, w, a, [b]);
    AfterFirst(c, Next(c, w, a), b, []);
  }

  lemma ThreeSteps(c: Config, w: World, a: Step, b: Step, d: Step)
    requires Enabled(c, w, a) && Enabled(c, Next(c, w, a), b) && Enabled(c, Next(c, Next(c, w, a), b), d)
    ensures After(c, w, [a] + ([b] + [d])) == Some(Next(c, Next(c, Next(c, w, a), b), d))
  {
    hide Enabled, Next, After;
    TwoSteps(c, Next(c, w, a), b, d);
    AfterFirst(c, w, a, [b] + [d]);
  }

  lemma LateRestart(c: Config, w: World, later: int)
    requires later >= w.now
    ensures After(c, w, [Restart] + [Tick(later)])
        == Some(World(later, map[], map[], w.pods, w.secrets, w.pvcs, Resting))
  {
    hide After;
    TwoSteps(c, w, Restart, Tick(later));
  }

  lemma LeftPodIsReached(c: Config, now: int, x: Id, later: int)
    requires later >= now
    ensures After(c, Start(now), ToLeftPod(x, later))
        == Some(Start(later).(pods := map[x := now], secrets := With(c, {}, x)))
  {
    hide After;
    var w1 := Next(c, Start(now), Begin(x));
    ThreeSteps(c, w1, TakePooled(x), Stop(x), Resume(x));
    AfterFirst(c, Start(now), Begin(x), PooledThenResumed(x));
    var w4 := After(c, w1, PooledThenResumed(x)).value;
    LateRestart(c, w4, later);
    AfterConcat(c, Start(now), [Begin(x)] + PooledThenResumed(x), [Restart] + [Tick(later)]);
  }

  lemma LeftPvcIsReached(c: Config, now: int, x: Id, later: int)
    requires later >= now
    ensures After(c, Start(now), ToLeftPvc(x, later)) == Some(Start(later).(pvcs := map[x := now]))
  {
    hide After, Enabled, Next;
    var a, b := [Begin(x)] + ([MakePvc(x)] + [MakeSecret(x)]), [MakePod(x)] + ([Step.Record(x)] + [Stop(x)]);
    var w3 := WithSecret(c, now, x);
    MakingReaches(c, now, x);
    MadeAndStopped(c, now, x);
    AfterConcat(c, Start(now), a, b);
    LateRestart(c, Start(now).(store := map[x := Live(Stopped, true, true)], pvcs := map[x := now]), later);
    AfterConcat(c, Start(now), a + b, [Restart] + [Tick(later)]);
  }

  // A create that has made its PVC and its secret.
  function WithSecret(c: Config, now: int, x: Id): World {
    World(now, map[], map[x := Making(HasSecret, now)], map[], With(c, {}, x), map[x := now], Resting)
  }

  lemma MakingReaches(c: Config, now: int, x: Id)
    ensures After(c, Start(now), [Begin(x)] + ([MakePvc(x)] + [MakeSecret(x)])) == Some(WithSecret(c, now, x))
  {
    hide After;
    ThreeSteps(c, Start(now), Begin(x), MakePvc(x), MakeSecret(x));
    var end := Next(c, Next(c, Next(c, Start(now), Begin(x)), MakePvc(x)), MakeSecret(x));
    assert end.creating == map[x := Making(HasSecret, now)] && end.pvcs == map[x := now];
  }

  lemma MadeAndStopped(c: Config, now: int, x: Id)
    ensures After(c, WithSecret(c, now, x), [MakePod(x)] + ([Step.Record(x)] + [Stop(x)]))
        == Some(Start(now).(store := map[x := Live(Stopped, true, true)], pvcs := map[x := now]))
  {
    hide After;
    ThreeSteps(c, WithSecret(c, now, x), MakePod(x), Step.Record(x), Stop(x));
    var end := Next(c, Next(c, Next(c, WithSecret(c, now, x), MakePod(x)), Step.Record(x)), Stop(x));
    assert end.store == map[x := Live(Stopped, true, true)] && end.creating == map[] && end.pods == map[];
    assert end.secrets == {};
  }

  // So from an empty platform on, for every id, a sweep begun late after a restart harms
  // a new session of that id in one run through each of the two.
  lemma SweepHarmsFromStart(c: Config, now: int, x: Id, later: int) returns (viaPod: seq<Step>, viaPvc: seq<Step>)
    requires c.maxLifetime > 0 && c.stoppedTTL > 0 && later - now > c.maxLifetime && later - now > c.stoppedTTL
    ensures OneSweep(viaPod) && HarmsIn(c, Start(now), ToLeftPod(x, later) + ([SweepBegin] + viaPod), x)
    ensures OneSweep(viaPvc) && HarmsIn(c, Start(now), ToLeftPvc(x, later) + ([SweepBegin] + viaPvc), x)
  {
    LeftPodIsReached(c, now, x, later);
    LeftPvcIsReached(c, now, x, later);
    var w := After(c, Start(now), ToLeftPod(x, later)).value;
    var v := After(c, Start(now), ToLeftPvc(x, later)).value;
    viaPod := LeftPodHarms(c, w, x);
    viaPvc := LeftPvcHarms(c, v, x);
    hide HarmsIn;
    HarmsLater(c, w, SweepBegin, viaPod, x);
    HarmsLater(c, v, SweepBegin, viaPvc, x);
    HarmsAfter(c, Start(now), ToLeftPod(x, later), [SweepBegin] + viaPod, x);
    HarmsAfter(c, Start(now), ToLeftPvc(x, later), [SweepBegin] + viaPvc, x);
  }

  // ---- The grace period ---------------------------------------------------------------------

  ghost predicate NothingLeft(w: World, x: Id) { !LeftPod(w, x) && !LeftPvc(w, x) }

  lemma CreateLeavesNothing(c: Config, w: World, step: Step, x: Id)
    requires Inv(c, w, x) && Enabled(c, w, step) && CreateStep(step) && step != Strand(x) && NothingLeft(w, x)
    ensures NothingLeft(Next(c, w, step), x)
  {
  }

  lemma TrackedLeavesNothing(c: Config, w: World, step: Step, x: Id)
    requires Inv(c, w, x) && Enabled(c, w, step) && TrackedStep(step) && NothingLeft(w, x)
    ensures NothingLeft(Next(c, w, step), x)
  {
  }

  lemma StepLeavesNothing(c: Config, w: World, step: Step, x: Id)
    requires Inv(c, w, x) && Enabled(c, w, step) && step != Restart && step != Strand(x) && NothingLeft(w, x)
    ensures NothingLeft(Next(c, w, step), x)
  {
    hide Inv;
    if CreateStep(step) {
      CreateLeavesNothing(c, w, step, x);
    } else if TrackedStep(step) {
      TrackedLeavesNothing(c, w, step, x);
    }
  }

  // With no pod or PVC left over of an id, no sweep of any run ever takes an object of its
  // session, tracked or in the making, until a restart or a stranding leaves something.
  lemma {:induction false} GraceProtects(c: Config, w: World, steps: seq<Step>, x: Id)
    requires Inv(c, w, x) && Safe(c, w, x) && NothingLeft(w, x)
    requires Restart !in steps && Strand(x) !in steps && c.maxLifetime > 0 && c.stoppedTTL > 0
    ensures !HarmsIn(c, w, steps, x)
    decreases |steps|
  {
    hide Inv, Safe, Harms, Enabled, Next, NothingLeft;
    if steps != [] && Enabled(c, w, steps[0]) {
      var w1 := Next(c, w, steps[0]);
      assert steps[0] in steps && forall step | step in steps[1..] :: step in steps;
      SafeIsHarmless(c, w, steps[0], x);
      StepKeepsInv(c, w, steps[0], x);
      StepLeavesNothing(c, w, steps[0], x);
      if steps[0] == SweepBegin {
        NothingLeftIsSafe(c, w, x);
      } else {
        StepKeepsSafe(c, w, steps[0], x);
      }
      GraceProtects(c, w1, steps[1..], x);
    }
  }

  lemma NothingLeftIsSafe(c: Config, w: World, x: Id)
    requires Inv(c, w, x) && Enabled(c, w, SweepBegin) && NothingLeft(w, x)
    ensures Safe(c, Next(c, w, SweepBegin), x)
  {
    BeginIsSafe(c, w, x);
  }
}
