// The warm pool under interleaving (internal/pool/pool.go): any number of
// replenishers and acquirers, each critical section of the pool's mutex one step.
module PoolProtocol {
  import opened Wrappers

  type Tid = nat
  type Handle = nat  // handles in the order the platform made them

  datatype Phase =
    | Creating                     // slot reserved, rt.Create under way
    | Waiting(h: Handle)           // sandbox made, waiting for readiness
    | Ready(h: Handle)             // before finishWarming with the handle
    | Purged                       // before finishWarming with none

  datatype World = World(
    target: int, idle: seq<Handle>, warming: nat, workers: map<Tid, Phase>,
    made: nat,                     // handles 0 .. made - 1 exist
    handed: seq<Handle>,           // given to callers, in order
    queued: seq<Handle>,           // appended to idle, in order
    purged: set<Handle>, dropped: set<Handle>)

  datatype Step =
    | Reserve(t: Tid)
    | Made(t: Tid)
    | NotMade(t: Tid)
    | BecomesReady(t: Tid)
    | NotReady(t: Tid)
    | Finish(t: Tid)
    | Acquire

  ghost predicate Enabled(w: World, step: Step) {
    match step
    case Reserve(t) => t !in w.workers && w.target > 0 && |w.idle| + w.warming < w.target
    case Made(t) => t in w.workers && w.workers[t] == Creating
    case NotMade(t) => t in w.workers && w.workers[t] == Creating
    case BecomesReady(t) => t in w.workers && w.workers[t].Waiting?
    case NotReady(t) => t in w.workers && w.workers[t].Waiting?
    case Finish(t) => t in w.workers && (w.workers[t].Ready? || w.workers[t].Purged?)
    case Acquire => w.idle != []
  }

  // finishWarming: give the slot back; keep the handle if there is room.
  function FinishWarming(w: World, t: Tid, h: Option<Handle>): World {
    var w1 := w.(warming := if w.warming > 0 then w.warming - 1 else 0, workers := w.workers - {t});
    if h.None? then w1
    else if |w1.idle| < w1.target then w1.(idle := w1.idle + [h.value], queued := w1.queued + [h.value])
    else w1.(dropped := w1.dropped + {h.value})
  }

  ghost function Next(w: World, step: Step): World
    requires Enabled(w, step)
  {
    match step
    case Reserve(t) => w.(warming := w.warming + 1, workers := w.workers[t := Creating])
    case Made(t) => w.(workers := w.workers[t := Waiting(w.made)], made := w.made + 1)
    case NotMade(t) => w.(workers := w.workers[t := Purged])
    case BecomesReady(t) => w.(workers := w.workers[t := Ready(w.workers[t].h)])
    case NotReady(t) => w.(workers := w.workers[t := Purged], purged := w.purged + {w.workers[t].h})
    case Finish(t) => FinishWarming(w, t, if w.workers[t].Ready? then Some(w.workers[t].h) else None)
    case Acquire => w.(idle := w.idle[1..], handed := w.handed + [w.idle[0]])
  }

  // ---- Conservation ------------------------------------------------------------------

  ghost predicate Carries(w: World, t: Tid, h: Handle) {
    t in w.workers && (w.workers[t].Waiting? || w.workers[t].Ready?) && w.workers[t].h == h
  }

  ghost predicate InFlight(w: World, h: Handle) { exists t :: Carries(w, t, h) }

  ghost predicate NoRepeat(s: seq<Handle>) { forall i, j | 0 <= i < j < |s| :: s[i] != s[j] }

  // Slots: idle plus warming within the target, one worker per warming slot, and
  // nothing dropped.
  ghost predicate SlotsOk(w: World) {
    && w.warming == |w.workers| && w.dropped == {}
    && (if w.target > 0 then |w.idle| + w.warming <= w.target else w.idle == [] && w.warming == 0)
  }

  // Callers got the front of the queue, in the order the handles joined it.
  ghost predicate QueueOk(w: World) { w.queued == w.handed + w.idle && NoRepeat(w.queued) }

  // Exactly one of: in flight in one worker, in the queue, purged.
  ghost predicate HandleOk(w: World, h: Handle) {
    && (h < w.made <==> InFlight(w, h) || h in w.queued || h in w.purged)
    && !(InFlight(w, h) && h in w.queued) && !(InFlight(w, h) && h in w.purged) && !(h in w.queued && h in w.purged)
    && (forall t, u | Carries(w, t, h) && Carries(w, u, h) :: t == u)
  }

  ghost predicate Inv(w: World) { SlotsOk(w) && QueueOk(w) && forall h :: HandleOk(w, h) }

  lemma SlotsStep(w: World, step: Step)
    requires SlotsOk(w) && Enabled(w, step)
    ensures SlotsOk(Next(w, step))
  {
    var w' := Next(w, step);
    match step
    case Reserve(t) => assert w'.workers.Keys == w.workers.Keys + {t};
    case Finish(t) =>
      assert w'.workers.Keys == w.workers.Keys - {t};
    case Acquire =>
    case _ => assert w'.workers.Keys == w.workers.Keys;
  }

  // The worker whose handle leaves the air in this step, if any.
  ghost predicate Lands(w: World, step: Step, h: Handle) {
    || (step.NotReady? && Carries(w, step.t, h))
    || (step.Finish? && Carries(w, step.t, h))
  }

  lemma CarriesAfter(w: World, step: Step, t: Tid, h: Handle)
    requires Enabled(w, step)
    ensures Carries(Next(w, step), t, h) <==>
      (Carries(w, t, h) && !(step.NotReady? && step.t == t) && !(step.Finish? && step.t == t))
          || (step == Made(t) && h == w.made)
  {
  }

  lemma InFlightAfter(w: World, step: Step, h: Handle)
    requires HandleOk(w, h) && Enabled(w, step)
    ensures InFlight(Next(w, step), h) <==> (InFlight(w, h) && !Lands(w, step, h)) || (step.Made? && h == w.made)
  {
    var w' := Next(w, step);
    if InFlight(w', h) {
      var t :| Carries(w', t, h);
      CarriesAfter(w, step, t, h);
    }
    if InFlight(w, h) && !Lands(w, step, h) {
      var t :| Carries(w, t, h);
      CarriesAfter(w, step, t, h);
    }
    if step.Made? && h == w.made {
      CarriesAfter(w, step, step.t, h);
    }
  }

  lemma HandleStep(w: World, step: Step, h: Handle)
    requires SlotsOk(w) && QueueOk(w) && HandleOk(w, h) && Enabled(w, step)
    ensures HandleOk(Next(w, step), h)
  {
    var w' := Next(w, step);
    InFlightAfter(w, step, h);
    forall t, u | Carries(w', t, h) && Carries(w', u, h) ensures t == u {
      CarriesAfter(w, step, t, h);
      CarriesAfter(w, step, u, h);
    }
    SlotsStep(w, step);
    if step.Finish? && w.workers[step.t].Ready? {
      HasRoom(w, step.t);
      assert w'.queued == w.queued + [w.workers[step.t].h];
      assert Carries(w, step.t, w.workers[step.t].h);
    } else if step.NotReady? {
      assert Carries(w, step.t, w.workers[step.t].h);
    }
  }

  // A worker's own slot leaves room for its handle.
  lemma HasRoom(w: World, t: Tid)
    requires SlotsOk(w) && t in w.workers
    ensures |w.idle| < w.target && w.warming > 0
  {
    assert |w.workers.Keys - {t}| == |w.workers.Keys| - 1;
  }

  lemma QueueStep(w: World, step: Step)
    requires Inv(w) && Enabled(w, step)
    ensures QueueOk(Next(w, step))
  {
    var w' := Next(w, step);
    if step.Finish? && w.workers[step.t].Ready? {
      var h := w.workers[step.t].h;
      assert Carries(w, step.t, h) && HandleOk(w, h);
      assert h !in w.queued;
      assert w'.queued == w.handed + (w.idle + [h]);
    } else if step.Acquire? {
      assert w'.handed + w'.idle == w.handed + w.idle;
    }
  }

  lemma StepKeepsInv(w: World, step: Step)
    requires Inv(w) && Enabled(w, step)
    ensures Inv(Next(w, step))
  {
    SlotsStep(w, step);
    QueueStep(w, step);
    forall h ensures HandleOk(Next(w, step), h) { HandleStep(w, step, h); }
  }

  // ---- Every interleaving ----------------------------------------------------------

  ghost predicate IsRun(w: World, steps: seq<Step>)
    decreases |steps|
  {
    steps == [] || (Enabled(w, steps[0]) && IsRun(Next(w, steps[0]), steps[1..]))
  }

  ghost function After(w: World, steps: seq<Step>): World
    requires IsRun(w, steps)
    decreases |steps|
  {
    if steps == [] then w else After(Next(w, steps[0]), steps[1..])
  }

  function Start(target: int): World { World(target, [], 0, map[], 0, [], [], {}, {}) }

  lemma {:induction false} RunKeepsInv(w: World, steps: seq<Step>)
    requires Inv(w) && IsRun(w, steps)
    ensures Inv(After(w, steps)) && After(w, steps).target == w.target
    decreases |steps|
  {
    hide Inv, Enabled;
    if steps != [] {
      StepKeepsInv(w, steps[0]);
      RunKeepsInv(Next(w, steps[0]), steps[1..]);
    }
  }

  // The number of places a handle is in.
  ghost function Places(w: World, h: Handle): nat {
    (if InFlight(w, h) then 1 else 0) + (if h in w.idle then 1 else 0) + (if h in w.handed then 1 else 0)
        + (if h in w.purged then 1 else 0)
  }

  // In every interleaving idle plus warming stays within the target, warming is
  // the number of creations under way, every handle ever made is in exactly one
  // of four places and in none twice, nothing is dropped, and handles are handed
  // out in the order they became idle.
  lemma PoolConserves(target: int, steps: seq<Step>)
    requires IsRun(Start(target), steps)
    ensures var w := After(Start(target), steps);
      && |w.idle| + w.warming <= (if target > 0 then target else 0) && w.warming == |w.workers|
      && (forall h: Handle :: Places(w, h) == if h < w.made then 1 else 0)
      && w.dropped == {} && w.handed <= w.queued && NoRepeat(w.handed + w.idle)
  {
    StartIsOk(target);
    RunKeepsInv(Start(target), steps);
    var w := After(Start(target), steps);
    forall h: Handle ensures Places(w, h) == if h < w.made then 1 else 0 {
      assert HandleOk(w, h);
      forall i, j | 0 <= i < |w.handed| && 0 <= j < |w.idle| ensures w.handed[i] != w.idle[j] {
        assert w.queued[i] == w.handed[i] && w.queued[|w.handed| + j] == w.idle[j];
      }
    }
  }

  lemma StartIsOk(target: int)
    ensures Inv(Start(target))
  {
    forall h ensures HandleOk(Start(target), h) {
      forall t ensures !Carries(Start(target), t, h) { }
    }
  }

  // The guard of finishWarming that would discard a ready handle never bites.
  lemma RoomForEveryHandle(target: int, steps: seq<Step>, t: Tid)
    requires IsRun(Start(target), steps) && Enabled(After(Start(target), steps), Finish(t))
    ensures var w := After(Start(target), steps); |w.idle| < w.target && w.warming > 0
  {
    StartIsOk(target);
    RunKeepsInv(Start(target), steps);
    HasRoom(After(Start(target), steps), t);
  }
}
