// The running cap under interleaving (internal/manager/manager.go, Create). The
// check reads the running and the creating sessions separately and the session
// is recorded much later, so concurrent creates can overshoot the cap; this
// bounds by how much, and shows the bound is reached.
module RunningCap {
  import opened Lifecycle

  type Tid = nat

  // Where a create in flight stands. `running` is the count its first read saw.
  datatype Phase =
    | Begun
    | SawRunning(running: nat)
    | Admitted
    | Recorded(id: string)

  datatype World = World(store: map<string, State>, threads: map<Tid, Phase>)

  function IdsWith(w: World, st: State): set<string> { set id | id in w.store && w.store[id] == st }

  function Count(w: World, st: State): nat { |IdsWith(w, st)| }

  // One atomic step. Reads and writes of the store are atomic; other operations
  // may at any time stop, kill or forget any recorded session, but nothing other
  // than a create makes one running (no resume takes part).
  datatype Step =
    | Begin(t: Tid)
    | ReadRunning(t: Tid)
    | ReadCreating(t: Tid)
    | Abandon(t: Tid)             // proxy or platform refused
    | Persist(t: Tid, id: string)
    | Finish(t: Tid)              // ready: write running
    | Fail(t: Tid)                // not ready: write dead
    | Retire(id: string, to: State)
    | Forget(id: string)

  ghost predicate Enabled(k: nat, w: World, step: Step) {
    match step
    case Begin(t) => t !in w.threads && |w.threads| < k
    case ReadRunning(t) => t in w.threads && w.threads[t] == Begun
    case ReadCreating(t) => t in w.threads && w.threads[t].SawRunning?
    case Abandon(t) => t in w.threads && w.threads[t] == Admitted
    case Persist(t, _) => t in w.threads && w.threads[t] == Admitted
    case Finish(t) => t in w.threads && w.threads[t].Recorded?
    case Fail(t) => t in w.threads && w.threads[t].Recorded?
    case Retire(_, to) => to in {Stopped, Dead}
    case Forget(_) => true
  }

  // Update replaces a record and never inserts one.
  function Updated(store: map<string, State>, id: string, st: State): map<string, State> {
    if id in store then store[id := st] else store
  }

  ghost function Next(max: int, k: nat, w: World, step: Step): World
    requires Enabled(k, w, step)
  {
    match step
    case Begin(t) => w.(threads := w.threads[t := Begun])
    case ReadRunning(t) => w.(threads := w.threads[t := SawRunning(Count(w, Running))])
    case ReadCreating(t) =>
      if w.threads[t].running + Count(w, Creating) >= max then w.(threads := w.threads - {t})
      else w.(threads := w.threads[t := Admitted])
    case Abandon(t) => w.(threads := w.threads - {t})
    case Persist(t, id) =>
      if id == "" || id in w.store then w.(threads := w.threads - {t})
      else World(w.store[id := Creating], w.threads[t := Recorded(id)])
    case Finish(t) => World(Updated(w.store, w.threads[t].id, Running), w.threads - {t})
    case Fail(t) => World(Updated(w.store, w.threads[t].id, Dead), w.threads - {t})
    case Retire(id, to) => w.(store := Updated(w.store, id, to))
    case Forget(id) => w.(store := w.store - {id})
  }

  // ---- The invariant ------------------------------------------------------------

  // Creates whose first read was below the cap.
  ghost predicate Low(max: int, p: Phase) { p.Admitted? || p.Recorded? || (p.SawRunning? && p.running < max) }

  ghost function Below(max: int, w: World): set<Tid> { set t | t in w.threads && Low(max, w.threads[t]) }

  // A creating record belongs to a create in flight.
  ghost predicate Backed(w: World) {
    forall id | id in w.store && w.store[id] == Creating :: exists t :: t in w.threads && w.threads[t] == Recorded(id)
  }

  ghost predicate Inv(max: int, k: nat, w: World) {
    && |w.threads| <= k && Backed(w)
    && Count(w, Running) + |Below(max, w)| <= max - 1 + k
  }

  lemma Subset<T>(a: set<T>, b: set<T>)
    requires a <= b
    ensures |a| <= |b|
  {
    assert b == a + (b - a);
  }

  // Distinct creating records have distinct creates behind them.
  lemma {:induction false} InFlightCovers(w: World, ids: set<string>, tids: set<Tid>)
    requires forall id | id in ids :: exists t :: t in tids && t in w.threads && w.threads[t] == Recorded(id)
    ensures |ids| <= |tids|
    decreases |ids|
  {
    if ids != {} {
      var id :| id in ids;
      var t :| t in tids && t in w.threads && w.threads[t] == Recorded(id);
      forall x | x in ids - {id} ensures exists u :: u in tids - {t} && u in w.threads && w.threads[u] == Recorded(x) {
        var u :| u in tids && u in w.threads && w.threads[u] == Recorded(x);
        assert u in tids - {t};
      }
      InFlightCovers(w, ids - {id}, tids - {t});
    }
  }

  lemma CreatingIsBelow(max: int, w: World)
    requires Backed(w)
    ensures Count(w, Creating) <= |Below(max, w)|
  {
    forall id | id in IdsWith(w, Creating)
      ensures exists t :: t in Below(max, w) && t in w.threads && w.threads[t] == Recorded(id)
    {
      var t :| t in w.threads && w.threads[t] == Recorded(id);
      assert t in Below(max, w);
    }
    InFlightCovers(w, IdsWith(w, Creating), Below(max, w));
  }

  lemma StepKeepsBacked(max: int, k: nat, w: World, step: Step)
    requires Inv(max, k, w) && Enabled(k, w, step)
    ensures Backed(Next(max, k, w, step))
  {
    var w' := Next(max, k, w, step);
    forall id | id in w'.store && w'.store[id] == Creating
      ensures exists t :: t in w'.threads && w'.threads[t] == Recorded(id)
    {
      if step.Persist? && step.id == id && id !in w.store {
        assert w'.threads[step.t] == Recorded(id);
      } else {
        var t :| t in w.threads && w.threads[t] == Recorded(id);
        assert w'.threads[t] == Recorded(id);
      }
    }
  }

  lemma StepKeepsThreads(max: int, k: nat, w: World, step: Step)
    requires |w.threads| <= k && Enabled(k, w, step)
    ensures |Next(max, k, w, step).threads| <= k
  {
    var w' := Next(max, k, w, step);
    if step.Begin? {
      assert w'.threads.Keys == w.threads.Keys + {step.t};
    } else {
      assert w'.threads.Keys <= w.threads.Keys;
      Subset(w'.threads.Keys, w.threads.Keys);
    }
  }

  // Running sessions plus low creates: a first read below the cap restarts the
  // count, every later step trades one for the other or loses one.
  lemma StepKeepsCount(max: int, k: nat, w: World, step: Step)
    requires Inv(max, k, w) && Enabled(k, w, step)
    ensures var w' := Next(max, k, w, step); Count(w', Running) + |Below(max, w')| <= max - 1 + k
  {
    var w' := Next(max, k, w, step);
    var run, run' := IdsWith(w, Running), IdsWith(w', Running);
    var low, low' := Below(max, w), Below(max, w');
    match step
    case ReadRunning(t) =>
      assert run' == run;
      StepKeepsThreads(max, k, w, step);
      if |run| < max {
        Subset(low', w'.threads.Keys);
      } else {
        assert low' == low;
      }
    case Finish(t) =>
      assert t in low && low' == low - {t};
      assert run' <= run + {w.threads[t].id};
      Subset(run', run + {w.threads[t].id});
    case _ =>
      assert run' <= run;
      assert low' <= low;
      Subset(run', run);
      Subset(low', low);
  }

  lemma StepKeepsInv(max: int, k: nat, w: World, step: Step)
    requires Inv(max, k, w) && Enabled(k, w, step)
    ensures Inv(max, k, Next(max, k, w, step))
  {
    StepKeepsThreads(max, k, w, step);
    StepKeepsBacked(max, k, w, step);
    StepKeepsCount(max, k, w, step);
  }

  // ---- The bound in every interleaving --------------------------------------------

  ghost predicate IsRun(max: int, k: nat, w: World, steps: seq<Step>)
    decreases |steps|
  {
    steps == [] || (Enabled(k, w, steps[0]) && IsRun(max, k, Next(max, k, w, steps[0]), steps[1..]))
  }

  ghost function After(max: int, k: nat, w: World, steps: seq<Step>): World
    requires IsRun(max, k, w, steps)
    decreases |steps|
  {
    if steps == [] then w else After(max, k, Next(max, k, w, steps[0]), steps[1..])
  }

  // With at most k creates in flight, creating plus running never exceeds the cap
  // by more than k - 1. One at a time, it never exceeds the cap.
  lemma {:induction false} CapHolds(max: int, k: nat, w: World, steps: seq<Step>)
    requires Inv(max, k, w) && IsRun(max, k, w, steps)
    ensures var w' := After(max, k, w, steps);
      Inv(max, k, w') && Count(w', Running) + Count(w', Creating) <= max - 1 + k
    decreases |steps|
  {
    hide Inv, Enabled, Next;
    if steps == [] {
      BoundHere(max, k, w);
    } else {
      StepKeepsInv(max, k, w, steps[0]);
      CapHolds(max, k, Next(max, k, w, steps[0]), steps[1..]);
    }
  }

  lemma BoundHere(max: int, k: nat, w: World)
    requires Inv(max, k, w)
    ensures Count(w, Running) + Count(w, Creating) <= max - 1 + k
  {
    CreatingIsBelow(max, w);
  }

  const EMPTY: World := World(map[], map[])

  // Without room or without creates nothing is ever admitted.
  ghost predicate Idle(w: World) {
    && (forall t | t in w.threads :: w.threads[t].Begun? || w.threads[t].SawRunning?)
    && (forall id | id in w.store :: w.store[id] in {Stopped, Dead})
  }

  lemma {:induction false} NothingIsAdmitted(max: int, k: nat, w: World, steps: seq<Step>)
    requires max <= 0 || k == 0
    requires Idle(w) && |w.threads| <= k && IsRun(max, k, w, steps)
    ensures Idle(After(max, k, w, steps))
    decreases |steps|
  {
    if steps != [] {
      StepKeepsThreads(max, k, w, steps[0]);
      NothingIsAdmitted(max, k, Next(max, k, w, steps[0]), steps[1..]);
    }
  }

  // From an empty store, for every cap the configuration can name: with at most k
  // creates in flight the sessions never exceed the cap by more than k - 1, and there
  // are none at all under a cap of zero or below.
  lemma CapHoldsFromStart(max: int, k: nat, steps: seq<Step>)
    requires IsRun(max, k, EMPTY, steps)
    ensures var w := After(max, k, EMPTY, steps);
      Count(w, Running) + Count(w, Creating) <= if max > 0 && k > 0 then max + k - 1 else 0
  {
    assert IdsWith(EMPTY, Running) == {} && Below(max, EMPTY) == {};
    if max > 0 && k > 0 {
      CapHolds(max, k, EMPTY, steps);
    } else {
      NothingIsAdmitted(max, k, EMPTY, steps);
      var w := After(max, k, EMPTY, steps);
      assert IdsWith(w, Running) == {} && IdsWith(w, Creating) == {};
    }
  }

  // ---- The bound is reached ---------------------------------------------------------

  ghost predicate Reaches(max: int, k: nat, w: World) {
    exists steps :: IsRun(max, k, EMPTY, steps) && After(max, k, EMPTY, steps) == w
  }

  lemma {:induction false} RunExtends(max: int, k: nat, w: World, steps: seq<Step>, last: Step)
    requires IsRun(max, k, w, steps) && Enabled(k, After(max, k, w, steps), last)
    ensures IsRun(max, k, w, steps + [last])
    ensures After(max, k, w, steps + [last]) == Next(max, k, After(max, k, w, steps), last)
    decreases |steps|
  {
    hide Enabled, Next;
    var all := steps + [last];
    if steps == [] {
      assert all[1..] == [];
    } else {
      assert all[0] == steps[0] && all[1..] == steps[1..] + [last];
      RunExtends(max, k, Next(max, k, w, steps[0]), steps[1..], last);
    }
  }

  lemma ReachStep(max: int, k: nat, w: World, step: Step)
    requires Reaches(max, k, w) && Enabled(k, w, step)
    ensures Reaches(max, k, Next(max, k, w, step))
  {
    var steps :| IsRun(max, k, EMPTY, steps) && After(max, k, EMPTY, steps) == w;
    RunExtends(max, k, EMPTY, steps, step);
  }

  // The id of the n-th session.
  function Name(n: nat): (id: string)
    ensures |id| == n + 1
  { seq(n + 1, _ => 'c') }

  // Exactly the first n sessions are running, exactly the next m are creating.
  ghost predicate Filled(w: World, n: nat, m: nat) {
    && IdsWith(w, Running) == (set i | 0 <= i < n :: Name(i))
    && IdsWith(w, Creating) == (set i | n <= i < n + m :: Name(i))
    && (forall i: nat | i >= n + m :: Name(i) !in w.store)
  }

  lemma {:induction false} NamesCount(lo: nat, n: nat)
    ensures |set i | lo <= i < lo + n :: Name(i)| == n
  {
    var ids := set i | lo <= i < lo + n :: Name(i);
    if n == 0 {
      assert ids == {};
    } else {
      NamesCount(lo, n - 1);
      var fewer := set i | lo <= i < lo + (n - 1) :: Name(i);
      assert ids == fewer + {Name(lo + n - 1)};
    }
  }

  lemma FilledCounts(w: World, n: nat, m: nat)
    requires Filled(w, n, m)
    ensures Count(w, Running) == n && Count(w, Creating) == m
  {
    NamesCount(0, n);
    assert (set i | 0 <= i < n :: Name(i)) == set i | 0 <= i < 0 + n :: Name(i);
    NamesCount(n, m);
  }

  // One create after another fills the cap but for one place.
  lemma {:induction false} FillReaches(max: nat, k: nat, n: nat) returns (w: World)
    requires n < max && k > 0
    ensures Reaches(max, k, w) && w.threads == map[] && Filled(w, n, 0)
  {
    if n == 0 {
      w := EMPTY;
      assert IsRun(max, k, EMPTY, []) && After(max, k, EMPTY, []) == EMPTY;
    } else {
      var w0 := FillReaches(max, k, n - 1);
      var w1 := Admit(max, k, w0, 0, n - 1);
      w := Complete(max, k, w1, Name(n - 1));
      assert IdsWith(w, Running) == IdsWith(w0, Running) + {Name(n - 1)};
      assert IdsWith(w, Creating) == IdsWith(w0, Creating);
    }
  }

  // The only create in flight records its session and finds it ready.
  lemma Complete(max: nat, k: nat, w: World, id: string) returns (w': World)
    requires Reaches(max, k, w) && w.threads == map[0 := Admitted] && id != "" && id !in w.store
    ensures Reaches(max, k, w') && w'.threads == map[] && w'.store == w.store[id := Running]
  {
    var w1 := Next(max, k, w, Persist(0, id));
    ReachStep(max, k, w, Persist(0, id));
    w' := Next(max, k, w1, Finish(0));
    ReachStep(max, k, w1, Finish(0));
    assert w'.threads == map[];
  }

  // A new create reads both counts and is admitted.
  lemma Admit(max: nat, k: nat, w: World, t: Tid, n: nat) returns (w': World)
    requires Reaches(max, k, w) && Filled(w, n, 0) && n < max && t !in w.threads && |w.threads| < k
    ensures Reaches(max, k, w') && w'.store == w.store && w'.threads == w.threads[t := Admitted]
  {
    FilledCounts(w, n, 0);
    var w1 := Next(max, k, w, Begin(t));
    ReachStep(max, k, w, Begin(t));
    assert IdsWith(w1, Running) == IdsWith(w, Running);
    var w2 := Next(max, k, w1, ReadRunning(t));
    ReachStep(max, k, w1, ReadRunning(t));
    assert IdsWith(w2, Creating) == IdsWith(w, Creating);
    w' := Next(max, k, w2, ReadCreating(t));
    ReachStep(max, k, w2, ReadCreating(t));
    assert w'.threads == w.threads[t := Admitted];
  }

  function Tids(n: nat): (ts: set<Tid>)
    ensures |ts| == n && forall t: Tid :: t in ts <==> t < n
  {
    if n == 0 then {} else Tids(n - 1) + {n - 1}
  }

  // j creates are admitted before any of them records.
  lemma {:induction false} QueueReaches(max: nat, k: nat, j: nat) returns (w: World)
    requires max > 0 && 0 < k && j <= k
    ensures Reaches(max, k, w) && Filled(w, max - 1, 0) && w.threads.Keys == Tids(j)
    ensures forall t | t in w.threads :: w.threads[t] == Admitted
  {
    if j == 0 {
      w := FillReaches(max, k, max - 1);
    } else {
      var w0 := QueueReaches(max, k, j - 1);
      w := Admit(max, k, w0, j - 1, max - 1);
    }
  }

  lemma OneMoreCreating(w: World, w': World, n: nat, m: nat)
    requires Filled(w, n, m) && w'.store == w.store[Name(n + m) := Creating]
    ensures Filled(w', n, m + 1)
  {
    assert Name(n + m) !in w.store;
    assert IdsWith(w', Running) == IdsWith(w, Running);
    assert IdsWith(w', Creating) == IdsWith(w, Creating) + {Name(n + m)};
    assert IdsWith(w', Creating) == set i | n <= i < n + (m + 1) :: Name(i);
  }

  // ... and then j of the k record, one after another.
  lemma {:induction false} OvershootReaches(max: nat, k: nat, j: nat) returns (w: World)
    requires max > 0 && 0 < k && j <= k
    ensures Reaches(max, k, w) && Filled(w, max - 1, j) && w.threads.Keys == Tids(k)
    ensures forall t | j <= t < k :: w.threads[t] == Admitted
  {
    hide Filled, Reaches;
    if j == 0 {
      w := QueueReaches(max, k, k);
    } else {
      var w0 := OvershootReaches(max, k, j - 1);
      var step := Persist(j - 1, Name(max - 1 + (j - 1)));
      NextIsUnused(w0, max - 1, j - 1);
      ReachStep(max, k, w0, step);
      w := Next(max, k, w0, step);
      OneMoreCreating(w0, w, max - 1, j - 1);
    }
  }

  lemma NextIsUnused(w: World, n: nat, m: nat)
    requires Filled(w, n, m)
    ensures Name(n + m) !in w.store
  {
  }

  // The bound is tight: with k creates in flight some interleaving reaches it.
  lemma CapIsReached(max: nat, k: nat)
    requires max > 0 && k > 0
    ensures exists w :: Reaches(max, k, w) && Count(w, Running) + Count(w, Creating) == max + k - 1
  {
    var w := OvershootReaches(max, k, k);
    FilledCounts(w, max - 1, k);
  }
}
