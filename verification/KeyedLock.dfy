// The per-session lock of get-or-create and clear (internal/manager/manager.go),
// one atomic step at a time, with unlocked operations interleaved at will.
module KeyedLock {
  import opened Wrappers
  import opened Identifiers
  import opened Lifecycle

  type Tid = nat
  type Mutex = nat

  datatype Op = EnsureOp | ClearOp

  datatype Pc =
    | WantsMap                    // before keyedMu.Lock
    | HoldsMap                    // keyedMu held, entry not looked up yet
    | FoundLock(mu: Mutex)        // keyedMu still held, the entry's mutex known
    | WantsLock(mu: Mutex)        // keyedMu released, before mu.Lock
    | HoldsLock(mu: Mutex)        // before store.Get
    | HasRecord(mu: Mutex)        // store.Get found the record
    | NoRecord(mu: Mutex)         // not found, or just forgotten: may create
    | Created(mu: Mutex)          // store.Create succeeded
    | Leaving(mu: Mutex)          // before mu.Unlock

  datatype Thread = Thread(op: Op, id: string, pc: Pc)

  datatype World = World(
    keyed: map<string, Mutex>, nextMutex: nat, mapHolder: Option<Tid>, holders: map<Mutex, Tid>,
    store: map<string, State>, threads: map<Tid, Thread>,
    collided: bool)  // a store.Create on the locked path met a record

  datatype Step =
    | Enter(t: Tid, op: Op, id: string)
    | TakeMap(t: Tid)
    | Lookup(t: Tid)
    | ReleaseMap(t: Tid)
    | Lock(t: Tid)
    | Get(t: Tid, cancelled: bool)
    | Write(t: Tid, to: State)    // the resume inside get-or-create
    | ForgetRecord(t: Tid)
    | Quit(t: Tid)                // return the record, or give up before creating
    | Insert(t: Tid)
    | WriteBack(t: Tid, to: State)
    | Unlock(t: Tid)
    | Unlocked(id: string, to: State)  // stop, resume, delete, reaper: update only
    | RestInsert(id: string)           // REST create under a random id

  ghost predicate Enabled(w: World, step: Step) {
    match step
    case Enter(t, _, id) => t !in w.threads && |LastPart(id)| == 10
    case TakeMap(t) => t in w.threads && w.threads[t].pc.WantsMap? && w.mapHolder == None
    case Lookup(t) => t in w.threads && w.threads[t].pc.HoldsMap?
    case ReleaseMap(t) => t in w.threads && w.threads[t].pc.FoundLock?
    case Lock(t) => t in w.threads && w.threads[t].pc.WantsLock? && w.threads[t].pc.mu !in w.holders
    case Get(t, _) => t in w.threads && w.threads[t].pc.HoldsLock?
    case Write(t, _) => t in w.threads && w.threads[t].pc.HasRecord? && w.threads[t].op == EnsureOp
    case ForgetRecord(t) => t in w.threads && w.threads[t].pc.HasRecord?
    case Quit(t) => t in w.threads && (w.threads[t].pc.HasRecord? || w.threads[t].pc.NoRecord?)
    case Insert(t) => t in w.threads && w.threads[t].pc.NoRecord?
    case WriteBack(t, _) => t in w.threads && w.threads[t].pc.Created?
    case Unlock(t) => t in w.threads && w.threads[t].pc.Leaving?
    case Unlocked(_, _) => true
    case RestInsert(id) => IsRandomId(id)
  }

  function Moved(w: World, t: Tid, pc: Pc): map<Tid, Thread>
    requires t in w.threads
  { w.threads[t := w.threads[t].(pc := pc)] }

  // Update replaces and never inserts.
  function Updated(store: map<string, State>, id: string, to: State): map<string, State> {
    if id in store then store[id := to] else store
  }

  ghost function Next(w: World, step: Step): World
    requires Enabled(w, step)
  {
    match step
    case Enter(t, op, id) => w.(threads := w.threads[t := Thread(op, id, WantsMap)])
    case TakeMap(t) => w.(mapHolder := Some(t), threads := Moved(w, t, HoldsMap))
    case Lookup(t) =>
      var id := w.threads[t].id;
      if id in w.keyed then w.(threads := Moved(w, t, FoundLock(w.keyed[id])))
      else w.(keyed := w.keyed[id := w.nextMutex], nextMutex := w.nextMutex + 1,
          threads := Moved(w, t, FoundLock(w.nextMutex)))
    case ReleaseMap(t) => w.(mapHolder := None, threads := Moved(w, t, WantsLock(w.threads[t].pc.mu)))
    case Lock(t) => w.(holders := w.holders[w.threads[t].pc.mu := t],
        threads := Moved(w, t, HoldsLock(w.threads[t].pc.mu)))
    case Get(t, cancelled) =>
      var th := w.threads[t];
      var pc := if cancelled then Leaving(th.pc.mu)
                else if th.id in w.store then HasRecord(th.pc.mu)
                else if th.op == EnsureOp then NoRecord(th.pc.mu)
                else Leaving(th.pc.mu);
      w.(threads := Moved(w, t, pc))
    case Write(t, to) => w.(store := Updated(w.store, w.threads[t].id, to))
    case ForgetRecord(t) =>
      var th := w.threads[t];
      w.(store := w.store - {th.id},
          threads := Moved(w, t, if th.op == EnsureOp then NoRecord(th.pc.mu) else Leaving(th.pc.mu)))
    case Quit(t) => w.(threads := Moved(w, t, Leaving(w.threads[t].pc.mu)))
    case Insert(t) =>
      var th := w.threads[t];
      if th.id in w.store then w.(collided := true, threads := Moved(w, t, Leaving(th.pc.mu)))
      else w.(store := w.store[th.id := Creating], threads := Moved(w, t, Created(th.pc.mu)))
    case WriteBack(t, to) => w.(store := Updated(w.store, w.threads[t].id, to),
        threads := Moved(w, t, Leaving(w.threads[t].pc.mu)))
    case Unlock(t) => w.(holders := w.holders - {w.threads[t].pc.mu}, threads := w.threads - {t})
    case Unlocked(id, to) => w.(store := Updated(w.store, id, to))
    case RestInsert(id) => if id in w.store then w else w.(store := w.store[id := Creating])
  }

  // ---- The invariant ---------------------------------------------------------------

  // Between mu.Lock and mu.Unlock.
  predicate Inside(pc: Pc) { pc.HoldsLock? || pc.HasRecord? || pc.NoRecord? || pc.Created? || pc.Leaving? }

  ghost predicate ThreadOk(w: World, t: Tid)
    requires t in w.threads
  {
    var th := w.threads[t];
    && |LastPart(th.id)| == 10
    && (th.pc.HoldsMap? || th.pc.FoundLock? <==> w.mapHolder == Some(t))
    && (!th.pc.WantsMap? && !th.pc.HoldsMap? ==> th.id in w.keyed && w.keyed[th.id] == th.pc.mu)
    && (Inside(th.pc) ==> th.pc.mu in w.holders && w.holders[th.pc.mu] == t)
    && (th.pc.NoRecord? ==> th.id !in w.store)
  }

  ghost predicate Inv(w: World) {
    && (forall t | t in w.threads :: ThreadOk(w, t))
    && (forall id | id in w.keyed :: w.keyed[id] < w.nextMutex)
    && (w.mapHolder.Some? ==> w.mapHolder.value in w.threads)
    && (forall mu | mu in w.holders :: HolderOk(w, mu))
    && !w.collided
  }

  // At most one thread per session id is between its store.Get and its end.
  lemma Exclusion(w: World, t: Tid, u: Tid)
    requires Inv(w) && t in w.threads && u in w.threads && w.threads[t].id == w.threads[u].id
    requires Inside(w.threads[t].pc) && Inside(w.threads[u].pc)
    ensures t == u
  {
    assert ThreadOk(w, t) && ThreadOk(w, u);
  }

  // An entry, once set, never changes.
  lemma EntriesAreStable(w: World, step: Step)
    requires Enabled(w, step)
    ensures forall id | id in w.keyed :: id in Next(w, step).keyed && Next(w, step).keyed[id] == w.keyed[id]
  {
  }

  lemma RandomIsNotCanonical(random: string, id: string)
    requires IsRandomId(random) && |LastPart(id)| == 10
    ensures random != id
  {
    RandomNamespace(random);
  }

  // Only the thread itself, inside, can create its session's record.
  lemma AbsenceIsStable(w: World, step: Step, t: Tid)
    requires Inv(w) && Enabled(w, step) && t in w.threads && w.threads[t].pc.NoRecord?
    ensures w.threads[t].id !in Next(w, step).store || (step.Insert? && step.t == t)
  {
    hide LastPart, IsRandomId;
    assert ThreadOk(w, t);
    if step.Insert? && step.t != t {
      assert ThreadOk(w, step.t);
    } else if step.RestInsert? {
      RandomIsNotCanonical(step.id, w.threads[t].id);
    }
  }

  // The thread that takes a step, if one does.
  predicate Acts(step: Step, t: Tid) { !step.Unlocked? && !step.RestInsert? && step.t == t }

  lemma ActorStaysOk(w: World, step: Step, t: Tid)
    requires Inv(w) && Enabled(w, step) && Acts(step, t) && t in w.threads && t in Next(w, step).threads
    ensures ThreadOk(Next(w, step), t)
  {
    hide LastPart, IsRandomId, Inv;
    InvThread(w, t);
  }

  lemma BystanderStaysOk(w: World, step: Step, t: Tid)
    requires Inv(w) && Enabled(w, step) && !Acts(step, t) && t in w.threads
    ensures ThreadOk(Next(w, step), t)
  {
    hide LastPart, IsRandomId, Inv;
    InvThread(w, t);
    if w.threads[t].pc.NoRecord? { AbsenceIsStable(w, step, t); }
    if step.TakeMap? || step.ReleaseMap? || step.Lookup? || step.Unlock? { InvThread(w, step.t); }
  }

  lemma StepKeepsThread(w: World, step: Step, t: Tid)
    requires Inv(w) && Enabled(w, step) && t in Next(w, step).threads
    ensures ThreadOk(Next(w, step), t)
  {
    hide LastPart, IsRandomId, Inv;
    if t !in w.threads {
      InvHolder(w);
    } else if Acts(step, t) {
      ActorStaysOk(w, step, t);
    } else {
      BystanderStaysOk(w, step, t);
    }
  }

  lemma InvThread(w: World, t: Tid)
    requires Inv(w) && t in w.threads
    ensures ThreadOk(w, t)
  {
  }

  lemma InvHolder(w: World)
    requires Inv(w)
    ensures w.mapHolder.Some? ==> w.mapHolder.value in w.threads
  {
  }

  ghost predicate HolderOk(w: World, mu: Mutex)
    requires mu in w.holders
  {
    w.holders[mu] in w.threads && Inside(w.threads[w.holders[mu]].pc) && w.threads[w.holders[mu]].pc.mu == mu
  }

  lemma StepKeepsHolders(w: World, step: Step, mu: Mutex)
    requires Inv(w) && Enabled(w, step) && mu in Next(w, step).holders
    ensures HolderOk(Next(w, step), mu)
  {
    hide LastPart, IsRandomId, Inv, ThreadOk;
    if mu in w.holders { InvMutex(w, mu); }
    if step.Unlock? { LeaverHoldsItsLock(w, step.t); }
  }

  lemma InvMutex(w: World, mu: Mutex)
    requires Inv(w) && mu in w.holders
    ensures HolderOk(w, mu)
  {
  }

  lemma LeaverHoldsItsLock(w: World, t: Tid)
    requires Inv(w) && t in w.threads && w.threads[t].pc.Leaving?
    ensures w.threads[t].pc.mu in w.holders && w.holders[w.threads[t].pc.mu] == t
  {
    assert ThreadOk(w, t);
  }

  lemma StepKeepsInv(w: World, step: Step)
    requires Inv(w) && Enabled(w, step)
    ensures Inv(Next(w, step))
  {
    hide LastPart, IsRandomId, ThreadOk, HolderOk;
    var w' := Next(w, step);
    forall t | t in w'.threads ensures ThreadOk(w', t) { StepKeepsThread(w, step, t); }
    forall mu | mu in w'.holders ensures HolderOk(w', mu) { StepKeepsHolders(w, step, mu); }
    if step.Insert? { InsertIsClean(w, step.t); }
    if step.Unlock? { LeaverHoldsNoMap(w, step.t); }
  }

  lemma LeaverHoldsNoMap(w: World, t: Tid)
    requires Inv(w) && t in w.threads && w.threads[t].pc.Leaving?
    ensures w.mapHolder != Some(t)
  {
    assert ThreadOk(w, t);
  }

  lemma InsertIsClean(w: World, t: Tid)
    requires Inv(w) && Enabled(w, Insert(t))
    ensures w.threads[t].id !in w.store
  {
    assert ThreadOk(w, t);
  }

  // ---- Every interleaving ------------------------------------------------------------

  ghost predicate IsRun(w: World, steps: seq<Step>)
    decreases |steps|
  {
    steps == [] || (Enabled(w, steps[0]) && IsRun(Next(w, steps[0]), steps[1..]))
  }

  ghost function After(w: World, steps: seq<Step>): World
    requires IsRun(w, steps)
    decreases |steps|
  {
    if steps == [] then w else After(Next(w, steps[0]), steps[1..])
  }

  const START: World := World(map[], 0, None, map[], map[], map[], false)

  lemma {:induction false} RunKeepsInv(w: World, steps: seq<Step>)
    requires Inv(w) && IsRun(w, steps)
    ensures Inv(After(w, steps))
    decreases |steps|
  {
    hide Inv, Enabled, Next;
    if steps != [] {
      StepKeepsInv(w, steps[0]);
      RunKeepsInv(Next(w, steps[0]), steps[1..]);
    }
  }

  ghost predicate BothInside(w: World, t: Tid, u: Tid) {
    && t in w.threads && u in w.threads && Inside(w.threads[t].pc) && Inside(w.threads[u].pc)
    && w.threads[t].id == w.threads[u].id
  }

  // In every interleaving: no store.Create of a locked get-or-create ever met an
  // existing record, and two threads are never inside for one session.
  lemma LockedCreateNeverCollides(steps: seq<Step>)
    requires IsRun(START, steps)
    ensures var w := After(START, steps);
      && !w.collided
      && forall t, u | BothInside(w, t, u) :: t == u
  {
    RunKeepsInv(START, steps);
    var w := After(START, steps);
    forall t, u | BothInside(w, t, u)
      ensures t == u
    {
      Exclusion(w, t, u);
    }
  }

  // ---- No deadlock ---------------------------------------------------------------------

  ghost predicate CanMove(w: World, t: Tid) {
    || Enabled(w, TakeMap(t)) || Enabled(w, Lookup(t)) || Enabled(w, ReleaseMap(t)) || Enabled(w, Lock(t))
    || Enabled(w, Get(t, false)) || Enabled(w, Quit(t)) || Enabled(w, WriteBack(t, Running)) || Enabled(w, Unlock(t))
  }

  // A thread that does not wait for a lock someone holds.
  lemma FreeThreadMoves(w: World, t: Tid)
    requires t in w.threads && (w.threads[t].pc.WantsMap? ==> w.mapHolder == None)
    requires w.threads[t].pc.WantsLock? ==> w.threads[t].pc.mu !in w.holders
    ensures CanMove(w, t)
  {
  }

  // As long as a thread is under way, some thread can take its next step: the
  // two locks are never waited for in a circle.
  lemma SomeoneCanMove(w: World, t: Tid)
    requires Inv(w) && t in w.threads
    ensures exists u :: u in w.threads && CanMove(w, u)
  {
    hide LastPart, IsRandomId, Inv, CanMove;
    InvThread(w, t);
    InvHolder(w);
    if w.mapHolder.Some? {
      var u := w.mapHolder.value;
      InvThread(w, u);
      FreeThreadMoves(w, u);
    } else if w.threads[t].pc.WantsLock? && w.threads[t].pc.mu in w.holders {
      InvMutex(w, w.threads[t].pc.mu);
      FreeThreadMoves(w, w.holders[w.threads[t].pc.mu]);
    } else {
      FreeThreadMoves(w, t);
    }
  }
}
