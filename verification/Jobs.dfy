// The table of background jobs (internal/exec/kubeexec.go). What the sandbox
// answers to a poll is a parameter; the table holds and returns jobs by value,
// as cloneJob makes it.
module Jobs {
  import opened Wrappers

  // `finishedAt` is None while the source's time is zero.
  datatype Job = Job(id: string, podName: string, running: bool, exitCode: int, startedAt: int, finishedAt: Option<int>)

  type Table = map<string, Job>

  // In seconds.
  const RETENTION := 15 * 60
  const HARD_TTL := 2 * 60 * 60

  // ---- Single calls ------------------------------------------------------------

  predicate Keep(j: Job, now: int) {
    && (j.finishedAt.Some? ==> now - j.finishedAt.value <= RETENTION)
    && now - j.startedAt <= HARD_TTL
  }

  function Kept(jobs: Table, now: int): Table { map id | id in jobs && Keep(jobs[id], now) :: jobs[id] }

  // What a poll learns: an exit code, a live process, a process gone without an
  // exit code, or nothing because a command failed.
  datatype Observation = Exited(code: int) | Alive | Gone | Failed

  function Polled(j: Job, seen: Observation, now: int): Job {
    match seen
    case Exited(code) =>
      j.(running := false, exitCode := code, finishedAt := if j.finishedAt.None? then Some(now) else j.finishedAt)
    case Alive => j.(running := true)
    case Gone => j.(running := false, finishedAt := if j.finishedAt.None? then Some(now) else j.finishedAt)
    case Failed => j
  }

  function Halted(j: Job, now: int): Job {
    j.(running := false, exitCode := 0, finishedAt := if j.finishedAt.None? then Some(now) else j.finishedAt)
  }

  function Lookup(jobs: Table, podName: string, id: string): Option<Job> {
    if id == "" || id !in jobs || (podName != "" && podName != jobs[id].podName) then None else Some(jobs[id])
  }

  // The job asked for is stored, and in the sandbox named, if one is named.
  predicate Names(jobs: Table, podName: string, id: string) {
    id != "" && id in jobs && (podName == "" || podName == jobs[id].podName)
  }

  // What was known of a job is kept: which it is, where it runs, since when, and when it
  // was first seen not to run; from now on it counts as finished, if it does not run.
  predicate Continues(was: Job, j: Job, now: int) {
    && j.id == was.id && j.podName == was.podName && j.startedAt == was.startedAt
    && j.finishedAt == (if j.running || was.finishedAt.Some? then was.finishedAt else Some(now))
  }

  class JobTable {
    var jobs: Table

    constructor ()
      ensures jobs == map[]
    {
      jobs := map[];
    }

    method ReapJobs(now: int)
      modifies this
      ensures jobs == Kept(old(jobs), now)
    {
      var todo := jobs.Keys;
      while todo != {}
        invariant todo <= old(jobs).Keys
        invariant jobs == map id | id in old(jobs) && (id in todo || Keep(old(jobs)[id], now)) :: old(jobs)[id]
      {
        var id :| id in todo;
        var j := jobs[id];
        if j.finishedAt.Some? && now - j.finishedAt.value > RETENTION {
          jobs := jobs - {id};
        } else if now - j.startedAt > HARD_TTL {
          jobs := jobs - {id};
        }
        todo := todo - {id};
      }
    }

    // Reaps, then remembers the job the launcher started.
    method StartJob(id: string, podName: string, launched: bool, now: int) returns (j: Option<Job>)
      modifies this
      ensures j == if launched then Some(Job(id, podName, true, 0, now, None)) else None
      ensures jobs == if launched then Kept(old(jobs), now)[id := j.value] else old(jobs)
    {
      if !launched { return None; }
      var job := Job(id, podName, true, 0, now, None);
      ReapJobs(now);
      jobs := jobs[id := job];
      return Some(job);
    }

    method PollJob(podName: string, id: string, seen: Observation, now: int) returns (j: Option<Job>)
      modifies this
      ensures j.Some? <==> Names(old(jobs), podName, id) && seen != Failed
      ensures j.None? ==> jobs == old(jobs)
      ensures j.Some? ==> jobs == old(jobs)[old(jobs)[id].id := j.value]
      ensures j.Some? ==> Continues(old(jobs)[id], j.value, now) && j.value.running == (seen == Alive)
      ensures j.Some? ==> j.value.exitCode == if seen.Exited? then seen.code else old(jobs)[id].exitCode
      ensures j.Some? ==> j.value == Polled(old(jobs)[id], seen, now)
    {
      var found := Lookup(jobs, podName, id);
      if found.None? || seen == Failed { return None; }
      var job := found.value;
      match seen {
        case Exited(code) =>
          job := job.(running := false, exitCode := code);
          if job.finishedAt.None? { job := job.(finishedAt := Some(now)); }
        case Alive =>
          job := job.(running := true);
        case Gone =>
          job := job.(running := false);
          if job.finishedAt.None? { job := job.(finishedAt := Some(now)); }
        case Failed =>
      }
      jobs := jobs[job.id := job];
      return Some(job);
    }

    // Without a job id the sandbox's processes are interrupted and no job is touched.
    method StopJob(podName: string, id: string, killed: bool, now: int) returns (ok: bool)
      modifies this
      ensures ok <==> id == "" || (Names(old(jobs), podName, id) && killed)
      ensures !ok || id == "" ==> jobs == old(jobs)
      ensures ok && id != "" ==> id in jobs && jobs == old(jobs)[id := jobs[id]]
      ensures ok && id != "" ==> Continues(old(jobs)[id], jobs[id], now) && !jobs[id].running && jobs[id].exitCode == 0
      ensures ok && id != "" ==> jobs[id] == Halted(old(jobs)[id], now)
    {
      if id == "" { return true; }
      if Lookup(jobs, podName, id).None? || !killed { return false; }
      var stored := jobs[id];
      stored := stored.(running := false, exitCode := 0);
      if stored.finishedAt.None? { stored := stored.(finishedAt := Some(now)); }
      jobs := jobs[id := stored];
      return true;
    }
  }

  // ---- Interleaved calls ----------------------------------------------------------

  type Tid = nat

  // `polls` holds the copies that polls under way took at their lookup.
  datatype World = World(jobs: Table, polls: map<Tid, Job>, now: int)

  datatype Step =
    | Start(id: string, podName: string)
    | PollLookup(t: Tid, podName: string, jobId: string)
    | PollWrite(t: Tid, seen: Observation)
    | StopWrite(jobId: string)
    | Tick(later: int)

  ghost predicate Enabled(w: World, step: Step) {
    match step
    case PollLookup(t, _, _) => t !in w.polls
    case PollWrite(t, _) => t in w.polls
    case Tick(later) => later >= w.now
    case _ => true
  }

  ghost function Next(w: World, step: Step): World
    requires Enabled(w, step)
  {
    match step
    case Start(id, podName) => w.(jobs := Kept(w.jobs, w.now)[id := Job(id, podName, true, 0, w.now, None)])
    case PollLookup(t, podName, id) =>
      var found := Lookup(w.jobs, podName, id);
      if found.None? then w else w.(polls := w.polls[t := found.value])
    case PollWrite(t, seen) =>
      var polls := w.polls - {t};
      if seen == Failed then w.(polls := polls)
      else World(w.jobs[w.polls[t].id := Polled(w.polls[t], seen, w.now)], polls, w.now)
    case StopWrite(id) => if id in w.jobs then w.(jobs := w.jobs[id := Halted(w.jobs[id], w.now)]) else w
    case Tick(later) => w.(now := later)
  }

  // A job that is not running has a finish time; a job sits under its own id; and
  // no time lies ahead of the clock.
  ghost predicate JobOk(j: Job, now: int) {
    && (!j.running ==> j.finishedAt.Some?)
    && j.startedAt <= now && (j.finishedAt.Some? ==> j.startedAt <= j.finishedAt.value <= now)
  }

  ghost predicate Inv(w: World) {
    && (forall id | id in w.jobs :: w.jobs[id].id == id && JobOk(w.jobs[id], w.now))
    && (forall t | t in w.polls :: JobOk(w.polls[t], w.now))
  }

  lemma StepKeepsInv(w: World, step: Step)
    requires Inv(w) && Enabled(w, step)
    ensures Inv(Next(w, step)) && w.now <= Next(w, step).now
  {
  }

  ghost predicate IsRun(w: World, steps: seq<Step>)
    decreases |steps|
  {
    steps == [] || (Enabled(w, steps[0]) && IsRun(Next(w, steps[0]), steps[1..]))
  }

  ghost function After(w: World, steps: seq<Step>): World
    requires IsRun(w, steps)
    decreases |steps|
  {
    if steps == [] then w else After(Next(w, steps[0]), steps[1..])
  }

  // However polls, stops and starts interleave, a stored job that is not running
  // has a finish time, between its start and now.
  lemma {:induction false} StoppedJobsHaveFinished(w: World, steps: seq<Step>)
    requires Inv(w) && IsRun(w, steps)
    ensures Inv(After(w, steps))
    decreases |steps|
  {
    hide Inv, Enabled;
    if steps != [] {
      StepKeepsInv(w, steps[0]);
      StoppedJobsHaveFinished(Next(w, steps[0]), steps[1..]);
    }
  }

  // ---- Finish times -----------------------------------------------------------------

  // Whatever the table or a poll under way knows about `id` carries finish time `f`.
  ghost predicate Settled(w: World, id: string, f: Option<int>) {
    && (id in w.jobs ==> w.jobs[id].finishedAt == f)
    && (forall t | t in w.polls && w.polls[t].id == id :: w.polls[t].finishedAt == f)
  }

  ghost predicate NeverRestarted(steps: seq<Step>, id: string) {
    forall step | step in steps :: !(step.Start? && step.id == id)
  }

  // Once set, and once no poll under way still holds an older copy, a finish time
  // never changes again: new polls, stops, reaps and re-insertions included.
  lemma {:induction false} FinishTimeIsFinal(w: World, steps: seq<Step>, id: string, at: int)
    requires Inv(w) && IsRun(w, steps) && NeverRestarted(steps, id) && Settled(w, id, Some(at))
    ensures Settled(After(w, steps), id, Some(at))
    decreases |steps|
  {
    if steps != [] {
      assert steps[0] in steps && forall step | step in steps[1..] :: step in steps;
      StepKeepsInv(w, steps[0]);
      FinishTimeIsFinal(Next(w, steps[0]), steps[1..], id, at);
    }
  }

  ghost predicate Forgotten(w: World, id: string) {
    id !in w.jobs && forall t | t in w.polls :: w.polls[t].id != id
  }

  // A job that is neither stored nor being polled never comes back.
  lemma {:induction false} ForgottenStays(w: World, steps: seq<Step>, id: string)
    requires Inv(w) && IsRun(w, steps) && NeverRestarted(steps, id) && Forgotten(w, id)
    ensures Forgotten(After(w, steps), id)
    decreases |steps|
  {
    if steps != [] {
      assert steps[0] in steps && forall step | step in steps[1..] :: step in steps;
      StepKeepsInv(w, steps[0]);
      ForgottenStays(Next(w, steps[0]), steps[1..], id);
    }
  }

  // ---- Which jobs are remembered ---------------------------------------------------------

  // The job is stored, and neither the table nor a poll under way knows of a finish
  // before `since`.
  ghost predicate Remembered(w: World, id: string, startedAt: int, since: int) {
    && id in w.jobs && w.jobs[id].startedAt == startedAt
    && (w.jobs[id].finishedAt.Some? ==> w.jobs[id].finishedAt.value >= since)
    && forall t | t in w.polls && w.polls[t].id == id ::
      w.polls[t].startedAt == startedAt && (w.polls[t].finishedAt.Some? ==> w.polls[t].finishedAt.value >= since)
  }

  lemma {:induction false} ClockAdvances(w: World, steps: seq<Step>)
    requires IsRun(w, steps)
    ensures w.now <= After(w, steps).now
    decreases |steps|
  {
    if steps != [] { ClockAdvances(Next(w, steps[0]), steps[1..]); }
  }

  // No job is evicted early: until two hours have passed since its start and a quarter of
  // an hour since `since`, it stays in the table, whatever starts, polls and
  // stops run in between.
  lemma {:induction false} JobIsRemembered(w: World, steps: seq<Step>, id: string, startedAt: int, since: int)
    requires Inv(w) && IsRun(w, steps) && NeverRestarted(steps, id) && Remembered(w, id, startedAt, since)
    requires since <= w.now
    requires After(w, steps).now <= startedAt + 2 * 60 * 60 && After(w, steps).now <= since + 15 * 60
    ensures Remembered(After(w, steps), id, startedAt, since)
    decreases |steps|
  {
    if steps != [] {
      assert steps[0] in steps && forall step | step in steps[1..] :: step in steps;
      StepKeepsInv(w, steps[0]);
      ClockAdvances(w, steps);
      JobIsRemembered(Next(w, steps[0]), steps[1..], id, startedAt, since);
    }
  }

  // And none is kept late: once either limit has passed and no poll holds a copy, the
  // next start of another job evicts it for good; before that the start leaves it.
  lemma StartEvictsExactly(w: World, other: string, podName: string, steps: seq<Step>, id: string)
    requires Inv(w) && id in w.jobs && other != id && (forall t | t in w.polls :: w.polls[t].id != id)
    requires var w1 := Next(w, Start(other, podName)); IsRun(w1, steps) && NeverRestarted(steps, id)
    ensures var w1 := Next(w, Start(other, podName));
      var overdue := w.now > w.jobs[id].startedAt + 2 * 60 * 60
                     || (w.jobs[id].finishedAt.Some? && w.now > w.jobs[id].finishedAt.value + 15 * 60);
      if overdue then id !in After(w1, steps).jobs else id in w1.jobs && w1.jobs[id] == w.jobs[id]
  {
    var w1 := Next(w, Start(other, podName));
    StepKeepsInv(w, Start(other, podName));
    if id !in w1.jobs { ForgottenStays(w1, steps, id); }
  }

  // ---- Exit codes ------------------------------------------------------------------------

  // What a write-back makes of the job it wrote: a code only if one was seen, running only
  // if a live process was, and nothing else changed.
  lemma PolledReads(j: Job, seen: Observation, now: int)
    requires seen != Failed
    ensures Continues(j, Polled(j, seen, now), now) && Polled(j, seen, now).running == (seen == Alive)
    ensures Polled(j, seen, now).exitCode == if seen.Exited? then seen.code else j.exitCode
  {
  }

  // The table, or a poll under way, has this exit code for the job.
  ghost predicate Claims(w: World, id: string, code: int) {
    || (id in w.jobs && w.jobs[id].exitCode == code)
    || (exists t :: t in w.polls && w.polls[t].id == id && w.polls[t].exitCode == code)
  }

  // A poll of this job finds this exit code.
  ghost predicate Sees(w: World, step: Step, id: string, code: int) {
    step.PollWrite? && step.t in w.polls && w.polls[step.t].id == id && step.seen == Exited(code)
  }

  ghost predicate SeenIn(w: World, steps: seq<Step>, id: string, code: int)
    requires IsRun(w, steps)
    decreases |steps|
  {
    steps != [] && (Sees(w, steps[0], id, code) || SeenIn(Next(w, steps[0]), steps[1..], id, code))
  }

  lemma NewClaimIsSeen(w: World, step: Step, id: string, code: int)
    requires Inv(w) && Enabled(w, step) && code != 0 && Claims(Next(w, step), id, code)
    ensures Claims(w, id, code) || Sees(w, step, id, code)
  {
    var w' := Next(w, step);
    if step.PollLookup? && step.t in w'.polls && step.t !in w.polls {
      assert w'.polls[step.t] == w.jobs[step.jobId];
    }
    if step.PollWrite? && step.seen != Failed { PolledReads(w.polls[step.t], step.seen, w.now); }
  }

  // An exit code other than zero is never made up: it was known before, or some poll of
  // that very job found it.
  lemma {:induction false} ExitCodeWasSeen(w: World, steps: seq<Step>, id: string, code: int)
    requires Inv(w) && IsRun(w, steps) && code != 0 && Claims(After(w, steps), id, code)
    ensures Claims(w, id, code) || SeenIn(w, steps, id, code)
    decreases |steps|
  {
    hide Inv, Enabled, Claims, Sees;
    if steps != [] {
      StepKeepsInv(w, steps[0]);
      ExitCodeWasSeen(Next(w, steps[0]), steps[1..], id, code);
      if Claims(Next(w, steps[0]), id, code) { NewClaimIsSeen(w, steps[0], id, code); }
    }
  }

  // From an empty table on, then, every stored code but zero was found by a poll.
  lemma StoredExitCodeWasSeen(now: int, steps: seq<Step>, id: string)
    requires IsRun(World(map[], map[], now), steps) && id in After(World(map[], map[], now), steps).jobs
    requires After(World(map[], map[], now), steps).jobs[id].exitCode != 0
    ensures SeenIn(World(map[], map[], now), steps, id, After(World(map[], map[], now), steps).jobs[id].exitCode)
  {
    hide SeenIn, After, IsRun;
    var w := World(map[], map[], now);
    ExitCodeWasSeen(w, steps, id, After(w, steps).jobs[id].exitCode);
  }

  // The steps that store another code for a job: its stop, a start under the same id, and
  // the write-back of a poll that found another code, or looked the job up with another
  // code and found none.
  ghost predicate Recodes(w: World, step: Step, id: string, code: int) {
    match step
    case Start(x, _) => x == id && code != 0
    case StopWrite(x) => x == id && id in w.jobs && code != 0
    case PollWrite(t, seen) =>
      t in w.polls && w.polls[t].id == id && seen != Failed
      && (if seen.Exited? then seen.code else w.polls[t].exitCode) != code
    case _ => false
  }

  // Such a step, and no other, leaves the job stored with another code.
  lemma RecodesExactly(w: World, step: Step, id: string)
    requires Inv(w) && Enabled(w, step) && id in w.jobs
    ensures var code := w.jobs[id].exitCode;
      Recodes(w, step, id, code) <==> id in Next(w, step).jobs && Next(w, step).jobs[id].exitCode != code
  {
    if step.PollWrite? && step.seen != Failed { PolledReads(w.polls[step.t], step.seen, w.now); }
  }

  ghost predicate NeverRecoded(w: World, steps: seq<Step>, id: string, code: int)
    requires IsRun(w, steps)
    decreases |steps|
  {
    steps == [] || (!Recodes(w, steps[0], id, code) && NeverRecoded(Next(w, steps[0]), steps[1..], id, code))
  }

  // The job, if it is stored, has this code.
  ghost predicate Coded(w: World, id: string, code: int) { id in w.jobs ==> w.jobs[id].exitCode == code }

  lemma StepKeepsCode(w: World, step: Step, id: string, code: int)
    requires Inv(w) && Enabled(w, step) && Coded(w, id, code) && !Recodes(w, step, id, code)
    ensures Coded(Next(w, step), id, code)
  {
    if step.PollWrite? && step.seen != Failed { PolledReads(w.polls[step.t], step.seen, w.now); }
  }

  lemma {:induction false} CodeStays(w: World, steps: seq<Step>, id: string, code: int)
    requires Inv(w) && IsRun(w, steps) && Coded(w, id, code) && NeverRecoded(w, steps, id, code)
    ensures Coded(After(w, steps), id, code)
    decreases |steps|
  {
    hide Inv, Enabled, Coded, Recodes;
    if steps != [] {
      StepKeepsInv(w, steps[0]);
      StepKeepsCode(w, steps[0], id, code);
      CodeStays(Next(w, steps[0]), steps[1..], id, code);
    }
  }

  // A code a poll found is stored, with the job no longer running, and stays for as long as
  // the job is stored, in every run without such a step.
  lemma SeenCodeStays(w: World, t: Tid, code: int, steps: seq<Step>)
    requires Inv(w) && t in w.polls
    requires var w1 := Next(w, PollWrite(t, Exited(code)));
      IsRun(w1, steps) && NeverRecoded(w1, steps, w.polls[t].id, code)
    ensures var id := w.polls[t].id; var w1 := Next(w, PollWrite(t, Exited(code)));
      && id in w1.jobs && w1.jobs[id].exitCode == code && !w1.jobs[id].running
      && Coded(After(w1, steps), id, code)
  {
    hide NeverRecoded, IsRun, After;
    StepKeepsInv(w, PollWrite(t, Exited(code)));
    PolledReads(w.polls[t], Exited(code), w.now);
    CodeStays(Next(w, PollWrite(t, Exited(code))), steps, w.polls[t].id, code);
  }

  // ---- Lost updates ----------------------------------------------------------------------

  // The condition on polls under way is exact: a write-back keeps a finish time set
  // at an earlier instant if and only if the poll's copy already carried it.
  lemma WriteBackKeepsFinishTime(w: World, t: Tid, seen: Observation)
    requires Inv(w) && t in w.polls && seen != Failed && w.polls[t].id in w.jobs
    requires w.jobs[w.polls[t].id].finishedAt.Some? && w.jobs[w.polls[t].id].finishedAt.value < w.now
    ensures var id := w.polls[t].id;
      && (Next(w, PollWrite(t, seen)).jobs[id].finishedAt == w.jobs[id].finishedAt
          <==> w.polls[t].finishedAt == w.jobs[id].finishedAt)
  {
  }

  // A run from an empty table in which the stop of a job is lost: a poll looked the
  // job up before the stop and wrote it back after, running and unfinished.
  lemma StopCanBeLost(id: string, podName: string)
    requires id != ""
    ensures var steps := [Start(id, podName), PollLookup(0, podName, id), StopWrite(id), PollWrite(0, Alive)];
      IsRun(World(map[], map[], 0), steps)
          && After(World(map[], map[], 0), steps).jobs == map[id := Job(id, podName, true, 0, 0, None)]
  {
    var w0 := World(map[], map[], 0);
    var steps := [Start(id, podName), PollLookup(0, podName, id), StopWrite(id), PollWrite(0, Alive)];
    var w1 := Next(w0, steps[0]);
    var w2 := Next(w1, steps[1]);
    var w3 := Next(w2, steps[2]);
    var w4 := Next(w3, steps[3]);
    assert steps[1..][1..] == steps[2..] && steps[2..][1..] == steps[3..] && steps[3..][1..] == [];
    assert w1.jobs == map[id := Job(id, podName, true, 0, 0, None)];
    assert IsRun(w3, steps[3..]) && After(w3, steps[3..]) == w4;
    assert IsRun(w2, steps[2..]) && After(w2, steps[2..]) == w4;
    assert IsRun(w1, steps[1..]) && After(w1, steps[1..]) == w4;
  }
}
