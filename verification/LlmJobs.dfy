/**
 Generation jobs as one write or repository call per step. live: the store hands out its own job
 object, so a worker's writes show at once; otherwise it hands out a copy and only Update shows.
 */
module LlmJobs {
  import opened Options

  type JobID = string
  type Creature = string

  datatype Status = Pending | Step1 | Step2 | Ready | Failed

  datatype Job = Job(status: Status, result: Option<Creature>)

  /** What the foreign calls of one worker return: generation, the two conversions, processing. */
  datatype Script = Script(generates: bool, encodes: bool, decodes: bool, processed: Option<Creature>)

  datatype Stage =
    | Begin
    | Fetched
    | WroteStep1 | SavedStep1
    | WroteError1
    | WroteStep2 | SavedStep2
    | WroteError2
    | WroteReady | WroteResult
    | Finished
    | Stopped

  /** held: the job the worker's pointer shows. */
  datatype Worker = Worker(stage: Stage, held: Job, script: Script)

  datatype Jobs = Jobs(stored: map<JobID, Job>, workers: map<JobID, Worker>)

  const NewJob: Job := Job(Pending, None)

  datatype Action =
    | Submit(id: JobID)
    | Spawn(id: JobID, script: Script)
    | Proceed(id: JobID)

  predicate FirstHalf(script: Script) {
    script.generates && script.encodes && script.decodes
  }

  /** A plain write through the worker's pointer. */
  function Write(live: bool, w: Worker, stored: Job, job: Job, stage: Stage): (Worker, Job) {
    (w.(held := job, stage := stage), if live then job else stored)
  }

  /** Update: copies what the worker holds into the stored job. */
  function Save(w: Worker, stage: Stage): (Worker, Job) {
    (w.(stage := stage), w.held)
  }

  /** One step of a worker whose job is in the store. */
  function Work(live: bool, w: Worker, stored: Job): (Worker, Job) {
    match w.stage
    case Begin => (w.(stage := Fetched, held := stored), stored)
    case Fetched => Write(live, w, stored, w.held.(status := Step1), WroteStep1)
    case WroteStep1 => Save(w, SavedStep1)
    case SavedStep1 =>
      if FirstHalf(w.script) then Write(live, w, stored, w.held.(status := Step2), WroteStep2)
      else Write(live, w, stored, w.held.(status := Failed), WroteError1)
    case WroteError1 => Save(w, Finished)
    case WroteStep2 => Save(w, SavedStep2)
    case SavedStep2 =>
      if w.script.processed.Some? then Write(live, w, stored, w.held.(status := Ready), WroteReady)
      else Write(live, w, stored, w.held.(status := Failed), WroteError2)
    case WroteError2 => Save(w, Finished)
    case WroteReady => Write(live, w, stored, w.held.(result := w.script.processed), WroteResult)
    case WroteResult => Save(w, Finished)
    case Finished => (w, stored)
    case Stopped => (w, stored)
  }

  /** A worker that does not find its job stops. */
  function Step(live: bool, s: Jobs, id: JobID): Jobs
    requires id in s.workers
  {
    if id !in s.stored then s.(workers := s.workers[id := s.workers[id].(stage := Stopped)])
    else
      var (w, job) := Work(live, s.workers[id], s.stored[id]);
      Jobs(s.stored[id := job], s.workers[id := w])
  }

  /** Each submission uses a new id and starts one worker. */
  function Next(live: bool, s: Jobs, a: Action): Jobs {
    match a
    case Submit(id) => if id in s.stored then s else s.(stored := s.stored[id := NewJob])
    case Spawn(id, script) =>
      if id !in s.stored || id in s.workers then s
      else s.(workers := s.workers[id := Worker(Begin, NewJob, script)])
    case Proceed(id) => if id in s.workers then Step(live, s, id) else s
  }

  function Run(live: bool, s: Jobs, actions: seq<Action>): Jobs {
    if actions == [] then s else Next(live, Run(live, s, actions[..|actions| - 1]), actions[|actions| - 1])
  }

  // ---- Where a job must stand ----

  /** The job a worker holds at each stage. */
  function Held(stage: Stage, script: Script): Job {
    match stage
    case Begin => NewJob
    case Fetched => NewJob
    case WroteStep1 => Job(Step1, None)
    case SavedStep1 => Job(Step1, None)
    case WroteError1 => Job(Failed, None)
    case WroteStep2 => Job(Step2, None)
    case SavedStep2 => Job(Step2, None)
    case WroteError2 => Job(Failed, None)
    case WroteReady => Job(Ready, None)
    case WroteResult => Job(Ready, script.processed)
    case Finished => Outcome(script)
    case Stopped => NewJob
  }

  /** The stored job at each stage. */
  function Shown(live: bool, stage: Stage, script: Script): Job {
    if live then Held(stage, script)
    else
      match stage
      case WroteStep1 => NewJob
      case WroteError1 => Job(Step1, None)
      case WroteStep2 => Job(Step1, None)
      case WroteError2 => Job(Step2, None)
      case WroteReady => Job(Step2, None)
      case WroteResult => Job(Step2, None)
      case _ => Held(stage, script)
  }

  /** What a worker leaves behind. */
  function Outcome(script: Script): Job {
    if FirstHalf(script) && script.processed.Some? then Job(Ready, script.processed) else Job(Failed, None)
  }

  predicate Reached(stage: Stage, script: Script) {
    && (stage.WroteError1? ==> !FirstHalf(script))
    && (stage.WroteStep2? || stage.SavedStep2? || stage.WroteError2? || stage.WroteReady? || stage.WroteResult? ==>
      FirstHalf(script))
    && (stage.WroteError2? ==> script.processed.None?)
    && (stage.WroteReady? || stage.WroteResult? ==> script.processed.Some?)
    && !stage.Stopped?
  }

  predicate InOrder(live: bool, s: Jobs) {
    && s.workers.Keys <= s.stored.Keys
    && (forall id | id in s.stored && id !in s.workers :: s.stored[id] == NewJob)
    && (forall id | id in s.workers :: WorkerInOrder(live, s.workers[id], s.stored[id]))
  }

  predicate WorkerInOrder(live: bool, w: Worker, stored: Job) {
    && Reached(w.stage, w.script)
    && w.held == Held(w.stage, w.script)
    && stored == Shown(live, w.stage, w.script)
  }

  /** The moves of the status. */
  predicate Edge(from: Job, to: Job) {
    || from == to
    || (from.status.Pending? && to == Job(Step1, None))
    || (from.status.Step1? && (to == Job(Failed, None) || to == Job(Step2, None)))
    || (from.status.Step2? && (to == Job(Failed, None) || to.status.Ready?))
    || (from == Job(Ready, None) && to.status.Ready?)
  }

  lemma WorkInOrder(live: bool, w: Worker, stored: Job)
    requires WorkerInOrder(live, w, stored)
    ensures
      var (w', stored') := Work(live, w, stored);
      WorkerInOrder(live, w', stored') && w'.script == w.script && Edge(stored, stored')
  {
  }

  /** n steps of a worker that runs alone. */
  function After(live: bool, w: Worker, stored: Job, n: nat): (Worker, Job) {
    if n == 0 then (w, stored)
    else
      var (w', stored') := After(live, w, stored, n - 1);
      Work(live, w', stored')
  }

  /** trail is what the stored job was after each of the steps that took w0 to w. */
  ghost predicate Along(live: bool, w0: Worker, was: Job, trail: seq<Job>, w: Worker, stored: Job) {
    && (forall i | 0 <= i < |trail| :: trail[i] == After(live, w0, was, i + 1).1)
    && After(live, w0, was, |trail|) == (w, stored)
  }

  lemma OneMore(script: Script, was: Job, trail: seq<Job>, from: Stage, before: Job, to: Stage, now: Job)
    requires Along(true, Worker(Begin, NewJob, script), was, trail, Worker(from, before, script), before)
    requires Work(true, Worker(from, before, script), before) == (Worker(to, now, script), now)
    ensures Along(true, Worker(Begin, NewJob, script), was, trail + [now], Worker(to, now, script), now)
  {
  }

  lemma FirstOne(script: Script, was: Job)
    ensures Along(true, Worker(Begin, NewJob, script), was, [was], Worker(Fetched, was, script), was)
  {
  }

  /** The trail of a worker whose job is shared with the store, from a stored job was. */
  ghost function Trail(script: Script, was: Job): seq<Job> {
    var first, second, failed := was.(status := Step1), was.(status := Step2), was.(status := Failed);
    if !FirstHalf(script) then [was, first, first, failed, failed]
    else if script.processed.None? then [was, first, first, second, second, failed, failed]
    else
      var done := Job(Ready, script.processed);
      [was, first, first, second, second, was.(status := Ready), done, done]
  }

  /** The trail is that of the worker's automaton, one entry per step, up to its end. */
  lemma TrailAlong(script: Script, was: Job)
    ensures
      var trail := Trail(script, was);
      var last := trail[|trail| - 1];
      Along(true, Worker(Begin, NewJob, script), was, trail, Worker(Finished, last, script), last)
  {
    var first, second, failed := was.(status := Step1), was.(status := Step2), was.(status := Failed);
    FirstOne(script, was);
    OneMore(script, was, [was], Fetched, was, WroteStep1, first);
    OneMore(script, was, [was, first], WroteStep1, first, SavedStep1, first);
    var start := [was, first, first];
    if !FirstHalf(script) {
      OneMore(script, was, start, SavedStep1, first, WroteError1, failed);
      OneMore(script, was, start + [failed], WroteError1, failed, Finished, failed);
      assert Trail(script, was) == start + [failed] + [failed];
    } else {
      OneMore(script, was, start, SavedStep1, first, WroteStep2, second);
      OneMore(script, was, start + [second], WroteStep2, second, SavedStep2, second);
      SecondHalf(script, was, start + [second] + [second], second);
    }
  }

  lemma SecondHalf(script: Script, was: Job, start: seq<Job>, second: Job)
    requires FirstHalf(script) && second == was.(status := Step2)
    requires start == [was, was.(status := Step1), was.(status := Step1), second, second]
    requires Along(true, Worker(Begin, NewJob, script), was, start, Worker(SavedStep2, second, script), second)
    ensures
      var trail := Trail(script, was);
      var last := trail[|trail| - 1];
      Along(true, Worker(Begin, NewJob, script), was, trail, Worker(Finished, last, script), last)
  {
    if script.processed.None? {
      var failed := was.(status := Failed);
      OneMore(script, was, start, SavedStep2, second, WroteError2, failed);
      OneMore(script, was, start + [failed], WroteError2, failed, Finished, failed);
      assert Trail(script, was) == start + [failed] + [failed];
    } else {
      var ready, done := was.(status := Ready), Job(Ready, script.processed);
      OneMore(script, was, start, SavedStep2, second, WroteReady, ready);
      OneMore(script, was, start + [ready], WroteReady, ready, WroteResult, done);
      OneMore(script, was, start + [ready] + [done], WroteResult, done, Finished, done);
      assert Trail(script, was) == start + [ready] + [done] + [done];
    }
  }

  function Progress(stage: Stage): nat {
    match stage
    case Begin => 0
    case Fetched => 1
    case WroteStep1 => 2
    case SavedStep1 => 3
    case WroteStep2 => 4
    case SavedStep2 => 5
    case WroteReady => 6
    case WroteError1 => 7
    case WroteError2 => 7
    case WroteResult => 7
    case Finished => 8
    case Stopped => 8
  }

  /** What a worker shows from its submission on: along the automaton, and finished within eight steps. */
  lemma {:induction false} AfterInOrder(live: bool, script: Script, n: nat)
    ensures
      var (w, stored) := After(live, Worker(Begin, NewJob, script), NewJob, n);
      && WorkerInOrder(live, w, stored) && w.script == script
      && (n > 0 ==> Edge(After(live, Worker(Begin, NewJob, script), NewJob, n - 1).1, stored))
      && Progress(w.stage) >= (if n < 8 then n else 8)
      && (n >= 8 ==> stored == Outcome(script))
  {
    if n > 0 {
      AfterInOrder(live, script, n - 1);
      var (w, stored) := After(live, Worker(Begin, NewJob, script), NewJob, n - 1);
      WorkInOrder(live, w, stored);
    }
  }

  lemma {:induction false} AlwaysInOrder(live: bool, actions: seq<Action>)
    ensures InOrder(live, Run(live, Jobs(map[], map[]), actions))
  {
    if actions != [] {
      var s, a := Run(live, Jobs(map[], map[]), actions[..|actions| - 1]), actions[|actions| - 1];
      AlwaysInOrder(live, actions[..|actions| - 1]);
      if a.Proceed? && a.id in s.workers {
        WorkInOrder(live, s.workers[a.id], s.stored[a.id]);
      }
    }
  }

  /** In every interleaving a job moves only along the automaton, and only by its own worker. */
  lemma JobAutomaton(live: bool, actions: seq<Action>, a: Action, id: JobID)
    requires id in Run(live, Jobs(map[], map[]), actions).stored
    ensures
      var s := Run(live, Jobs(map[], map[]), actions);
      var t := Next(live, s, a);
      && id in t.stored && Edge(s.stored[id], t.stored[id])
      && (t.stored[id] != s.stored[id] ==> a == Proceed(id))
      && (s.stored[id].result.Some? ==> s.stored[id].status.Ready?)
  {
    AlwaysInOrder(live, actions);
    var s := Run(live, Jobs(map[], map[]), actions);
    if a.Proceed? && a.id in s.workers {
      WorkInOrder(live, s.workers[a.id], s.stored[a.id]);
    }
    if id in s.workers {
      assert WorkerInOrder(live, s.workers[id], s.stored[id]);
    }
  }

  /** A finished worker leaves the same job whether the store hands out its object or a copy. */
  lemma SameOutcome(live: bool, actions: seq<Action>, live': bool, actions': seq<Action>, id: JobID)
    requires
      var s, t := Run(live, Jobs(map[], map[]), actions), Run(live', Jobs(map[], map[]), actions');
      && id in s.workers && id in t.workers && s.workers[id].script == t.workers[id].script
      && s.workers[id].stage.Finished? && t.workers[id].stage.Finished?
    ensures
      var s, t := Run(live, Jobs(map[], map[]), actions), Run(live', Jobs(map[], map[]), actions');
      && id in s.stored && id in t.stored && s.stored[id] == t.stored[id]
      && (s.stored[id].status.Ready? || s.stored[id].status.Failed?)
  {
    AlwaysInOrder(live, actions);
    AlwaysInOrder(live', actions');
    var s, t := Run(live, Jobs(map[], map[]), actions), Run(live', Jobs(map[], map[]), actions');
    assert WorkerInOrder(live, s.workers[id], s.stored[id]) && WorkerInOrder(live', t.workers[id], t.stored[id]);
  }

  // ---- Every spawned worker that keeps going ends its job ----

  function Proceeds(actions: seq<Action>, id: JobID): nat {
    if actions == [] then 0
    else Proceeds(actions[..|actions| - 1], id) + if actions[|actions| - 1] == Proceed(id) then 1 else 0
  }

  lemma {:induction false} RunOn(live: bool, s: Jobs, a: seq<Action>, b: seq<Action>)
    ensures Run(live, s, a + b) == Run(live, Run(live, s, a), b)
    decreases |b|
  {
    if b == [] {
      assert a + b == a;
    } else {
      RunOn(live, s, a, b[..|b| - 1]);
      assert (a + b)[..|a + b| - 1] == a + b[..|b| - 1];
    }
  }

  /** What id's worker does does not depend on the other actions of the run. */
  predicate Working(s: Jobs, id: JobID, script: Script, steps: nat) {
    && id in s.workers && id in s.stored && s.workers[id].script == script
    && Progress(s.workers[id].stage) >= (if steps < 8 then steps else 8)
  }

  lemma WorkProgresses(live: bool, w: Worker, stored: Job)
    requires WorkerInOrder(live, w, stored)
    ensures Progress(Work(live, w, stored).0.stage) >= (if Progress(w.stage) < 8 then Progress(w.stage) + 1 else 8)
  {
  }

  lemma NextWorking(live: bool, s: Jobs, a: Action, id: JobID, script: Script, steps: nat)
    requires InOrder(live, s) && Working(s, id, script, steps)
    ensures Working(Next(live, s, a), id, script, if a == Proceed(id) then steps + 1 else steps)
  {
    assert WorkerInOrder(live, s.workers[id], s.stored[id]);
    if a == Proceed(id) {
      WorkInOrder(live, s.workers[id], s.stored[id]);
      WorkProgresses(live, s.workers[id], s.stored[id]);
    }
  }

  lemma {:induction false} KeepsWorking(live: bool, before: seq<Action>, more: seq<Action>, id: JobID, script: Script)
    requires Working(Run(live, Jobs(map[], map[]), before), id, script, 0)
    ensures Working(Run(live, Jobs(map[], map[]), before + more), id, script, Proceeds(more, id))
    decreases |more|
  {
    if more == [] {
      assert before + more == before;
    } else {
      var front, a := more[..|more| - 1], more[|more| - 1];
      KeepsWorking(live, before, front, id, script);
      AlwaysInOrder(live, before + front);
      NextWorking(live, Run(live, Jobs(map[], map[]), before + front), a, id, script, Proceeds(front, id));
      assert before + more == (before + front) + [a];
      RunOn(live, Jobs(map[], map[]), before + front, [a]);
      assert [a][..0] == [];
    }
  }

  /**
   A job submitted under a new id, whose worker is started and takes eight steps among whatever else runs, is
   done with the processed creature if no foreign call failed, and otherwise in error without a result.
   */
  lemma JobEnds(live: bool, before: seq<Action>, more: seq<Action>, id: JobID, script: Script)
    requires id !in Run(live, Jobs(map[], map[]), before).stored && Proceeds(more, id) >= 8
    ensures
      var t := Run(live, Jobs(map[], map[]), before + [Submit(id), Spawn(id, script)] + more);
      id in t.stored && t.stored[id] ==
        if script.generates && script.encodes && script.decodes && script.processed.Some?
        then Job(Ready, script.processed)
        else Job(Failed, None)
  {
    var s0, start := Jobs(map[], map[]), before + [Submit(id), Spawn(id, script)];
    AlwaysInOrder(live, before);
    assert start[..|start| - 1] == before + [Submit(id)] && (before + [Submit(id)])[..|before|] == before;
    assert Working(Run(live, s0, start), id, script, 0);
    KeepsWorking(live, start, more, id, script);
    AlwaysInOrder(live, start + more);
    var t := Run(live, s0, start + more);
    assert WorkerInOrder(live, t.workers[id], t.stored[id]) && t.workers[id].stage.Finished?;
  }
}
