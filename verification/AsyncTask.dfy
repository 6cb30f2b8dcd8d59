/**
  The async task: one worker thread, spawned on demand, that serves a high and a low priority queue
  and hands a shelf of state from one job to the next, across worker generations.
 */
module AsyncTasks {
  import opened Prelude

  /** Shelved values by type. */
  type Shelf = map<int, int>

  type Effect = Shelf -> Shelf

  datatype Job = Job(id: int, effect: Effect)

  datatype State = Exiting | Working

  /** What the mutex protects. */
  datatype Shared = Shared(state: State, hi: seq<Job>, lo: seq<Job>, idle: seq<Effect>, shelf: Option<Shelf>)

  datatype Action = QueuedFn(job: Job) | IdleFns(fns: seq<Effect>)

  function Push(q: Shared, job: Job, high: bool): Shared {
    if high then q.(hi := q.hi + [job]) else q.(lo := q.lo + [job])
  }

  predicate NoJobs(q: Shared) {
    |q.hi| == 0 && |q.lo| == 0
  }

  datatype Decision = Perform(action: Action) | Again | Leave

  /** The worker's critical section: which action to perform next, if any. */
  function Decide(q: Shared, doneIdle: bool, timedOut: bool, shelf: Shelf): (Shared, Decision) {
    if !doneIdle && NoJobs(q) then (q, Perform(IdleFns(q.idle)))
    else if |q.hi| > 0 then (q.(hi := q.hi[1..]), Perform(QueuedFn(q.hi[0])))
    else if |q.lo| > 0 then (q.(lo := q.lo[1..]), Perform(QueuedFn(q.lo[0])))
    else if timedOut then (q.(shelf := Some(shelf), state := Exiting), Leave)
    else (q, Again)
  }

  /** Idle functions run in the order they were added. */
  function RunAll(fns: seq<Effect>, shelf: Shelf): Shelf {
    if |fns| == 0 then shelf else RunAll(fns[1..], fns[0](shelf))
  }

  function RunAction(a: Action, shelf: Shelf): Shelf {
    match a
    case QueuedFn(job) => job.effect(shelf)
    case IdleFns(fns) => RunAll(fns, shelf)
  }

  /** The shared state and its critical sections. */
  class AsyncTask {
    var state: State
    var hiPrioReq: seq<Job>
    var loPrioReq: seq<Job>
    var idleFns: seq<Effect>
    var shelf: Option<Shelf>

    ghost function Contents(): Shared
      reads this
    {
      Shared(state, hiPrioReq, loPrioReq, idleFns, shelf)
    }

    constructor ()
      ensures Contents() == Shared(Exiting, [], [], [], None)
    {
      state, hiPrioReq, loPrioReq, idleFns, shelf := Exiting, [], [], [], None;
    }

    /** Append the job; the caller must spawn a worker unless one is running. */
    method Queue(job: Job, high: bool) returns (mustSpawn: bool)
      modifies this`hiPrioReq, this`loPrioReq
      ensures Contents() == Push(old(Contents()), job, high)
      ensures mustSpawn == (state != Working)
    {
      if high {
        hiPrioReq := hiPrioReq + [job];
      } else {
        loPrioReq := loPrioReq + [job];
      }
      mustSpawn := state.Exiting?;
    }

    method AddIdle(f: Effect)
      modifies this`idleFns
      ensures Contents() == old(Contents()).(idle := old(idleFns) + [f])
    {
      idleFns := idleFns + [f];
    }

    /** A starting worker takes the shelf its predecessor left. */
    method TakeShelf() returns (s: Shelf)
      modifies this`shelf
      ensures s == if old(shelf).Some? then old(shelf).value else map[]
      ensures Contents() == old(Contents()).(shelf := None)
    {
      s := if shelf.Some? then shelf.value else map[];
      shelf := None;
    }

    method NextAction(doneIdle: bool, timedOut: bool, workerShelf: Shelf) returns (d: Decision)
      modifies this`hiPrioReq, this`loPrioReq, this`shelf, this`state
      ensures (Contents(), d) == Decide(old(Contents()), doneIdle, timedOut, workerShelf)
    {
      if !doneIdle && |hiPrioReq| == 0 && |loPrioReq| == 0 {
        return Perform(IdleFns(idleFns));
      }
      if |hiPrioReq| > 0 {
        var f := hiPrioReq[0];
        hiPrioReq := hiPrioReq[1..];
        return Perform(QueuedFn(f));
      } else if |loPrioReq| > 0 {
        var f := loPrioReq[0];
        loPrioReq := loPrioReq[1..];
        return Perform(QueuedFn(f));
      } else if timedOut {
        shelf := Some(workerShelf);
        state := Exiting;
        return Leave;
      }
      return Again;
    }
  }

  /** The worker performs an action with the lock released. */
  method PerformAction(action: Action, shelf: Shelf) returns (s: Shelf, doneIdle: bool)
    ensures s == RunAction(action, shelf)
    ensures doneIdle == action.IdleFns?
  {
    match action {
      case QueuedFn(job) =>
        s := job.effect(shelf);
        doneIdle := false;
      case IdleFns(fns) =>
        s := shelf;
        for i := 0 to |fns|
          invariant RunAll(fns[i..], s) == RunAll(fns, shelf)
        {
          assert fns[i..][1..] == fns[i + 1..];
          s := fns[i](s);
        }
        doneIdle := true;
    }
  }

  // ---------------------------------------------------------------------------------------------
  // All interleavings

  datatype Worker =
    | Starting                                  // spawned, shelf not taken yet
    | Deciding(doneIdle: bool, shelf: Shelf)    // wants the lock, or waits on the condition variable
    | Performing(action: Action, shelf: Shelf)  // runs an action without the lock
    | Leaving                                   // has left the loop and released the lock
    | Ended

  datatype Event = Ran(action: Action, before: Shelf, after: Shelf)

  /**
    `workers` are all threads ever spawned and `handle` is the join handle of the last one.
    While `joining`, a client holds the lock and waits for that thread to end.
    The remaining fields record history: what was queued and dequeued, and what ran.
   */
  datatype System = System(
    q: Shared,
    workers: seq<Worker>,
    handle: Option<nat>,
    joining: bool,
    queuedHi: seq<Job>,
    queuedLo: seq<Job>,
    startedHi: seq<Job>,
    startedLo: seq<Job>,
    started: seq<Job>,
    history: seq<Event>)

  const START := System(Shared(Exiting, [], [], [], None), [], None, false, [], [], [], [], [], [])

  datatype Step =
    | QueueJob(job: Job, high: bool)
    | FinishJoin
    | AddIdle(f: Effect)
    | TakeShelf(w: nat)
    | DecideNext(w: nat, timedOut: bool)
    | Finish(w: nat)
    | End(w: nat)

  predicate Enabled(s: System, step: Step) {
    match step
    case QueueJob(_, _) => !s.joining
    case AddIdle(_) => !s.joining
    case FinishJoin => s.joining && s.handle.Some? && s.handle.value < |s.workers| && s.workers[s.handle.value].Ended?
    case TakeShelf(w) => !s.joining && w < |s.workers| && s.workers[w].Starting?
    case DecideNext(w, _) => !s.joining && w < |s.workers| && s.workers[w].Deciding?
    case Finish(w) => w < |s.workers| && s.workers[w].Performing?
    case End(w) => w < |s.workers| && s.workers[w].Leaving?
  }

  function Spawn(s: System): System {
    s.(workers := s.workers + [Starting], handle := Some(|s.workers|), joining := false, q := s.q.(state := Working))
  }

  function Next(s: System, step: Step): System
    requires Enabled(s, step)
  {
    match step
    case QueueJob(job, high) =>
      var s1 := s.(q := Push(s.q, job, high),
                   queuedHi := if high then s.queuedHi + [job] else s.queuedHi,
                   queuedLo := if high then s.queuedLo else s.queuedLo + [job]);
      if s.q.state.Working? then s1
      else if s.handle.Some? then s1.(joining := true)
      else Spawn(s1)
    case FinishJoin => Spawn(s)
    case AddIdle(f) => s.(q := s.q.(idle := s.q.idle + [f]))
    case TakeShelf(w) =>
      s.(q := s.q.(shelf := None),
         workers := s.workers[w := Deciding(false, if s.q.shelf.Some? then s.q.shelf.value else map[])])
    case DecideNext(w, timedOut) =>
      var shelf := s.workers[w].shelf;
      var (q, d) := Decide(s.q, s.workers[w].doneIdle, timedOut, shelf);
      s.(q := q,
         workers := match d
           case Perform(a) => s.workers[w := Performing(a, shelf)]
           case Again => s.workers
           case Leave => s.workers[w := Leaving],
         startedHi := if |q.hi| < |s.q.hi| then s.startedHi + [s.q.hi[0]] else s.startedHi,
         startedLo := if |q.lo| < |s.q.lo| then s.startedLo + [s.q.lo[0]] else s.startedLo,
         started := match d
           case Perform(QueuedFn(job)) => s.started + [job]
           case _ => s.started)
    case Finish(w) =>
      var Performing(a, shelf) := s.workers[w];
      s.(workers := s.workers[w := Deciding(a.IdleFns?, RunAction(a, shelf))],
         history := s.history + [Ran(a, shelf, RunAction(a, shelf))])
    case End(w) => s.(workers := s.workers[w := Ended])
  }

  /** The worker between spawn and exit, if there is one. */
  function Current(s: System): Option<Worker> {
    if s.q.state.Working? && s.handle.Some? && s.handle.value < |s.workers| then Some(s.workers[s.handle.value]) else None
  }

  predicate Active(w: Worker) {
    w.Starting? || w.Deciding? || w.Performing?
  }

  /** The threads: only the last one spawned can be active, and it is so exactly while `state` says so. */
  ghost predicate GoodThreads(s: System) {
    && (forall w :: 0 <= w < |s.workers| && s.handle != Some(w) ==> s.workers[w].Ended?)
    && (s.handle.None? ==> s.workers == [])
    && (s.handle.Some? ==> s.handle.value < |s.workers| && (Active(s.workers[s.handle.value]) <==> s.q.state.Working?))
    && (s.q.state.Working? ==> s.handle.Some?)
    && (s.joining ==> s.handle.Some? && s.q.state.Exiting?)
  }

  /** Nothing is lost, repeated or reordered. */
  ghost predicate GoodQueues(s: System) {
    && s.queuedHi == s.startedHi + s.q.hi
    && s.queuedLo == s.startedLo + s.q.lo
    && (s.q.state.Exiting? && !s.joining ==> NoJobs(s.q))
    && (s.joining ==> !NoJobs(s.q))
  }

  function JobsRun(history: seq<Event>): seq<Job> {
    if |history| == 0 then []
    else
      var last := history[|history| - 1].action;
      JobsRun(history[..|history| - 1]) + if last.QueuedFn? then [last.job] else []
  }

  /** Every job taken off a queue runs once, one after the other, in the order they were taken. */
  ghost predicate GoodRuns(s: System) {
    && s.started == JobsRun(s.history) + InProgress(s)
    && multiset(s.started) == multiset(s.startedHi) + multiset(s.startedLo)
  }

  function InProgress(s: System): seq<Job> {
    match Current(s)
    case Some(Performing(QueuedFn(job), _)) => [job]
    case _ => []
  }

  /** The shelf, wherever it is at the moment. */
  function TheShelf(s: System): Shelf {
    match Current(s)
    case Some(Deciding(_, shelf)) => shelf
    case Some(Performing(_, shelf)) => shelf
    case _ => if s.q.shelf.Some? then s.q.shelf.value else map[]
  }

  /** The shelf of each action is what the previous action left, and the last one is still current. */
  ghost predicate GoodShelf(s: System) {
    && (forall i :: 0 <= i < |s.history| ==> s.history[i].after == RunAction(s.history[i].action, s.history[i].before))
    && (forall i :: 0 < i < |s.history| ==> s.history[i].before == s.history[i - 1].after)
    && (|s.history| > 0 ==> s.history[0].before == map[])
    && TheShelf(s) == (if |s.history| > 0 then s.history[|s.history| - 1].after else map[])
  }

  predicate JustIdled(s: System) {
    |s.history| > 0 && s.history[|s.history| - 1].action.IdleFns?
  }

  /** Idle batches alternate with jobs, across workers. */
  ghost predicate GoodIdle(s: System) {
    && (forall i :: 0 < i < |s.history| ==> !(s.history[i - 1].action.IdleFns? && s.history[i].action.IdleFns?))
    && match Current(s)
       case Some(Starting) => !NoJobs(s.q)
       case Some(Deciding(doneIdle, _)) => (if doneIdle then JustIdled(s) else JustIdled(s) || |s.history| == 0 ==> !NoJobs(s.q))
       case Some(Performing(a, _)) => a.IdleFns? ==> |s.history| > 0 && !JustIdled(s)
       case _ => true
  }

  ghost predicate Good(s: System) {
    GoodThreads(s) && GoodQueues(s) && GoodRuns(s) && GoodShelf(s) && GoodIdle(s)
  }

  lemma ThreadsStayGood(s: System, step: Step)
    requires GoodThreads(s) && Enabled(s, step)
    ensures GoodThreads(Next(s, step))
  {
  }

  lemma QueuesStayGood(s: System, step: Step)
    requires GoodThreads(s) && GoodQueues(s) && Enabled(s, step)
    ensures GoodQueues(Next(s, step))
  {
    match step
    case DecideNext(w, timedOut) =>
      var q := s.q;
      assert |q.hi| > 0 ==> s.startedHi + q.hi == s.startedHi + [q.hi[0]] + q.hi[1..];
      assert |q.lo| > 0 ==> s.startedLo + q.lo == s.startedLo + [q.lo[0]] + q.lo[1..];
    case _ =>
  }

  lemma DecideMoves(s: System, w: nat, timedOut: bool)
    requires GoodThreads(s) && Enabled(s, DecideNext(w, timedOut))
    ensures var u := Next(s, DecideNext(w, timedOut));
      u.history == s.history && InProgress(s) == [] && u.started == s.started + InProgress(u)
  {
    assert s.handle == Some(w);
  }

  lemma FinishMoves(s: System, w: nat)
    requires GoodThreads(s) && Enabled(s, Finish(w))
    ensures var u := Next(s, Finish(w));
      u.started == s.started && JobsRun(u.history) + InProgress(u) == JobsRun(s.history) + InProgress(s)
  {
    hide RunAction;
    var u := Next(s, Finish(w));
    assert s.handle == Some(w);
    assert u.history[..|u.history| - 1] == s.history;
  }

  lemma OthersMoveNothing(s: System, step: Step)
    requires GoodThreads(s) && Enabled(s, step) && !step.DecideNext? && !step.Finish?
    ensures var u := Next(s, step);
      u.started == s.started && u.history == s.history && InProgress(u) == InProgress(s)
  {
  }

  lemma StartsAddUp(s: System, step: Step)
    requires Enabled(s, step)
    requires multiset(s.started) == multiset(s.startedHi) + multiset(s.startedLo)
    ensures var u := Next(s, step);
      multiset(u.started) == multiset(u.startedHi) + multiset(u.startedLo)
  {
    hide RunAction;
  }

  lemma RunsStayGood(s: System, step: Step)
    requires GoodThreads(s) && GoodRuns(s) && Enabled(s, step)
    ensures GoodRuns(Next(s, step))
  {
    hide Next, GoodThreads, Enabled, InProgress, JobsRun;
    StartsAddUp(s, step);
    match step
    case DecideNext(w, timedOut) => DecideMoves(s, w, timedOut);
    case Finish(w) => FinishMoves(s, w);
    case _ => OthersMoveNothing(s, step);
  }

  lemma FinishReplacesShelf(s: System, w: nat)
    requires GoodThreads(s) && Enabled(s, Finish(w))
    ensures var u, a := Next(s, Finish(w)), s.workers[w].action;
      && TheShelf(u) == RunAction(a, TheShelf(s))
      && u.history == s.history + [Ran(a, TheShelf(s), TheShelf(u))]
  {
    hide RunAction;
    assert s.handle == Some(w);
  }

  /** Handing the shelf over, and everything else, leaves it as it is. */
  lemma OthersKeepShelf(s: System, step: Step)
    requires GoodThreads(s) && Enabled(s, step) && !step.Finish?
    ensures TheShelf(Next(s, step)) == TheShelf(s) && Next(s, step).history == s.history
  {
  }

  lemma ShelfStaysGood(s: System, step: Step)
    requires GoodThreads(s) && GoodShelf(s) && Enabled(s, step)
    ensures GoodShelf(Next(s, step))
  {
    hide Next, GoodThreads, TheShelf, RunAction;
    if step.Finish? {
      FinishReplacesShelf(s, step.w);
    } else {
      OthersKeepShelf(s, step);
    }
  }

  lemma IdleStaysGood(s: System, step: Step)
    requires GoodThreads(s) && GoodQueues(s) && GoodIdle(s) && Enabled(s, step)
    ensures GoodIdle(Next(s, step))
  {
    hide RunAction;
  }

  ghost predicate IsExecution(states: seq<System>, steps: seq<Step>) {
    && |states| == |steps| + 1
    && states[0] == START
    && forall i :: 0 <= i < |steps| ==> Enabled(states[i], steps[i]) && states[i + 1] == Next(states[i], steps[i])
  }

  lemma {:induction false} AlwaysGood(states: seq<System>, steps: seq<Step>, n: nat)
    requires IsExecution(states, steps) && n <= |steps|
    ensures Good(states[n])
  {
    hide Next, Enabled, GoodThreads, GoodQueues, GoodRuns, GoodShelf, GoodIdle;
    if n > 0 {
      AlwaysGood(states, steps, n - 1);
      var s, step := states[n - 1], steps[n - 1];
      ThreadsStayGood(s, step);
      QueuesStayGood(s, step);
      RunsStayGood(s, step);
      ShelfStaysGood(s, step);
      IdleStaysGood(s, step);
    } else {
      StartIsGood();
    }
  }

  lemma StartIsGood()
    ensures Good(START)
  {
  }

  /** At most one worker is between its spawn and its exit. */
  lemma OneWorker(states: seq<System>, steps: seq<Step>, n: nat, v: nat, w: nat)
    requires IsExecution(states, steps) && n <= |steps|
    requires v < |states[n].workers| && w < |states[n].workers| && v != w && Active(states[n].workers[v])
    ensures states[n].workers[w].Ended?
  {
    AlwaysGood(states, steps, n);
  }

  /**
    No job is lost, run twice or overtaken within its queue: what was queued is what was started
    followed by what still waits, and when no worker is needed any more every queued job has run.
   */
  lemma EveryJobRunsOnce(states: seq<System>, steps: seq<Step>, n: nat)
    requires IsExecution(states, steps) && n <= |steps|
    ensures var s := states[n];
      && s.queuedHi == s.startedHi + s.q.hi && s.queuedLo == s.startedLo + s.q.lo
      && multiset(s.started) == multiset(s.startedHi) + multiset(s.startedLo)
      && JobsRun(s.history) <= s.started && |s.started| <= |JobsRun(s.history)| + 1
      && (s.q.state.Exiting? && !s.joining ==> JobsRun(s.history) == s.started && s.startedHi == s.queuedHi && s.startedLo == s.queuedLo)
  {
    AlwaysGood(states, steps, n);
    var s := states[n];
    assert NoJobs(s.q) ==> s.startedHi + s.q.hi == s.startedHi && s.startedLo + s.q.lo == s.startedLo;
  }

  /**
    A client that joins the old worker under the lock is never stuck: that worker is past its last
    use of the lock, so either it has ended or its next step ends it, and then the join completes.
   */
  lemma JoinCannotDeadlock(states: seq<System>, steps: seq<Step>, n: nat)
    requires IsExecution(states, steps) && n <= |steps|
    requires states[n].joining
    ensures var s := states[n];
      || Enabled(s, FinishJoin)
      || (s.handle.Some? && Enabled(s, End(s.handle.value)) && Enabled(Next(s, End(s.handle.value)), FinishJoin))
  {
    AlwaysGood(states, steps, n);
  }

  /** Between two idle batches at least one queued job ran, whichever workers ran them. */
  lemma JobBetweenIdleBatches(states: seq<System>, steps: seq<Step>, n: nat, i: nat, j: nat)
    requires IsExecution(states, steps) && n <= |steps|
    requires i < j < |states[n].history|
    requires states[n].history[i].action.IdleFns? && states[n].history[j].action.IdleFns?
    ensures exists k :: i < k < j && states[n].history[k].action.QueuedFn?
  {
    AlwaysGood(states, steps, n);
    var h := states[n].history;
    assert h[i + 1].action.QueuedFn?;
  }

  /** A worker leaves only when the last thing that ran was a batch of idle functions. */
  lemma LeavesAfterIdle(states: seq<System>, steps: seq<Step>, n: nat, w: nat)
    requires IsExecution(states, steps) && n < |steps|
    requires w < |states[n].workers| && w < |states[n + 1].workers|
    requires Active(states[n].workers[w]) && !Active(states[n + 1].workers[w])
    ensures JustIdled(states[n]) && NoJobs(states[n].q)
  {
    hide Next, Enabled, Good, GoodThreads, GoodIdle, JustIdled, NoJobs;
    AlwaysGood(states, steps, n);
    LeaveStep(states[n], steps[n], w);
  }

  lemma LeaveStep(s: System, step: Step, w: nat)
    requires Good(s) && Enabled(s, step)
    requires w < |s.workers| && w < |Next(s, step).workers|
    requires Active(s.workers[w]) && !Active(Next(s, step).workers[w])
    ensures JustIdled(s) && NoJobs(s.q)
  {
    hide RunAction, GoodRuns, GoodShelf, GoodQueues;
    assert s.handle == Some(w);
  }

  // ---------------------------------------------------------------------------------------------
  // Refinement of a serial scheduler

  /** A scheduler without threads: two queues, at most one action in progress, one shelf. */
  datatype Scheduler = Scheduler(hi: seq<Job>, lo: seq<Job>, current: Option<Action>, shelf: Shelf)

  ghost function Abstract(s: System): Scheduler {
    Scheduler(s.q.hi, s.q.lo,
              match Current(s) case Some(Performing(a, _)) => Some(a) case _ => None,
              TheShelf(s))
  }

  ghost predicate Enqueues(a: Scheduler, b: Scheduler) {
    exists job ::
      || b == a.(hi := a.hi + [job])
      || b == a.(lo := a.lo + [job])
  }

  /** High jobs first, in order; low jobs only if there is no high one; idle functions only if there is no job. */
  ghost predicate Starts(a: Scheduler, b: Scheduler) {
    && a.current.None? && b.current.Some? && b.shelf == a.shelf
    && if |a.hi| > 0 then b.current.value == QueuedFn(a.hi[0]) && b.hi == a.hi[1..] && b.lo == a.lo
       else if |a.lo| > 0 then b.current.value == QueuedFn(a.lo[0]) && b.hi == a.hi && b.lo == a.lo[1..]
       else b.current.value.IdleFns? && b.hi == a.hi && b.lo == a.lo
  }

  ghost predicate Completes(a: Scheduler, b: Scheduler) {
    a.current.Some? && b == a.(current := None, shelf := RunAction(a.current.value, a.shelf))
  }

  lemma DecideRefines(s: System, w: nat, timedOut: bool)
    requires GoodThreads(s) && Enabled(s, DecideNext(w, timedOut))
    ensures var a, b := Abstract(s), Abstract(Next(s, DecideNext(w, timedOut))); a == b || Starts(a, b)
  {
    assert s.handle == Some(w);
  }

  lemma FinishRefines(s: System, w: nat)
    requires GoodThreads(s) && Enabled(s, Finish(w))
    ensures Completes(Abstract(s), Abstract(Next(s, Finish(w))))
  {
    hide RunAction;
    assert s.handle == Some(w);
  }

  lemma QueueRefines(s: System, job: Job, high: bool)
    requires GoodThreads(s) && Enabled(s, QueueJob(job, high))
    ensures Enqueues(Abstract(s), Abstract(Next(s, QueueJob(job, high))))
  {
    var a, b := Abstract(s), Abstract(Next(s, QueueJob(job, high)));
    assert b == if high then a.(hi := a.hi + [job]) else a.(lo := a.lo + [job]);
  }

  /** Every step of the threads is a step of the scheduler or invisible to it. */
  lemma Refines(s: System, step: Step)
    requires GoodThreads(s) && Enabled(s, step)
    ensures var a, b := Abstract(s), Abstract(Next(s, step));
      a == b || Enqueues(a, b) || Starts(a, b) || Completes(a, b)
  {
    hide Starts, Completes, Enqueues;
    match step
    case QueueJob(job, high) => QueueRefines(s, job, high);
    case DecideNext(w, timedOut) => DecideRefines(s, w, timedOut);
    case Finish(w) => FinishRefines(s, w);
    case _ =>
  }

  lemma ExecutionRefines(states: seq<System>, steps: seq<Step>, n: nat)
    requires IsExecution(states, steps) && n < |steps|
    ensures var a, b := Abstract(states[n]), Abstract(states[n + 1]);
      a == b || Enqueues(a, b) || Starts(a, b) || Completes(a, b)
  {
    hide Next, Abstract;
    AlwaysGood(states, steps, n);
    Refines(states[n], steps[n]);
  }

  // ---------------------------------------------------------------------------------------------
  // Shelf lookups never find nothing

  /** Nothing that runs takes the type off the shelf. */
  ghost predicate Keeps(f: Effect, ty: int) {
    forall shelf: Shelf :: ty in shelf ==> ty in f(shelf)
  }

  /** The job that puts the type on the shelf, like the one queued by `Gc::new_init_with` or `init_shelf`. */
  ghost predicate Initialises(job: Job, ty: int, needs: Job -> bool) {
    !needs(job) && forall shelf: Shelf :: ty in job.effect(shelf)
  }

  /** The initialiser is in the high queue, and no job ahead of it needs the type. */
  ghost predicate Pending(hi: seq<Job>, ty: int, needs: Job -> bool) {
    exists i :: 0 <= i < |hi| && Initialises(hi[i], ty, needs) && forall j :: 0 <= j < i ==> !needs(hi[j])
  }

  ghost predicate InitialiserQueued(s: System, ty: int, needs: Job -> bool) {
    exists i :: 0 <= i < |s.queuedHi| && Initialises(s.queuedHi[i], ty, needs)
  }

  /** Clients queue an initialiser with high priority before any job that needs the type. */
  ghost predicate Disciplined(s: System, step: Step, ty: int, needs: Job -> bool) {
    match step
    case QueueJob(job, high) => Keeps(job.effect, ty) && (needs(job) ==> InitialiserQueued(s, ty, needs))
    case AddIdle(f) => Keeps(f, ty)
    case _ => true
  }

  ghost predicate AllKeep(s: System, ty: int) {
    && (forall i :: 0 <= i < |s.q.hi| ==> Keeps(s.q.hi[i].effect, ty))
    && (forall i :: 0 <= i < |s.q.lo| ==> Keeps(s.q.lo[i].effect, ty))
    && (forall i :: 0 <= i < |s.q.idle| ==> Keeps(s.q.idle[i], ty))
    && match Current(s)
       case Some(Performing(QueuedFn(job), _)) => Keeps(job.effect, ty)
       case Some(Performing(IdleFns(fns), _)) => forall i :: 0 <= i < |fns| ==> Keeps(fns[i], ty)
       case _ => true
  }

  ghost predicate NobodyNeeds(s: System, needs: Job -> bool) {
    && (forall i :: 0 <= i < |s.q.hi| ==> !needs(s.q.hi[i]))
    && (forall i :: 0 <= i < |s.q.lo| ==> !needs(s.q.lo[i]))
    && (forall i :: 0 <= i < |InProgress(s)| ==> !needs(InProgress(s)[i]))
  }

  /** The type is on the shelf, is being put there, or will be before anybody looks. */
  ghost predicate Supplied(s: System, ty: int, needs: Job -> bool) {
    || ty in TheShelf(s)
    || ((forall i :: 0 <= i < |InProgress(s)| ==> !needs(InProgress(s)[i])) &&
        (Pending(s.q.hi, ty, needs) || (|InProgress(s)| > 0 && Initialises(InProgress(s)[0], ty, needs))))
  }

  ghost predicate LookupsSafe(s: System, ty: int, needs: Job -> bool) {
    && AllKeep(s, ty)
    && (if InitialiserQueued(s, ty, needs) then Supplied(s, ty, needs) else NobodyNeeds(s, needs))
  }

  lemma {:induction false} RunAllKeeps(fns: seq<Effect>, shelf: Shelf, ty: int)
    requires forall i :: 0 <= i < |fns| ==> Keeps(fns[i], ty)
    requires ty in shelf
    ensures ty in RunAll(fns, shelf)
  {
    if |fns| > 0 {
      assert Keeps(fns[0], ty);
      RunAllKeeps(fns[1..], fns[0](shelf), ty);
    }
  }

  lemma StaysAllKeep(s: System, step: Step, ty: int, needs: Job -> bool)
    requires GoodThreads(s) && AllKeep(s, ty) && Enabled(s, step) && Disciplined(s, step, ty, needs)
    ensures AllKeep(Next(s, step), ty)
  {
    hide RunAction, Keeps;
  }

  lemma QueueStaysSafe(s: System, job: Job, high: bool, ty: int, needs: Job -> bool)
    requires GoodThreads(s) && LookupsSafe(s, ty, needs)
    requires Enabled(s, QueueJob(job, high)) && Disciplined(s, QueueJob(job, high), ty, needs)
    ensures var u := Next(s, QueueJob(job, high));
      if InitialiserQueued(u, ty, needs) then Supplied(u, ty, needs) else NobodyNeeds(u, needs)
  {
    hide Initialises, AllKeep;
    var step := QueueJob(job, high);
    var u := Next(s, step);
    OthersKeepShelf(s, step);
    OthersMoveNothing(s, step);
    assert s.q.hi <= u.q.hi && s.queuedHi <= u.queuedHi;
    if InitialiserQueued(s, ty, needs) {
      assert InitialiserQueued(u, ty, needs);
      if Pending(s.q.hi, ty, needs) {
        assert Pending(u.q.hi, ty, needs);
      }
    } else if high && Initialises(job, ty, needs) {
      assert u.q.hi[|s.q.hi|] == job;
      assert Pending(u.q.hi, ty, needs);
    }
  }

  lemma DecideStaysSafe(s: System, w: nat, timedOut: bool, ty: int, needs: Job -> bool)
    requires GoodThreads(s) && LookupsSafe(s, ty, needs)
    requires Enabled(s, DecideNext(w, timedOut))
    ensures var u := Next(s, DecideNext(w, timedOut));
      if InitialiserQueued(u, ty, needs) then Supplied(u, ty, needs) else NobodyNeeds(u, needs)
  {
    hide Initialises, AllKeep;
    var step := DecideNext(w, timedOut);
    var u := Next(s, step);
    OthersKeepShelf(s, step);
    DecideMoves(s, w, timedOut);
    assert u.queuedHi == s.queuedHi;
    assert InitialiserQueued(u, ty, needs) == InitialiserQueued(s, ty, needs);
    if Pending(s.q.hi, ty, needs) {
      var i :| 0 <= i < |s.q.hi| && Initialises(s.q.hi[i], ty, needs) && forall j :: 0 <= j < i ==> !needs(s.q.hi[j]);
      assert u.q.hi == s.q.hi[1..] && InProgress(u) == [s.q.hi[0]];
      assert i > 0 ==> u.q.hi[i - 1] == s.q.hi[i];
      assert Initialises(s.q.hi[i], ty, needs) ==> !needs(s.q.hi[i]) by {
        InitialiserNeedsNothing(s.q.hi[i], ty, needs);
      }
    }
  }

  lemma InitialiserNeedsNothing(job: Job, ty: int, needs: Job -> bool)
    ensures Initialises(job, ty, needs) ==> !needs(job)
  {
  }

  lemma FinishStaysSafe(s: System, w: nat, ty: int, needs: Job -> bool)
    requires GoodThreads(s) && LookupsSafe(s, ty, needs)
    requires Enabled(s, Finish(w))
    ensures var u := Next(s, Finish(w));
      if InitialiserQueued(u, ty, needs) then Supplied(u, ty, needs) else NobodyNeeds(u, needs)
  {
    var u := Next(s, Finish(w));
    assert s.handle == Some(w);
    FinishReplacesShelf(s, w);
    var a := s.workers[w].action;
    assert u.queuedHi == s.queuedHi && u.q == s.q && InProgress(u) == [];
    assert InitialiserQueued(u, ty, needs) == InitialiserQueued(s, ty, needs);
    if ty in TheShelf(s) {
      if a.IdleFns? {
        RunAllKeeps(a.fns, TheShelf(s), ty);
      }
      assert ty in TheShelf(u);
    }
  }

  lemma StaysSafe(s: System, step: Step, ty: int, needs: Job -> bool)
    requires GoodThreads(s) && LookupsSafe(s, ty, needs) && Enabled(s, step) && Disciplined(s, step, ty, needs)
    ensures LookupsSafe(Next(s, step), ty, needs)
  {
    hide AllKeep, Keeps;
    StaysAllKeep(s, step, ty, needs);
    match step
    case QueueJob(job, high) => QueueStaysSafe(s, job, high, ty, needs);
    case DecideNext(w, timedOut) => DecideStaysSafe(s, w, timedOut, ty, needs);
    case Finish(w) => FinishStaysSafe(s, w, ty, needs);
    case _ =>
      OthersKeepShelf(s, step);
      OthersMoveNothing(s, step);
      assert Next(s, step).queuedHi == s.queuedHi;
      assert InitialiserQueued(Next(s, step), ty, needs) == InitialiserQueued(s, ty, needs);
  }

  lemma {:induction false} AlwaysSafe(states: seq<System>, steps: seq<Step>, n: nat, ty: int, needs: Job -> bool)
    requires IsExecution(states, steps) && n <= |steps|
    requires forall i :: 0 <= i < |steps| ==> Disciplined(states[i], steps[i], ty, needs)
    ensures LookupsSafe(states[n], ty, needs)
  {
    hide Next, Enabled, Disciplined, GoodThreads, LookupsSafe;
    if n > 0 {
      AlwaysSafe(states, steps, n - 1, ty, needs);
      AlwaysGood(states, steps, n - 1);
      StaysSafe(states[n - 1], steps[n - 1], ty, needs);
    } else {
      StartIsSafe(ty, needs);
    }
  }

  lemma StartIsSafe(ty: int, needs: Job -> bool)
    ensures LookupsSafe(START, ty, needs)
  {
  }

  /** Whenever a job that needs the type is about to run or runs, the type is on the shelf it gets. */
  lemma LookupFinds(states: seq<System>, steps: seq<Step>, n: nat, w: nat, ty: int, needs: Job -> bool)
    requires IsExecution(states, steps) && n <= |steps|
    requires forall i :: 0 <= i < |steps| ==> Disciplined(states[i], steps[i], ty, needs)
    requires w < |states[n].workers| && states[n].workers[w].Performing?
    requires states[n].workers[w].action.QueuedFn? && needs(states[n].workers[w].action.job)
    ensures ty in states[n].workers[w].shelf
  {
    hide Next, Enabled, Disciplined, AllKeep;
    AlwaysSafe(states, steps, n, ty, needs);
    AlwaysGood(states, steps, n);
    var s := states[n];
    assert s.handle == Some(w) && InProgress(s) == [s.workers[w].action.job];
    assert needs(InProgress(s)[0]);
  }
}
