/** Progress of the scheduler (app/asr_gateway_scheduler.py) on its own transition system:
    forced runs empty a worker's queue, whatever is cancelled, expires or fails meanwhile. */
module SchedulerProgress {
  import opened Pcm
  import opened Jobs
  import opened Batching
  import opened Scheduler
  import opened SchedulerRuns

  /** Anything may happen during a run but another run and arrivals for the worker. */
  predicate Allowed(step: Step, w: int) {
    !step.Begin? && (step.Enqueue? ==> step.job.worker != w)
  }

  ghost predicate Within(queue: seq<Job>, start: seq<Job>) {
    |queue| <= |start| && forall job | job in queue :: job in start
  }

  ghost predicate Shrunk(queue: seq<Job>, start: seq<Job>) {
    queue == [] || |queue| < |start|
  }

  /** A forced run of worker `w` in progress that found `start` in its queue. Once a batch has
      been sent, or nothing was left to send, the queue is shorter. */
  ghost predicate Progress(cfg: Config, s: Sched, w: int, start: seq<Job>) {
    && |s.core.queues| == |cfg.workers| && 0 <= w < |s.core.queues|
    && Within(s.core.queues[w], start)
    && (match s.run
        case Idle => Shrunk(s.core.queues[w], start)
        case Reporting(_) => Shrunk(s.core.queues[w], start)
        case Expiring(v, force, _) => v == w && force && start != []
        case TimingOut(v, force, _, _) => v == w && force && start != []
        case Dropping(v, force, _) => v == w && force && start != []
        case _ => s.run.w == w && Shrunk(s.core.queues[w], start))
  }

  lemma RegularPart(queue: seq<Job>, start: seq<Job>, maxWait: real, caps: Caps)
    requires Regular(start, maxWait, caps) && Within(queue, start)
    ensures Regular(queue, maxWait, caps)
  {
  }

  lemma TakenOut(queue: seq<Job>, start: seq<Job>, job: Job)
    requires Within(queue, start) && job in queue
    ensures Within(Remove(queue, job), start) && |Remove(queue, job)| < |start|
  {
    RemoveTakesOne(queue, job);
    assert job in multiset(queue);
    forall x | x in Remove(queue, job) ensures x in queue {
      assert x in multiset(Remove(queue, job));
    }
    assert |multiset(Remove(queue, job))| == |multiset(queue)| - 1;
  }

  lemma RestWithin(queue: seq<Job>, rest: seq<Job>, batch: seq<Job>)
    requires multiset(rest) + multiset(batch) == multiset(queue)
    ensures forall x | x in rest :: x in queue
  {
    forall x | x in rest ensures x in queue {
      assert x in multiset(rest);
      assert x in multiset(queue);
    }
  }

  /** A forced dispatch from a nonempty regular queue sends a batch and leaves fewer jobs. */
  lemma DispatchShrinks(queue: seq<Job>, start: seq<Job>, now: real, maxWait: real, caps: Caps)
    requires Regular(start, maxWait, caps) && Within(queue, start) && queue != []
    ensures var sorted := Sort(queue); var batch := Select(sorted, now, maxWait, caps, true);
            && batch != [] && multiset(batch) <= multiset(sorted)
            && Within(RemoveAll(sorted, batch), start) && |RemoveAll(sorted, batch)| < |start|
  {
    RegularPart(queue, start, maxWait, caps);
    RoundShrinks(queue, now, maxWait, caps);
    var sorted := Sort(queue);
    var batch := Select(sorted, now, maxWait, caps, true);
    RestWithin(queue, RemoveAll(sorted, batch), batch);
  }

  lemma DispatchProgress(cfg: Config, s: Sched, w: int, start: seq<Job>, now: real)
    requires Progress(cfg, s, w, start) && Regular(start, cfg.maxWait, cfg.workers[w]) && Enabled(cfg, s, Dispatch(now))
    ensures Progress(cfg, Next(cfg, s, Dispatch(now)), w, start)
  {
    var queue := s.core.queues[w];
    if queue == [] {
      SortSorts(queue);
      assert |Sort(queue)| == |multiset(Sort(queue))| == 0;
    } else {
      DispatchShrinks(queue, start, now, cfg.maxWait, cfg.workers[w]);
    }
  }

  lemma ScanProgress(cfg: Config, s: Sched, step: Step, w: int, start: seq<Job>)
    requires Progress(cfg, s, w, start) && Enabled(cfg, s, step)
    requires step.ExpireOne? || step.PublishTimeout? || step.ExpireDone? || step.DropOne?
    ensures Progress(cfg, Next(cfg, s, step), w, start)
  {
    if step.ExpireOne? || step.DropOne? {
      TakenOut(s.core.queues[w], start, s.run.todo[0]);
    }
  }

  lemma StepProgress(cfg: Config, s: Sched, step: Step, w: int, start: seq<Job>)
    requires Progress(cfg, s, w, start) && Regular(start, cfg.maxWait, cfg.workers[w])
    requires Enabled(cfg, s, step) && Allowed(step, w)
    ensures Progress(cfg, Next(cfg, s, step), w, start)
  {
    if step.Dispatch? {
      DispatchProgress(cfg, s, w, start, step.now);
    } else if step.ExpireOne? || step.PublishTimeout? || step.ExpireDone? || step.DropOne? {
      ScanProgress(cfg, s, step, w, start);
    }
  }

  lemma {:induction false} RunProgress(cfg: Config, s: Sched, steps: seq<Step>, w: int, start: seq<Job>)
    requires Progress(cfg, s, w, start) && Regular(start, cfg.maxWait, cfg.workers[w])
    requires forall i | 0 <= i < |steps| :: Allowed(steps[i], w)
    ensures Progress(cfg, Continue(cfg, s, steps), w, start)
  {
    if steps != [] {
      RunProgress(cfg, s, steps[..|steps| - 1], w, start);
      var t := Continue(cfg, s, steps[..|steps| - 1]);
      if Enabled(cfg, t, steps[|steps| - 1]) {
        StepProgress(cfg, t, steps[|steps| - 1], w, start);
      }
    }
  }

  /** A forced run, at its own time, with whatever happens until it is over. */
  datatype Round = Round(now: real, steps: seq<Step>)

  function AfterRound(cfg: Config, s: Sched, w: int, round: Round): Sched {
    var begin := Begin(w, true, round.now);
    if Enabled(cfg, s, begin) then Continue(cfg, Next(cfg, s, begin), round.steps) else s
  }

  /** The run ends, and during it nothing arrives for the worker. */
  ghost predicate Complete(cfg: Config, s: Sched, w: int, round: Round) {
    && AfterRound(cfg, s, w, round).run.Idle?
    && forall i | 0 <= i < |round.steps| :: Allowed(round.steps[i], w)
  }

  /** Every complete forced run of a worker with a regular queue leaves the queue shorter, or
      empty: sent to the worker, timed out, dropped or drained. */
  lemma ForcedRunShrinks(cfg: Config, s: Sched, w: int, round: Round)
    requires ShapeInv(cfg, s) && s.run.Idle? && 0 <= w < |cfg.workers|
    requires Regular(s.core.queues[w], cfg.maxWait, cfg.workers[w]) && Complete(cfg, s, w, round)
    ensures var t := AfterRound(cfg, s, w, round);
            && |t.core.queues| == |cfg.workers|
            && Within(t.core.queues[w], s.core.queues[w]) && Shrunk(t.core.queues[w], s.core.queues[w])
  {
    if Enabled(cfg, s, Begin(w, true, round.now)) {
      RunProgress(cfg, Next(cfg, s, Begin(w, true, round.now)), round.steps, w, s.core.queues[w]);
    }
  }

  function AfterRounds(cfg: Config, s: Sched, w: int, rounds: seq<Round>): Sched {
    if rounds == [] then s
    else AfterRound(cfg, AfterRounds(cfg, s, w, rounds[..|rounds| - 1]), w, rounds[|rounds| - 1])
  }

  ghost predicate AllComplete(cfg: Config, s: Sched, w: int, rounds: seq<Round>) {
    rounds == [] ||
    (AllComplete(cfg, s, w, rounds[..|rounds| - 1])
     && Complete(cfg, AfterRounds(cfg, s, w, rounds[..|rounds| - 1]), w, rounds[|rounds| - 1]))
  }

  lemma RoundReachable(cfg: Config, s: Sched, w: int, round: Round)
    requires Inv(cfg, s)
    ensures Inv(cfg, AfterRound(cfg, s, w, round))
  {
    var begin := Begin(w, true, round.now);
    if Enabled(cfg, s, begin) {
      NextKeeps(cfg, s, begin);
      ContinueInv(cfg, Next(cfg, s, begin), round.steps);
    }
  }

  /** From every reachable idle state, complete forced runs of a worker with a regular queue
      empty it: after `n` of them at most its length less `n` is left. */
  lemma {:induction false} ForcedRunsEmptyQueue(cfg: Config, s: Sched, w: int, rounds: seq<Round>)
    requires Inv(cfg, s) && s.run.Idle? && 0 <= w < |cfg.workers|
    requires Regular(s.core.queues[w], cfg.maxWait, cfg.workers[w]) && AllComplete(cfg, s, w, rounds)
    ensures var t := AfterRounds(cfg, s, w, rounds);
            && Inv(cfg, t) && t.run.Idle? && |t.core.queues| == |cfg.workers|
            && Within(t.core.queues[w], s.core.queues[w])
            && |t.core.queues[w]| <= Max(0, |s.core.queues[w]| - |rounds|)
    decreases |rounds|
  {
    if rounds != [] {
      var front := rounds[..|rounds| - 1];
      ForcedRunsEmptyQueue(cfg, s, w, front);
      var before := AfterRounds(cfg, s, w, front);
      RegularPart(before.core.queues[w], s.core.queues[w], cfg.maxWait, cfg.workers[w]);
      ForcedRunShrinks(cfg, before, w, rounds[|rounds| - 1]);
      RoundReachable(cfg, before, w, rounds[|rounds| - 1]);
    }
  }

  // ----- and every run can be completed -------------------------------------------------

  lemma {:induction false} ContinueCons(cfg: Config, s: Sched, step: Step, steps: seq<Step>)
    requires Enabled(cfg, s, step)
    ensures Continue(cfg, s, [step] + steps) == Continue(cfg, Next(cfg, s, step), steps)
    decreases |steps|
  {
    var all := [step] + steps;
    if steps == [] {
      assert all[..0] == [];
      assert Continue(cfg, s, []) == s;
    } else {
      assert all[..|all| - 1] == [step] + steps[..|steps| - 1];
      ContinueCons(cfg, s, step, steps[..|steps| - 1]);
    }
  }

  /** The phases of a run, last one first. */
  function Phase(run: Run): nat {
    match run
    case Idle => 0
    case Reporting(_) => 1
    case Settling(_, _, _, _) => 2
    case Closing(_, _, _, _, _, _) => 2
    case Draining(_, _, _, _) => 3
    case Failing(_, _) => 4
    case Submitted(_, _) => 5
    case Dropping(_, _, _) => 6
    case Expiring(_, _, _) => 7
    case TimingOut(_, _, _, _) => 7
  }

  /** How much of its phase a run has left. */
  function Left(run: Run): nat {
    match run
    case Reporting(failed) => |failed|
    case Settling(_, jobs, _, _) => 2 * |jobs|
    case Closing(_, _, _, jobs, _, _) => 2 * |jobs| + 1
    case Draining(_, _, todo, _) => |todo|
    case Dropping(_, _, todo) => |todo|
    case Expiring(_, _, todo) => 2 * |todo|
    case TimingOut(_, _, _, todo) => 2 * |todo| + 1
    case _ => 0
  }

  /** The step a suspended run takes next; the worker's answer is taken to be a failure. */
  function OwnStep(run: Run): Step
    requires !run.Idle?
  {
    match run
    case Expiring(_, _, todo) => if todo != [] then ExpireOne else ExpireDone
    case TimingOut(_, _, _, _) => PublishTimeout
    case Dropping(_, _, todo) => if todo != [] then DropOne else Dispatch(0.0)
    case Submitted(_, _) => SubmitRaised
    case Failing(_, _) => StartDrain
    case Draining(_, _, todo, _) => if todo != [] then DrainOne(true) else DrainDone
    case Settling(_, jobs, _, _) => if jobs != [] then CleanOne(Clean) else SettleDone
    case Closing(_, _, _, _, _, _) => CloseOne
    case Reporting(failed) => if failed != [] then ReportOne else ReportDone
  }

  lemma OwnStepEnabled(cfg: Config, s: Sched)
    requires Inv(cfg, s) && !s.run.Idle?
    ensures Enabled(cfg, s, OwnStep(s.run))
  {
    if Todo(s.run) != [] {
      TodoIsQueued(cfg, s);
    }
  }

  /** It brings the run nearer to its end. */
  lemma OwnStepNearer(cfg: Config, s: Sched)
    requires !s.run.Idle? && Enabled(cfg, s, OwnStep(s.run))
    ensures var t := Next(cfg, s, OwnStep(s.run));
            Phase(t.run) < Phase(s.run) || (Phase(t.run) == Phase(s.run) && Left(t.run) < Left(s.run))
  {
  }

  lemma TodoIsQueued(cfg: Config, s: Sched)
    requires Inv(cfg, s) && Todo(s.run) != []
    ensures InQueue(s, s.run.w, Todo(s.run)[0])
  {
    var job := Todo(s.run)[0];
    assert LedgerAt(s, job);
    CountMember(Todo(s.run), job);
    CountMember(s.core.queues[s.run.w], job);
  }

  /** So from every state of the invariant the run in progress can be completed. */
  lemma {:induction false} RunCanBeCompleted(cfg: Config, s: Sched, w: int) returns (steps: seq<Step>)
    requires Inv(cfg, s)
    ensures Continue(cfg, s, steps).run.Idle? && forall i | 0 <= i < |steps| :: Allowed(steps[i], w)
    decreases Phase(s.run), Left(s.run)
  {
    steps := [];
    if !s.run.Idle? {
      var step := OwnStep(s.run);
      OwnStepEnabled(cfg, s);
      OwnStepNearer(cfg, s);
      NextKeeps(cfg, s, step);
      var rest := RunCanBeCompleted(cfg, Next(cfg, s, step), w);
      ContinueCons(cfg, s, step, rest);
      steps := [step] + rest;
    }
  }

  lemma CompleteRound(cfg: Config, s: Sched, w: int, now: real) returns (round: Round)
    requires Inv(cfg, s) && s.run.Idle?
    ensures round.now == now && Complete(cfg, s, w, round)
  {
    var begin := Begin(w, true, now);
    var steps := [];
    if Enabled(cfg, s, begin) {
      NextKeeps(cfg, s, begin);
      steps := RunCanBeCompleted(cfg, Next(cfg, s, begin), w);
    }
    round := Round(now, steps);
  }

  /** Each run at its own time. */
  predicate Timed(rounds: seq<Round>, clock: seq<real>) {
    |rounds| == |clock| && forall i | 0 <= i < |rounds| :: rounds[i].now == clock[i]
  }

  /** And so can any number of forced runs, at any times: emptying the queue is possible from
      every such state, with as many runs as it has jobs. */
  lemma {:induction false} QueueCanBeEmptied(cfg: Config, s: Sched, w: int, clock: seq<real>) returns (rounds: seq<Round>)
    requires Inv(cfg, s) && s.run.Idle? && 0 <= w < |cfg.workers|
    requires Regular(s.core.queues[w], cfg.maxWait, cfg.workers[w]) && |clock| == |s.core.queues[w]|
    ensures Timed(rounds, clock) && AllComplete(cfg, s, w, rounds)
    ensures var t := AfterRounds(cfg, s, w, rounds); |t.core.queues| == |cfg.workers| && t.core.queues[w] == []
  {
    rounds := CompleteRounds(cfg, s, w, clock);
    ForcedRunsEmptyQueue(cfg, s, w, rounds);
  }

  lemma {:induction false} CompleteRounds(cfg: Config, s: Sched, w: int, clock: seq<real>) returns (rounds: seq<Round>)
    requires Inv(cfg, s) && s.run.Idle? && 0 <= w < |cfg.workers|
    requires Regular(s.core.queues[w], cfg.maxWait, cfg.workers[w])
    ensures Timed(rounds, clock) && AllComplete(cfg, s, w, rounds)
    decreases |clock|
  {
    rounds := [];
    if clock != [] {
      var n := |clock| - 1;
      var front := CompleteRounds(cfg, s, w, clock[..n]);
      var last := OneRoundMore(cfg, s, w, front, clock[n]);
      rounds := front + [last];
      CompleteSnoc(cfg, s, w, front, last);
      TimedSnoc(front, last, clock);
    }
  }

  lemma TimedSnoc(front: seq<Round>, last: Round, clock: seq<real>)
    requires clock != [] && Timed(front, clock[..|clock| - 1]) && last.now == clock[|clock| - 1]
    ensures Timed(front + [last], clock)
  {
  }

  lemma OneRoundMore(cfg: Config, s: Sched, w: int, front: seq<Round>, now: real) returns (last: Round)
    requires Inv(cfg, s) && s.run.Idle? && 0 <= w < |cfg.workers|
    requires Regular(s.core.queues[w], cfg.maxWait, cfg.workers[w]) && AllComplete(cfg, s, w, front)
    ensures last.now == now && Complete(cfg, AfterRounds(cfg, s, w, front), w, last)
  {
    ForcedRunsEmptyQueue(cfg, s, w, front);
    last := CompleteRound(cfg, AfterRounds(cfg, s, w, front), w, now);
  }

  lemma CompleteSnoc(cfg: Config, s: Sched, w: int, front: seq<Round>, last: Round)
    requires AllComplete(cfg, s, w, front) && Complete(cfg, AfterRounds(cfg, s, w, front), w, last)
    ensures AllComplete(cfg, s, w, front + [last])
  {
    assert (front + [last])[..|front|] == front;
  }
}
