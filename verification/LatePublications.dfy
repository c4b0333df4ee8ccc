/** What can still be published for a generation that was cancelled and waited for
    (app/asr_gateway_scheduler.py): three kinds of failure, each of which does occur, and for
    timeouts and drained failures exactly when. */
module LatePublications {
  import opened Pcm
  import opened Jobs
  import opened Batching
  import opened Scheduler
  import opened SchedulerRuns

  /** The generation is cancelled and `wait_session_safe` would return. */
  predicate PastBarrier(s: Sched, key: Key) {
    key in s.core.cancelled && key !in s.core.accepted
  }

  predicate Publishes(cfg: Config, s: Sched, step: Step, job: Job) {
    Enabled(cfg, s, step) && Next(cfg, s, step).ledger.published == s.ledger.published + [job]
  }

  /** Nothing but a queue timeout, the failure of a job drained from a failed worker's queue
      and a failed cleanup is published for a quiet generation. */
  lemma OnlyThreeKinds(cfg: Config, s: Sched, step: Step, key: Key, job: Job)
    requires Quiet(s, key) && job.Owner() == key && Publishes(cfg, s, step, job)
    ensures || (step.PublishTimeout? && s.run.job == job)
            || (step.ReportOne? && s.run.failed[0] == job)
            || (step == CleanOne(Broken) && s.run.jobs[0] == job)
  {
    var before, after := s.ledger.published, Next(cfg, s, step).ledger.published;
    assert after[|before|] == job;
  }

  // ----- timeouts, exactly --------------------------------------------------------------

  /** The state after a step, which does not happen unless it is enabled. */
  function Onward(cfg: Config, s: Sched, step: Step): Sched {
    if Enabled(cfg, s, step) then Next(cfg, s, step) else s
  }

  lemma Chain(all: seq<Job>, said: seq<Job>, now: seq<Job>, more: seq<Job>, rest: seq<Job>)
    requires all == said + now && now == more + rest
    ensures all == said + more + rest
  {
  }

  function TimedOutBy(s: Sched, step: Step): seq<Job> {
    if step.PublishTimeout? && s.run.TimingOut? then [s.run.job] else []
  }

  /** The jobs whose timeout is published by a sequence of steps, in order. */
  function Timeouts(cfg: Config, s: Sched, steps: seq<Step>): seq<Job> {
    if steps == [] then []
    else
      var front, step := steps[..|steps| - 1], steps[|steps| - 1];
      Timeouts(cfg, s, front) + TimedOutBy(Continue(cfg, s, front), step)
  }

  /** The jobs whose timeout a run has yet to publish. */
  function Awaiting(run: Run): seq<Job> {
    if run.Expiring? then run.todo else if run.TimingOut? then [run.job] + run.todo else []
  }

  lemma StepTimesOut(cfg: Config, s: Sched, step: Step)
    requires !step.Begin?
    ensures Awaiting(s.run) == TimedOutBy(s, step) + Awaiting(Onward(cfg, s, step).run)
  {
    if step.ExpireOne? && Enabled(cfg, s, step) {
      assert s.run.todo == [s.run.todo[0]] + s.run.todo[1..];
    }
  }

  lemma {:induction false} TimeoutsAccount(cfg: Config, s: Sched, steps: seq<Step>)
    requires forall i | 0 <= i < |steps| :: !steps[i].Begin?
    ensures Awaiting(s.run) == Timeouts(cfg, s, steps) + Awaiting(Continue(cfg, s, steps).run)
    decreases |steps|
  {
    if steps != [] {
      var front, step := steps[..|steps| - 1], steps[|steps| - 1];
      TimeoutsAccount(cfg, s, front);
      var t := Continue(cfg, s, front);
      StepTimesOut(cfg, t, step);
      Chain(Awaiting(s.run), Timeouts(cfg, s, front), Awaiting(t.run), TimedOutBy(t, step), Awaiting(Onward(cfg, t, step).run));
      assert Continue(cfg, s, steps) == Onward(cfg, t, step);
    }
  }

  /** Whatever is enqueued, cancelled or shut in between, a run begun on a healthy worker
      publishes the timeouts of exactly the jobs that were queued and overdue when it began,
      in queue order, cancelled or not. */
  lemma RunTimesOutOverdue(cfg: Config, s: Sched, w: int, force: bool, now: real, steps: seq<Step>)
    requires Enabled(cfg, s, Begin(w, force, now)) && w !in s.core.failures
    requires forall i | 0 <= i < |steps| :: !steps[i].Begin?
    ensures var begun := Next(cfg, s, Begin(w, force, now));
            Timeouts(cfg, begun, steps) + Awaiting(Continue(cfg, begun, steps).run)
            == Filter(s.core.queues[w], (job: Job) => Overdue(job, now))
  {
    TimeoutsAccount(cfg, Next(cfg, s, Begin(w, force, now)), steps);
  }

  /** So once the run is past its timeouts, a job of a cancelled generation had its timeout
      published if and only if it was queued and overdue when the run began. */
  lemma CancelledTimesOutExactly(cfg: Config, s: Sched, w: int, force: bool, now: real, steps: seq<Step>, job: Job)
    requires Enabled(cfg, s, Begin(w, force, now)) && w !in s.core.failures
    requires forall i | 0 <= i < |steps| :: !steps[i].Begin?
    requires job.Owner() in s.core.cancelled
    requires Awaiting(Continue(cfg, Next(cfg, s, Begin(w, force, now)), steps).run) == []
    ensures job in Timeouts(cfg, Next(cfg, s, Begin(w, force, now)), steps)
            <==> job in s.core.queues[w] && Overdue(job, now)
  {
    RunTimesOutOverdue(cfg, s, w, force, now, steps);
    var timeouts := Timeouts(cfg, Next(cfg, s, Begin(w, force, now)), steps);
    assert timeouts + [] == timeouts;
  }

  // ----- drained failures, exactly ------------------------------------------------------

  /** The drained jobs whose failure is still to be published. */
  function OwedFailures(run: Run): seq<Job> {
    match run
    case Draining(_, _, _, failed) => failed
    case Settling(_, _, _, failed) => failed
    case Closing(_, _, _, _, _, failed) => failed
    case Reporting(failed) => failed
    case _ => []
  }

  function ReportedBy(s: Sched, step: Step): seq<Job> {
    if step.ReportOne? && s.run.Reporting? && s.run.failed != [] then [s.run.failed[0]] else []
  }

  /** The jobs whose drained failure is published by a sequence of steps, in order. */
  function Reports(cfg: Config, s: Sched, steps: seq<Step>): seq<Job> {
    if steps == [] then []
    else
      var front, step := steps[..|steps| - 1], steps[|steps| - 1];
      Reports(cfg, s, front) + ReportedBy(Continue(cfg, s, front), step)
  }

  predicate PastDraining(run: Run) {
    run.Settling? || run.Closing? || run.Reporting? || run.Idle?
  }

  lemma StepReports(cfg: Config, s: Sched, step: Step)
    requires !step.Begin? && PastDraining(s.run)
    ensures PastDraining(Onward(cfg, s, step).run)
    ensures OwedFailures(s.run) == ReportedBy(s, step) + OwedFailures(Onward(cfg, s, step).run)
  {
    if step.ReportOne? && Enabled(cfg, s, step) {
      assert s.run.failed == [s.run.failed[0]] + s.run.failed[1..];
    }
  }

  /** Once a failed worker's queue has been drained, the failures published are exactly the
      ones owed then, whatever is cancelled afterwards. */
  lemma {:induction false} OwedFailuresAreReported(cfg: Config, s: Sched, steps: seq<Step>)
    requires PastDraining(s.run) && forall i | 0 <= i < |steps| :: !steps[i].Begin?
    ensures PastDraining(Continue(cfg, s, steps).run)
    ensures OwedFailures(s.run) == Reports(cfg, s, steps) + OwedFailures(Continue(cfg, s, steps).run)
    decreases |steps|
  {
    if steps != [] {
      var front, step := steps[..|steps| - 1], steps[|steps| - 1];
      OwedFailuresAreReported(cfg, s, front);
      var t := Continue(cfg, s, front);
      StepReports(cfg, t, step);
      Chain(OwedFailures(s.run), Reports(cfg, s, front), OwedFailures(t.run), ReportedBy(t, step),
            OwedFailures(Onward(cfg, t, step).run));
      assert Continue(cfg, s, steps) == Onward(cfg, t, step);
    }
  }

  /** And no failure becomes owed for a generation that is already cancelled. */
  lemma CancelledIsNotOwed(cfg: Config, s: Sched, step: Step, job: Job)
    requires Enabled(cfg, s, step) && job.Owner() in s.core.cancelled
    ensures Count(OwedFailures(Next(cfg, s, step).run), job) <= Count(OwedFailures(s.run), job)
  {
    CountNone(job);
    if step.DrainOne? {
      CountSnoc(s.run.failed, s.run.todo[0], job);
    } else if step.ReportOne? {
      CountFirst(s.run.failed, job);
    }
  }

  // ----- each kind does occur -----------------------------------------------------------

  ghost predicate Leads(cfg: Config, s: Sched, t: Sched) {
    exists steps :: t == Continue(cfg, s, steps)
  }

  lemma LeadsNext(cfg: Config, s: Sched, t: Sched, step: Step)
    requires Leads(cfg, s, t) && Enabled(cfg, t, step)
    ensures Leads(cfg, s, Next(cfg, t, step))
  {
    var steps :| t == Continue(cfg, s, steps);
    assert (steps + [step])[..|steps|] == steps;
    assert Next(cfg, t, step) == Continue(cfg, s, steps + [step]);
  }

  lemma LeadsHere(cfg: Config, s: Sched)
    ensures Leads(cfg, s, s)
  {
    assert s == Continue(cfg, s, []);
  }

  lemma ReachableNext(cfg: Config, s: Sched, step: Step)
    requires Reachable(cfg, s) && Enabled(cfg, s, step)
    ensures Reachable(cfg, Next(cfg, s, step))
  {
    LeadsNext(cfg, Initial(cfg), s, step);
  }

  /** A job that fits the limits by itself, for a worker that can take it. */
  ghost predicate Welcome(cfg: Config, job: Job) {
    && 0 <= job.worker < |cfg.workers| && cfg.maxJobs >= 1
    && 0 < job.Samples() == |job.pcm| <= cfg.maxQueuedSamples
    && job.Samples() <= cfg.workers[job.worker].maxSamples && cfg.workers[job.worker].Limit() >= 1
    && job.enqueuedAt != 0.0
  }

  /** The scheduler with `queue` waiting for one healthy worker and nothing for the others. */
  ghost predicate Simple(cfg: Config, s: Sched, w: int, queue: seq<Job>) {
    && 0 <= w < |cfg.workers| == |s.core.queues|
    && s.core.queues[w] == queue && All(s.core.queues) == queue
    && s.core.failures == {} && !s.core.closed
  }

  /** Replacing the queue of the only worker with jobs. */
  lemma SimpleQueue(cfg: Config, s: Sched, w: int, queue: seq<Job>, after: seq<Job>)
    requires Simple(cfg, s, w, queue)
    ensures All(s.core.queues[w := after]) == after
  {
    var a, b := AllSplit(s.core.queues, w);
    assert s.core.queues[w := queue] == s.core.queues;
    assert |a + queue + b| == |queue|;
    assert a == [] && b == [];
    assert a + after + b == after;
  }

  lemma StartIsSimple(cfg: Config, w: int)
    requires 0 <= w < |cfg.workers|
    ensures Reachable(cfg, Initial(cfg)) && Simple(cfg, Initial(cfg), w, [])
  {
    LeadsHere(cfg, Initial(cfg));
    AllOfNothing(|cfg.workers|);
  }

  /** Everything but the run and the queues is as it was. */
  ghost predicate Alike(s: Sched, t: Sched) {
    t.core.cancelled == s.core.cancelled && t.core.accepted == s.core.accepted && t.ledger.published == s.ledger.published
  }

  /** A job arrives for the only worker in use, whose queue is empty. */
  lemma Arrives(cfg: Config, s: Sched, job: Job) returns (t: Sched)
    requires Reachable(cfg, s) && Welcome(cfg, job) && Simple(cfg, s, job.worker, [])
    requires s.core.queuedSamples + job.Samples() <= cfg.maxQueuedSamples
    ensures Reachable(cfg, t) && Simple(cfg, t, job.worker, [job]) && Alike(s, t) && t.run == s.run
    ensures t.core.queuedSamples == s.core.queuedSamples + job.Samples()
  {
    t := Next(cfg, s, Enqueue(job, 0.0));
    ReachableNext(cfg, s, Enqueue(job, 0.0));
    SimpleQueue(cfg, s, job.worker, [], [job]);
    assert [] + [job] == [job];
  }

  lemma Cancels(cfg: Config, s: Sched, key: Key) returns (t: Sched)
    requires Reachable(cfg, s)
    ensures Reachable(cfg, t) && t == s.(core := s.core.(cancelled := s.core.cancelled + {key}))
  {
    t := Next(cfg, s, Cancel(key));
    ReachableNext(cfg, s, Cancel(key));
  }

  lemma FilterOne(job: Job, keep: Job -> bool)
    ensures Filter([job], keep) == if keep(job) then [job] else []
  {
    assert [job][..0] == [];
  }

  lemma RemoveOne(job: Job)
    ensures Remove([job], job) == []
  {
    RemoveTakesOne([job], job);
  }

  /** A forced run looks at one queued job: is it overdue, is it cancelled? */
  lemma Begins(cfg: Config, s: Sched, job: Job, now: real) returns (t: Sched)
    requires Reachable(cfg, s) && Simple(cfg, s, job.worker, [job]) && s.run.Idle?
    ensures Reachable(cfg, t) && t == s.(run := Expiring(job.worker, true, if Overdue(job, now) then [job] else []))
  {
    t := Next(cfg, s, Begin(job.worker, true, now));
    ReachableNext(cfg, s, Begin(job.worker, true, now));
    FilterOne(job, (x: Job) => Overdue(x, now));
  }

  lemma Scans(cfg: Config, s: Sched, job: Job) returns (t: Sched)
    requires Reachable(cfg, s) && Simple(cfg, s, job.worker, [job]) && s.run == Expiring(job.worker, true, [])
    ensures Reachable(cfg, t)
    ensures t == s.(run := Dropping(job.worker, true, if job.Owner() in s.core.cancelled then [job] else []))
  {
    t := Next(cfg, s, ExpireDone);
    ReachableNext(cfg, s, ExpireDone);
    FilterOne(job, (x: Job) => x.Owner() in s.core.cancelled);
  }

  lemma SelectOne(job: Job, now: real, maxWait: real, caps: Caps)
    requires job.Samples() <= caps.maxSamples && caps.Limit() >= 1
    ensures Sort([job]) == [job] && Select([job], now, maxWait, caps, true) == [job] && RemoveAll([job], [job]) == []
  {
    SortSorts([job]);
    assert |Sort([job])| == |multiset(Sort([job]))| == 1;
    assert Sort([job])[0] in multiset(Sort([job]));
    FilterOne(job, (x: Job) => x.final && Due(x, now, maxWait));
    FilterOne(job, (x: Job) => x.key == job.key);
    GreedyTakesFirst([job], caps);
    var stop := SelectedBatch([job], now, maxWait, caps, true);
    assert |multiset(Select([job], now, maxWait, caps, true))| <= |multiset([job])|;
    RemoveAllTakesBatch([job], [job]);
    assert |RemoveAll([job], [job])| == |multiset(RemoveAll([job], [job]))|;
  }

  lemma Dispatches(cfg: Config, from: Sched, s: Sched, job: Job, now: real) returns (t: Sched)
    requires Leads(cfg, from, s) && Welcome(cfg, job) && Simple(cfg, s, job.worker, [job]) && s.run == Dropping(job.worker, true, [])
    ensures Leads(cfg, from, t) && Simple(cfg, t, job.worker, []) && t.run == Submitted(job.worker, [job])
    ensures t.core.queuedSamples == s.core.queuedSamples && t.core.cancelled == s.core.cancelled
    ensures t.core.accepted == s.core.accepted + {job.Owner()} && t.ledger.published == s.ledger.published
  {
    SelectOne(job, now, cfg.maxWait, cfg.workers[job.worker]);
    SimpleQueue(cfg, s, job.worker, [job], []);
    assert Owners([job]) == {job.Owner()};
    t := Next(cfg, s, Dispatch(now));
    LeadsNext(cfg, from, s, Dispatch(now));
  }

  // ----- a timeout ----------------------------------------------------------------------

  /** Enqueue a job with a queue deadline, cancel its generation, and begin a run after the
      deadline. */
  lemma LateTimeout(cfg: Config, job: Job, now: real) returns (s: Sched)
    requires Welcome(cfg, job) && Overdue(job, now)
    ensures Reachable(cfg, s) && PastBarrier(s, job.Owner())
    ensures Publishes(cfg, s, PublishTimeout, job)
  {
    StartIsSimple(cfg, job.worker);
    s := Arrives(cfg, Initial(cfg), job);
    s := Cancels(cfg, s, job.Owner());
    s := Begins(cfg, s, job, now);
    ReachableNext(cfg, s, ExpireOne);
    s := Next(cfg, s, ExpireOne);
  }

  // ----- a failed cleanup ---------------------------------------------------------------

  lemma Drops(cfg: Config, s: Sched, job: Job) returns (t: Sched)
    requires Reachable(cfg, s) && Simple(cfg, s, job.worker, [job]) && s.run == Dropping(job.worker, true, [job])
    ensures Reachable(cfg, t) && Simple(cfg, t, job.worker, []) && Alike(s, t) && t.run == Dropping(job.worker, true, [])
    ensures t.core.queuedSamples == s.core.queuedSamples - job.Samples()
  {
    t := Next(cfg, s, DropOne);
    ReachableNext(cfg, s, DropOne);
    RemoveOne(job);
    SimpleQueue(cfg, s, job.worker, [job], []);
  }

  /** A run that has just rejected the only job of a cancelled generation. */
  lemma JustDropped(cfg: Config, job: Job, now: real) returns (s: Sched)
    requires Welcome(cfg, job) && !Overdue(job, now)
    ensures Reachable(cfg, s) && PastBarrier(s, job.Owner()) && Simple(cfg, s, job.worker, [])
    ensures s.run == Dropping(job.worker, true, []) && s.core.queuedSamples == 0 && s.core.accepted == {}
  {
    StartIsSimple(cfg, job.worker);
    s := Arrives(cfg, Initial(cfg), job);
    s := Cancels(cfg, s, job.Owner());
    s := Begins(cfg, s, job, now);
    s := Scans(cfg, s, job);
    s := Drops(cfg, s, job);
  }

  lemma CancelledBehindScan(cfg: Config, first: Job, second: Job, now: real) returns (s: Sched)
    requires Welcome(cfg, first) && Welcome(cfg, second) && second.worker == first.worker
    requires first.Owner() != second.Owner() && !Overdue(first, now)
    ensures Reachable(cfg, s) && PastBarrier(s, second.Owner()) && Simple(cfg, s, second.worker, [second])
    ensures s.run == Dropping(second.worker, true, [])
  {
    s := JustDropped(cfg, first, now);
    s := Arrives(cfg, s, second);
    s := Cancels(cfg, s, second.Owner());
  }

  /** While a run rejects the job of one cancelled generation, the job of another is queued and
      its generation is cancelled and found safe; the scan is over, so the job is sent to the
      worker all the same. */
  lemma LateCleanupFailure(cfg: Config, first: Job, second: Job, now: real, raw: InferenceResult)
    returns (s: Sched, t: Sched)
    requires Welcome(cfg, first) && Welcome(cfg, second) && second.worker == first.worker
    requires first.Owner() != second.Owner() && !Overdue(first, now)
    ensures Reachable(cfg, s) && PastBarrier(s, second.Owner()) && InQueue(s, second.worker, second) && Leads(cfg, s, t)
    ensures Publishes(cfg, t, CleanOne(Broken), second)
  {
    s := CancelledBehindScan(cfg, first, second, now);
    LeadsHere(cfg, s);
    t := Dispatches(cfg, s, s, second, now);
    t := Returns(cfg, s, t, second, raw);
  }

  lemma Returns(cfg: Config, from: Sched, s: Sched, job: Job, raw: InferenceResult) returns (t: Sched)
    requires Leads(cfg, from, s) && s.run == Submitted(job.worker, [job])
    ensures Leads(cfg, from, t) && t.run.Settling? && t.run.jobs == [job] && |t.run.results| == 1
    ensures t.ledger == s.ledger
  {
    var step := SubmitReturned([Produced(raw)]);
    t := Next(cfg, s, step);
    LeadsNext(cfg, from, s, step);
  }

  // ----- a drained failure --------------------------------------------------------------

  lemma Fails(cfg: Config, s: Sched, w: int, batch: seq<Job>) returns (t: Sched)
    requires Reachable(cfg, s) && s.run == Submitted(w, batch)
    ensures Reachable(cfg, t) && Alike(s, t) && t.run == Failing(w, batch) && t.core.queues == s.core.queues
  {
    t := Next(cfg, s, SubmitRaised);
    ReachableNext(cfg, s, SubmitRaised);
  }

  lemma Drains(cfg: Config, s: Sched, job: Job, batch: seq<Job>) returns (t: Sched)
    requires Reachable(cfg, s) && s.run == Failing(job.worker, batch) && batch != []
    requires 0 <= job.worker < |s.core.queues| && s.core.queues[job.worker] == [job] && job.Owner() !in s.core.cancelled
    ensures Reachable(cfg, t) && Alike(s, t)
    ensures t.run.Settling? && t.run.jobs == batch && |t.run.results| == |batch| && t.run.failed == [job]
  {
    t := Next(cfg, s, StartDrain);
    ReachableNext(cfg, s, StartDrain);
    ReachableNext(cfg, t, DrainOne(true));
    t := Next(cfg, t, DrainOne(true));
    assert [job][1..] == [] && [] + [job] == [job];
    ReachableNext(cfg, t, DrainDone);
    t := Next(cfg, t, DrainDone);
  }

  lemma Settles(cfg: Config, s: Sched, batch: Job) returns (t: Sched)
    requires Reachable(cfg, s) && s.run.Settling? && s.run.jobs == [batch] && |s.run.results| == 1
    ensures Reachable(cfg, t) && t.run == Reporting(s.run.failed) && t.core.cancelled == s.core.cancelled
    ensures t.core.accepted <= s.core.accepted && t.ledger.published == s.ledger.published
  {
    ReachableNext(cfg, s, CleanOne(Stale));
    t := Next(cfg, s, CleanOne(Stale));
    ReachableNext(cfg, t, CloseOne);
    t := Next(cfg, t, CloseOne);
    ReachableNext(cfg, t, SettleDone);
    t := Next(cfg, t, SettleDone);
  }

  /** A worker that has just been sent its only job. */
  lemma JustSent(cfg: Config, job: Job, now: real) returns (s: Sched)
    requires Welcome(cfg, job) && !Overdue(job, now)
    ensures Reachable(cfg, s) && Simple(cfg, s, job.worker, []) && s.run == Submitted(job.worker, [job])
    ensures s.core.queuedSamples == job.Samples() && s.core.cancelled == {} && s.core.accepted == {job.Owner()}
  {
    StartIsSimple(cfg, job.worker);
    s := Arrives(cfg, Initial(cfg), job);
    s := Begins(cfg, s, job, now);
    s := Scans(cfg, s, job);
    s := Dispatches(cfg, Initial(cfg), s, job, now);
  }

  /** A job waits behind a batch that fails; its failure is owed before its generation is
      cancelled, and published afterwards. */
  lemma LateDrainedFailure(cfg: Config, sent: Job, waiting: Job, now: real) returns (s: Sched)
    requires Welcome(cfg, sent) && Welcome(cfg, waiting) && waiting.worker == sent.worker
    requires sent.Owner() != waiting.Owner() && !Overdue(sent, now)
    requires sent.Samples() + waiting.Samples() <= cfg.maxQueuedSamples
    ensures Reachable(cfg, s) && PastBarrier(s, waiting.Owner())
    ensures Publishes(cfg, s, ReportOne, waiting)
  {
    s := JustDrained(cfg, sent, waiting, now);
    s := Cancels(cfg, s, waiting.Owner());
    s := Settles(cfg, s, sent);
  }

  /** A worker that has failed the job it was sent, with another job drained from its queue. */
  lemma JustDrained(cfg: Config, sent: Job, waiting: Job, now: real) returns (s: Sched)
    requires Welcome(cfg, sent) && Welcome(cfg, waiting) && waiting.worker == sent.worker && !Overdue(sent, now)
    requires sent.Samples() + waiting.Samples() <= cfg.maxQueuedSamples
    ensures Reachable(cfg, s) && s.run.Settling? && s.run.jobs == [sent] && |s.run.results| == 1 && s.run.failed == [waiting]
    ensures s.core.accepted == {sent.Owner()}
  {
    s := JustSent(cfg, sent, now);
    s := Arrives(cfg, s, waiting);
    s := Fails(cfg, s, sent.worker, [sent]);
    s := Drains(cfg, s, waiting, [sent]);
  }
}
