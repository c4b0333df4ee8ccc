/** The gateway scheduler of app/asr_gateway_scheduler.py as a transition system.

    `run_once` suspends at every await, and other tasks may then enqueue and cancel; a
    publication may itself enqueue. A state therefore holds the queues and counters, where
    the suspended `run_once` stands, and a ledger of what has happened to every job. One
    `run_once` is active at a time, as the scheduler's own loop runs it. */
module Scheduler {
  import opened Pcm
  import opened Jobs
  import opened Batching

  datatype Config = Config(workers: seq<Caps>, maxWait: real, maxJobs: nat, maxQueuedSamples: int)

  datatype Core = Core(
    queues: seq<seq<Job>>,
    queuedSamples: int,
    cancelled: set<Key>,
    accepted: set<Key>,
    failures: set<int>,
    closed: bool)

  datatype Activity = Discarding | Publishing(adapterProduced: bool)

  /** Where the suspended `run_once` stands. */
  datatype Run =
    | Idle
    | Expiring(w: int, force: bool, todo: seq<Job>)
    | TimingOut(w: int, force: bool, job: Job, todo: seq<Job>)
    | Dropping(w: int, force: bool, todo: seq<Job>)
    | Submitted(w: int, batch: seq<Job>)
    | Failing(w: int, batch: seq<Job>)
    | Draining(w: int, batch: seq<Job>, todo: seq<Job>, failed: seq<Job>)
    | Settling(w: int, jobs: seq<Job>, results: seq<InferenceResult>, failed: seq<Job>)
    | Closing(w: int, job: Job, activity: Activity, jobs: seq<Job>, results: seq<InferenceResult>, failed: seq<Job>)
    | Reporting(failed: seq<Job>)

  /** The jobs accepted, sent to a worker, cleaned up, rejected, published, and published
      with a result their adapter produced, each in the order it happened; and the results
      that were published. */
  datatype Ledger = Ledger(
    enqueued: seq<Job>,
    dispatched: seq<Job>,
    cleaned: seq<Job>,
    rejected: seq<Job>,
    published: seq<Job>,
    adapterPublished: seq<Job>,
    outbox: seq<InferenceResult>)

  datatype Sched = Sched(core: Core, run: Run, ledger: Ledger)

  datatype Error = Closed | UnknownWorker | WorkerFailed | BadRange | JobLimit | AudioLimit

  datatype Raw = Malformed | Produced(result: InferenceResult)

  datatype Cleanup = Clean | Stale | Broken

  datatype Step =
    | Enqueue(job: Job, now: real)
    | Cancel(key: Key)
    | Shut
    | Begin(w: int, force: bool, now: real)
    | ExpireOne
    | PublishTimeout
    | ExpireDone
    | DropOne
    | Dispatch(now: real)
    | SubmitReturned(raws: seq<Raw>)
    | SubmitRaised
    | StartDrain
    | DrainOne(rejectOk: bool)
    | DrainDone
    | CleanOne(outcome: Cleanup)
    | CloseOne
    | SettleDone
    | ReportOne
    | ReportDone

  // ----- queues --------------------------------------------------------------------------

  function All(queues: seq<seq<Job>>): seq<Job> {
    if queues == [] then [] else All(queues[..|queues| - 1]) + queues[|queues| - 1]
  }

  lemma {:induction false} AllSplit(queues: seq<seq<Job>>, w: int) returns (a: seq<Job>, b: seq<Job>)
    requires 0 <= w < |queues|
    ensures forall queue :: All(queues[w := queue]) == a + queue + b
  {
    var n := |queues| - 1;
    if w < n {
      var front := queues[..n];
      var b0;
      a, b0 := AllSplit(front, w);
      b := b0 + queues[n];
      forall queue
        ensures All(queues[w := queue]) == a + queue + b
      {
        assert queues[w := queue][..n] == front[w := queue];
        assert a + queue + b0 + queues[n] == a + queue + b;
      }
    } else {
      a, b := All(queues[..n]), [];
      forall queue
        ensures All(queues[w := queue]) == a + queue + b
      {
        assert queues[w := queue][..n] == queues[..n];
        assert a + queue + [] == a + queue;
      }
    }
  }

  /** Replacing one worker's queue moves the totals by the difference. */
  lemma AllUpdate(queues: seq<seq<Job>>, w: int, queue: seq<Job>, x: Job)
    requires 0 <= w < |queues|
    ensures |All(queues[w := queue])| == |All(queues)| - |queues[w]| + |queue|
    ensures Total(All(queues[w := queue])) == Total(All(queues)) - Total(queues[w]) + Total(queue)
    ensures Count(All(queues[w := queue]), x) == Count(All(queues), x) - Count(queues[w], x) + Count(queue, x)
  {
    var a, b := AllSplit(queues, w);
    assert queues[w := queues[w]] == queues;
    SpliceFacts(a, queue, b, x);
    SpliceFacts(a, queues[w], b, x);
  }

  lemma SpliceFacts(a: seq<Job>, queue: seq<Job>, b: seq<Job>, x: Job)
    ensures Total(a + queue + b) == Total(a) + Total(queue) + Total(b)
    ensures Count(a + queue + b, x) == Count(a, x) + Count(queue, x) + Count(b, x)
  {
    TotalConcat(a, queue);
    TotalConcat(a + queue, b);
    CountConcat(a, queue, x);
    CountConcat(a + queue, b, x);
  }

  function SetQueue(core: Core, w: int, queue: seq<Job>): Core
    requires 0 <= w < |core.queues|
  {
    core.(queues := core.queues[w := queue])
  }

  /** A job leaves its queue: its samples are released with it. */
  function TakeOut(core: Core, w: int, job: Job): Core
    requires 0 <= w < |core.queues| && job in core.queues[w]
  {
    Release(core, w, Remove(core.queues[w], job), job.Samples())
  }

  function Release(core: Core, w: int, rest: seq<Job>, samples: int): Core
    requires 0 <= w < |core.queues|
  {
    SetQueue(core, w, rest).(queuedSamples := core.queuedSamples - samples)
  }

  function Emptied(core: Core, w: int): Core
    requires 0 <= w < |core.queues|
  {
    Release(core, w, [], Total(core.queues[w]))
  }

  function Refusal(cfg: Config, core: Core, job: Job): Option<Error> {
    if core.closed then Some(Closed)
    else if !(0 <= job.worker < |core.queues|) then Some(UnknownWorker)
    else if job.worker in core.failures then Some(WorkerFailed)
    else if job.Samples() <= 0 || |job.pcm| != job.Samples() then Some(BadRange)
    else if |All(core.queues)| >= cfg.maxJobs then Some(JobLimit)
    else if core.queuedSamples + job.Samples() > cfg.maxQueuedSamples then Some(AudioLimit)
    else None
  }

  /** An arrival time of zero means the job has not been stamped yet. */
  function Stamped(job: Job, now: real): Job {
    if job.enqueuedAt == 0.0 then job.(enqueuedAt := now) else job
  }

  function Admit(core: Core, job: Job): Core
    requires 0 <= job.worker < |core.queues|
  {
    SetQueue(core, job.worker, core.queues[job.worker] + [job]).(queuedSamples := core.queuedSamples + job.Samples())
  }

  // ----- what a suspended run is holding -------------------------------------------------

  /** Jobs at a worker that have not been cleaned up. */
  function InFlight(run: Run): seq<Job> {
    match run
    case Submitted(_, batch) => batch
    case Failing(_, batch) => batch
    case Draining(_, batch, _, _) => batch
    case Settling(_, jobs, _, _) => jobs
    case Closing(_, _, _, jobs, _, _) => jobs
    case _ => []
  }

  /** Jobs whose session may not yet be treated as safe. */
  function Unsafe(run: Run): seq<Job> {
    if run.Closing? then [run.job] + run.jobs else InFlight(run)
  }

  /** Jobs at a worker whose samples still count against the audio limit. */
  function Charged(run: Run): seq<Job> {
    if run.Submitted? || run.Failing? || run.Draining? then run.batch else []
  }

  /** Jobs pulled off a failed worker's queue and not yet rejected. */
  function Pulled(run: Run): seq<Job> {
    if run.Draining? then run.todo else []
  }

  /** Jobs already settled whose failure is still to be published. */
  function Owed(run: Run): seq<Job> {
    match run
    case TimingOut(_, _, job, _) => [job]
    case Draining(_, _, _, failed) => failed
    case Settling(_, _, _, failed) => failed
    case Closing(_, _, _, _, _, failed) => failed
    case Reporting(failed) => failed
    case _ => []
  }

  function Owners(jobs: seq<Job>): set<Key> {
    set job | job in jobs :: job.Owner()
  }

  // ----- the steps -----------------------------------------------------------------------

  function Coerce(job: Job, result: InferenceResult): InferenceResult {
    if (result.id, result.session, result.worker, result.start, result.end)
       == (job.id, job.session, job.worker, job.start, job.end)
    then result else FailureOf(job, "invalid adapter result identity")
  }

  predicate WellFormed(raws: seq<Raw>, batch: seq<Job>) {
    |raws| == |batch| && forall i | 0 <= i < |raws| :: raws[i].Produced?
  }

  predicate Enabled(cfg: Config, s: Sched, step: Step) {
    match step
    case Enqueue(job, _) => Refusal(cfg, s.core, job).None?
    case Cancel(_) => true
    case Shut => true
    case Begin(w, _, _) => s.run.Idle? && 0 <= w < |s.core.queues| && (w in s.core.failures || s.core.queues[w] != [])
    case ExpireOne => s.run.Expiring? && s.run.todo != [] && InQueue(s, s.run.w, s.run.todo[0])
    case PublishTimeout => s.run.TimingOut?
    case ExpireDone => s.run.Expiring? && s.run.todo == [] && 0 <= s.run.w < |s.core.queues|
    case DropOne => s.run.Dropping? && s.run.todo != [] && InQueue(s, s.run.w, s.run.todo[0])
    case Dispatch(_) => s.run.Dropping? && s.run.todo == [] && 0 <= s.run.w < |s.core.queues| <= |cfg.workers|
    case SubmitReturned(_) => s.run.Submitted?
    case SubmitRaised => s.run.Submitted?
    case StartDrain => s.run.Failing? && 0 <= s.run.w < |s.core.queues|
    case DrainOne(_) => s.run.Draining? && s.run.todo != []
    case DrainDone => s.run.Draining? && s.run.todo == []
    case CleanOne(_) => s.run.Settling? && s.run.jobs != [] && |s.run.results| == |s.run.jobs|
    case CloseOne => s.run.Closing?
    case SettleDone => s.run.Settling? && s.run.jobs == []
    case ReportOne => s.run.Reporting? && s.run.failed != []
    case ReportDone => s.run.Reporting? && s.run.failed == []
  }

  predicate InQueue(s: Sched, w: int, job: Job) {
    0 <= w < |s.core.queues| && job in s.core.queues[w]
  }

  function Rejected(ledger: Ledger, job: Job): Ledger {
    ledger.(rejected := ledger.rejected + [job])
  }

  function Published(ledger: Ledger, job: Job, result: InferenceResult): Ledger {
    ledger.(published := ledger.published + [job], outbox := ledger.outbox + [result])
  }

  /** The state once `batch` has left a worker's queue, leaving `rest`, for the worker. */
  function SendTo(s: Sched, w: int, rest: seq<Job>, batch: seq<Job>): Sched
    requires 0 <= w < |s.core.queues|
  {
    s.(core := SetQueue(s.core, w, rest).(accepted := s.core.accepted + Owners(batch)),
       run := Submitted(w, batch),
       ledger := s.ledger.(dispatched := s.ledger.dispatched + batch))
  }

  /** Sorting the queue, and sending the selected jobs to the worker. */
  function Dispatched(cfg: Config, s: Sched, now: real): Sched
    requires Enabled(cfg, s, Dispatch(now))
  {
    var w := s.run.w;
    var sorted := Sort(s.core.queues[w]);
    var batch := Select(sorted, now, cfg.maxWait, cfg.workers[w], s.run.force);
    SelectedIsQueued(sorted, now, cfg.maxWait, cfg.workers[w], s.run.force);
    if batch == [] then
      s.(core := SetQueue(s.core, w, sorted), run := Idle)
    else
      SendTo(s, w, RemoveAll(sorted, batch), batch)
  }

  /** Cleaning up after one job of a finished batch, and what its session is told. */
  function Cleaned(s: Sched, outcome: Cleanup): Sched
    requires s.run.Settling? && s.run.jobs != [] && |s.run.results| == |s.run.jobs|
  {
    var r := s.run;
    var job, result := r.jobs[0], r.results[0];
    var ledger := s.ledger.(cleaned := s.ledger.cleaned + [job]);
    var current := result.generation == job.generation && result.sequence == job.sequence;
    if outcome == Broken then
      s.(run := Closing(r.w, job, Publishing(false), r.jobs[1..], r.results[1..], r.failed),
         ledger := Published(ledger, job, FailureOf(job, "cleanup_failed")))
    else if outcome == Clean && job.Owner() !in s.core.cancelled && current then
      s.(run := Closing(r.w, job, Publishing(true), r.jobs[1..], r.results[1..], r.failed),
         ledger := Published(ledger, job, result).(adapterPublished := ledger.adapterPublished + [job]))
    else
      s.(run := Closing(r.w, job, Discarding, r.jobs[1..], r.results[1..], r.failed), ledger := ledger)
  }

  function Enqueued(s: Sched, job: Job): Sched
    requires 0 <= job.worker < |s.core.queues|
  {
    s.(core := Admit(s.core, job), ledger := s.ledger.(enqueued := s.ledger.enqueued + [job]))
  }

  predicate Overdue(job: Job, now: real) {
    job.queueDeadline.Some? && now > job.queueDeadline.value
  }

  /** A run starts: a failed worker's queue is drained, another one scanned for overdue jobs. */
  function Begun(s: Sched, w: int, force: bool, now: real): Sched
    requires 0 <= w < |s.core.queues|
  {
    if w in s.core.failures then
      Drained(s, w, [])
    else
      s.(run := Expiring(w, force, Filter(s.core.queues[w], (job: Job) => Overdue(job, now))))
  }

  function Drained(s: Sched, w: int, batch: seq<Job>): Sched
    requires 0 <= w < |s.core.queues|
  {
    s.(core := Emptied(s.core, w), run := Draining(w, batch, s.core.queues[w], []))
  }

  function ExpiredOne(s: Sched): Sched
    requires s.run.Expiring? && s.run.todo != [] && InQueue(s, s.run.w, s.run.todo[0])
  {
    var job := s.run.todo[0];
    s.(core := TakeOut(s.core, s.run.w, job), run := TimingOut(s.run.w, s.run.force, job, s.run.todo[1..]),
       ledger := Rejected(s.ledger, job))
  }

  function DroppedOne(s: Sched): Sched
    requires s.run.Dropping? && s.run.todo != [] && InQueue(s, s.run.w, s.run.todo[0])
  {
    var job := s.run.todo[0];
    s.(core := TakeOut(s.core, s.run.w, job), run := Dropping(s.run.w, s.run.force, s.run.todo[1..]),
       ledger := Rejected(s.ledger, job))
  }

  function TimedOut(s: Sched): Sched
    requires s.run.TimingOut?
  {
    s.(run := Expiring(s.run.w, s.run.force, s.run.todo), ledger := Published(s.ledger, s.run.job, FailureOf(s.run.job, "queue_timeout")))
  }

  /** The overdue jobs are gone: what is left is scanned for cancelled generations. */
  function Scanned(s: Sched): Sched
    requires s.run.Expiring? && 0 <= s.run.w < |s.core.queues|
  {
    var cancelled := Filter(s.core.queues[s.run.w], (job: Job) => job.Owner() in s.core.cancelled);
    s.(run := if s.core.queues[s.run.w] == [] then Idle else Dropping(s.run.w, s.run.force, cancelled))
  }

  /** The batch is done: its samples are released before anything about it is published. */
  function Completed(s: Sched, w: int, batch: seq<Job>, results: seq<InferenceResult>, failed: seq<Job>): Sched {
    s.(core := s.core.(queuedSamples := s.core.queuedSamples - Total(batch)), run := Settling(w, batch, results, failed))
  }

  function Results(batch: seq<Job>, raws: seq<Raw>): seq<InferenceResult>
    requires WellFormed(raws, batch)
  {
    seq(|batch|, i requires 0 <= i < |batch| && WellFormed(raws, batch) => Coerce(batch[i], raws[i].result))
  }

  function Failures(batch: seq<Job>): seq<InferenceResult> {
    seq(|batch|, i requires 0 <= i < |batch| => FailureOf(batch[i], "batch failed"))
  }

  function Failed(s: Sched): Sched
    requires s.run.Submitted?
  {
    s.(core := s.core.(failures := s.core.failures + {s.run.w}), run := Failing(s.run.w, s.run.batch))
  }

  function DrainedOne(s: Sched, rejectOk: bool): Sched
    requires s.run.Draining? && s.run.todo != []
  {
    var job := s.run.todo[0];
    var failed := if rejectOk && job.Owner() !in s.core.cancelled then s.run.failed + [job] else s.run.failed;
    s.(run := Draining(s.run.w, s.run.batch, s.run.todo[1..], failed), ledger := Rejected(s.ledger, job))
  }

  function MadeSafe(s: Sched): Sched
    requires s.run.Closing?
  {
    s.(core := s.core.(accepted := s.core.accepted - {s.run.job.Owner()}),
       run := Settling(s.run.w, s.run.jobs, s.run.results, s.run.failed))
  }

  function Reported(s: Sched): Sched
    requires s.run.Reporting? && s.run.failed != []
  {
    s.(run := Reporting(s.run.failed[1..]), ledger := Published(s.ledger, s.run.failed[0], FailureOf(s.run.failed[0], "batch failed")))
  }

  function Next(cfg: Config, s: Sched, step: Step): Sched
    requires Enabled(cfg, s, step)
  {
    match step
    case Enqueue(job, now) => Enqueued(s, Stamped(job, now))
    case Cancel(key) => s.(core := s.core.(cancelled := s.core.cancelled + {key}))
    case Shut => s.(core := s.core.(closed := true))
    case Begin(w, force, now) => Begun(s, w, force, now)
    case ExpireOne => ExpiredOne(s)
    case PublishTimeout => TimedOut(s)
    case ExpireDone => Scanned(s)
    case DropOne => DroppedOne(s)
    case Dispatch(now) => Dispatched(cfg, s, now)
    case SubmitReturned(raws) =>
      if WellFormed(raws, s.run.batch) then Completed(s, s.run.w, s.run.batch, Results(s.run.batch, raws), []) else Failed(s)
    case SubmitRaised => Failed(s)
    case StartDrain => Drained(s, s.run.w, s.run.batch)
    case DrainOne(rejectOk) => DrainedOne(s, rejectOk)
    case DrainDone =>
      if s.run.batch == [] then s.(run := Reporting(s.run.failed))
      else Completed(s, s.run.w, s.run.batch, Failures(s.run.batch), s.run.failed)
    case CleanOne(outcome) => Cleaned(s, outcome)
    case CloseOne => MadeSafe(s)
    case SettleDone => s.(run := Reporting(s.run.failed))
    case ReportOne => Reported(s)
    case ReportDone => s.(run := Idle)
  }

  // ----- the invariant -------------------------------------------------------------------

  /** Jobs a suspended run has yet to take out of its worker's queue. */
  function Todo(run: Run): seq<Job> {
    if run.Expiring? || run.TimingOut? || run.Dropping? then run.todo else []
  }

  /** A failed worker's queue is empty as soon as it has been drained, and no failed worker
      is being served. */
  ghost predicate ShapeInv(cfg: Config, s: Sched) {
    && |s.core.queues| == |cfg.workers|
    && (forall w | 0 <= w < |s.core.queues| && w in s.core.failures ::
          s.core.queues[w] == [] || (s.run.Failing? && s.run.w == w))
    && (!s.run.Idle? && !s.run.Reporting? ==> 0 <= s.run.w < |s.core.queues|)
    && (s.run.Expiring? || s.run.TimingOut? || s.run.Dropping? || s.run.Submitted? ==> s.run.w !in s.core.failures)
    && (s.run.Settling? || s.run.Closing? ==> |s.run.results| == |s.run.jobs|)
  }

  /** The sample counter is the sum over queued jobs and jobs at a worker whose batch has
      not completed, and both limits hold. */
  ghost predicate CountsInv(cfg: Config, s: Sched) {
    && s.core.queuedSamples == Total(All(s.core.queues)) + Total(Charged(s.run))
    && |All(s.core.queues)| <= cfg.maxJobs
    && s.core.queuedSamples <= cfg.maxQueuedSamples
  }

  /** The accepted-event map holds exactly the owners of the jobs still unsafe. */
  ghost predicate KeysInv(s: Sched) {
    && s.core.accepted == Owners(Unsafe(s.run))
    && DistinctSessions(Unsafe(s.run))
  }

  /** Every time a job was enqueued it is in exactly one place: queued, pulled off a failed
      worker's queue, rejected, at a worker, or cleaned up; it is published only after it
      was rejected or cleaned up, no more often than that; and what a run has yet to take
      out of a queue is still there. */
  ghost predicate LedgerAt(s: Sched, x: Job) {
    var l := s.ledger;
    && Count(l.enqueued, x) ==
       Count(All(s.core.queues), x) + Count(Pulled(s.run), x) + Count(l.rejected, x) + Count(l.dispatched, x)
    && Count(l.dispatched, x) == Count(InFlight(s.run), x) + Count(l.cleaned, x)
    && Count(l.published, x) + Count(Owed(s.run), x) <= Count(l.cleaned, x) + Count(l.rejected, x)
    && Count(l.adapterPublished, x) <= Count(l.cleaned, x)
    && (Count(l.enqueued, x) > 0 ==> x.Samples() > 0)
    && (Todo(s.run) != [] ==>
          0 <= s.run.w < |s.core.queues| && Count(Todo(s.run), x) <= Count(s.core.queues[s.run.w], x))
  }

  ghost predicate Inv(cfg: Config, s: Sched) {
    ShapeInv(cfg, s) && CountsInv(cfg, s) && KeysInv(s) && forall x :: LedgerAt(s, x)
  }

  // ----- every step keeps it -------------------------------------------------------------

  lemma TakeOutFacts(core: Core, w: int, job: Job, x: Job)
    requires 0 <= w < |core.queues| && job in core.queues[w]
    ensures var rest := Remove(core.queues[w], job);
            var after := Release(core, w, rest, job.Samples());
            && Count(rest, x) == Count(core.queues[w], x) - (if x == job then 1 else 0)
            && Count(All(after.queues), x) == Count(All(core.queues), x) - (if x == job then 1 else 0)
            && |All(after.queues)| == |All(core.queues)| - 1
            && after.queuedSamples - Total(All(after.queues)) == core.queuedSamples - Total(All(core.queues))
  {
    RemoveTakesOne(core.queues[w], job);
    RemoveCount(core.queues[w], job, x);
    AllUpdate(core.queues, w, Remove(core.queues[w], job), x);
  }

  lemma {:induction false} TotalPositive(jobs: seq<Job>)
    requires forall job | job in jobs :: job.Samples() > 0
    ensures Total(jobs) >= 0
  {
    if jobs != [] {
      TotalPositive(jobs[..|jobs| - 1]);
    }
  }

  lemma {:induction false} AllContains(queues: seq<seq<Job>>, w: int, job: Job)
    requires 0 <= w < |queues| && job in queues[w]
    ensures job in All(queues)
  {
    if w < |queues| - 1 {
      AllContains(queues[..|queues| - 1], w, job);
    }
  }

  /** Every job queued or at a worker was enqueued, and so has samples. */
  lemma JobsArePositive(s: Sched, job: Job)
    requires LedgerAt(s, job)
    requires job in All(s.core.queues) || job in InFlight(s.run)
    ensures job.Samples() > 0
  {
    CountMember(All(s.core.queues), job);
    CountMember(InFlight(s.run), job);
  }

  lemma DispatchFacts(cfg: Config, s: Sched, now: real, x: Job)
    requires Enabled(cfg, s, Dispatch(now))
    ensures var w := s.run.w;
            var sorted := Sort(s.core.queues[w]);
            var batch := Select(sorted, now, cfg.maxWait, cfg.workers[w], s.run.force);
            && multiset(batch) <= multiset(sorted)
            && Outcome(s, w, RemoveAll(sorted, batch), batch, x)
            && (batch == [] ==> RemoveAll(sorted, batch) == sorted)
  {
    var w := s.run.w;
    var queue := s.core.queues[w];
    var sorted := Sort(queue);
    SortSorts(queue);
    var batch := Select(sorted, now, cfg.maxWait, cfg.workers[w], s.run.force);
    SelectedIsQueued(sorted, now, cfg.maxWait, cfg.workers[w], s.run.force);
    RemoveAllTakesBatch(sorted, batch);
    SameCount(sorted, queue, x);
    RemoveAllCount(sorted, batch, x);
    AllUpdate(s.core.queues, w, RemoveAll(sorted, batch), x);
  }

  /** `rest` and `batch` divide a worker's queue between them. */
  ghost predicate Outcome(s: Sched, w: int, rest: seq<Job>, batch: seq<Job>, x: Job) {
    && 0 <= w < |s.core.queues|
    && DistinctSessions(batch)
    && |All(s.core.queues[w := rest])| == |All(s.core.queues)| - |batch|
    && Total(All(s.core.queues[w := rest])) == Total(All(s.core.queues)) - Total(batch)
    && Count(All(s.core.queues[w := rest]), x) == Count(All(s.core.queues), x) - Count(batch, x)
  }

  // The step by step proof takes each part of the invariant in turn: shape, counters, keys,
  // ledger; a step that leaves what a part speaks of alone keeps that part.

  lemma ShapeKept(cfg: Config, s: Sched, step: Step)
    requires ShapeInv(cfg, s) && Enabled(cfg, s, step)
    ensures ShapeInv(cfg, Next(cfg, s, step))
  {
    if QueueStep(step) {
      ShapeQueueStep(cfg, s, step);
    } else {
      ShapeRunStep(cfg, s, step);
    }
  }

  lemma ShapeQueueStep(cfg: Config, s: Sched, step: Step)
    requires ShapeInv(cfg, s) && Enabled(cfg, s, step) && QueueStep(step)
    ensures ShapeInv(cfg, Next(cfg, s, step))
  {
  }

  lemma ShapeRunStep(cfg: Config, s: Sched, step: Step)
    requires ShapeInv(cfg, s) && Enabled(cfg, s, step) && !QueueStep(step)
    ensures ShapeInv(cfg, Next(cfg, s, step))
  {
  }

  // ----- counters ------------------------------------------------------------------------

  lemma CountsEnqueue(cfg: Config, s: Sched, job: Job)
    requires CountsInv(cfg, s) && 0 <= job.worker < |s.core.queues|
    requires |All(s.core.queues)| < cfg.maxJobs && s.core.queuedSamples + job.Samples() <= cfg.maxQueuedSamples
    ensures CountsInv(cfg, Enqueued(s, job))
  {
    var queue := s.core.queues[job.worker];
    TotalConcat(queue, [job]);
    assert Total([job]) == Total([]) + job.Samples();
    AllUpdate(s.core.queues, job.worker, queue + [job], job);
  }

  lemma CountsTakeOut(cfg: Config, s: Sched, w: int, job: Job, run: Run, ledger: Ledger)
    requires CountsInv(cfg, s) && InQueue(s, w, job) && LedgerAt(s, job)
    requires Charged(s.run) == Charged(run) == []
    ensures CountsInv(cfg, s.(core := TakeOut(s.core, w, job), run := run, ledger := ledger))
  {
    AllContains(s.core.queues, w, job);
    JobsArePositive(s, job);
    TakeOutFacts(s.core, w, job, job);
  }

  lemma CountsSend(cfg: Config, s: Sched, w: int, rest: seq<Job>, batch: seq<Job>, x: Job)
    requires CountsInv(cfg, s) && Charged(s.run) == [] && Outcome(s, w, rest, batch, x)
    ensures CountsInv(cfg, SendTo(s, w, rest, batch))
    ensures batch == [] ==> CountsInv(cfg, s.(core := SetQueue(s.core, w, rest), run := Idle))
  {
  }

  lemma CountsDispatch(cfg: Config, s: Sched, now: real, x: Job)
    requires CountsInv(cfg, s) && Enabled(cfg, s, Dispatch(now))
    ensures CountsInv(cfg, Dispatched(cfg, s, now))
  {
    DispatchFacts(cfg, s, now, x);
    var sorted := Sort(s.core.queues[s.run.w]);
    var batch := Select(sorted, now, cfg.maxWait, cfg.workers[s.run.w], s.run.force);
    CountsSend(cfg, s, s.run.w, RemoveAll(sorted, batch), batch, x);
  }

  lemma CountsDrain(cfg: Config, s: Sched, w: int, batch: seq<Job>)
    requires CountsInv(cfg, s) && 0 <= w < |s.core.queues| && Charged(s.run) == batch
    requires forall x :: LedgerAt(s, x)
    ensures CountsInv(cfg, Drained(s, w, batch))
  {
    var x: Job :| true;
    AllUpdate(s.core.queues, w, [], x);
    forall job | job in s.core.queues[w] ensures job.Samples() > 0 {
      AllContains(s.core.queues, w, job);
      JobsArePositive(s, job);
    }
    TotalPositive(s.core.queues[w]);
  }

  lemma CountsComplete(cfg: Config, s: Sched, results: seq<InferenceResult>, failed: seq<Job>)
    requires CountsInv(cfg, s) && (s.run.Submitted? || s.run.Draining?)
    requires forall x :: LedgerAt(s, x)
    ensures CountsInv(cfg, Completed(s, s.run.w, s.run.batch, results, failed))
  {
    forall job | job in s.run.batch ensures job.Samples() > 0 {
      JobsArePositive(s, job);
    }
    TotalPositive(s.run.batch);
  }

  /** Steps that put jobs into a queue or take them out. */
  predicate QueueStep(step: Step) {
    step.Enqueue? || step.Begin? || step.ExpireOne? || step.DropOne? || step.Dispatch?
  }

  lemma CountsQueueStep(cfg: Config, s: Sched, step: Step)
    requires Inv(cfg, s) && Enabled(cfg, s, step) && QueueStep(step)
    ensures CountsInv(cfg, Next(cfg, s, step))
  {
    if step.Enqueue? {
      CountsEnqueue(cfg, s, Stamped(step.job, step.now));
    } else if step.Begin? {
      CountsBegin(cfg, s, step.w, step.force, step.now);
    } else if step.Dispatch? {
      var x: Job :| true;
      CountsDispatch(cfg, s, step.now, x);
    } else if step.ExpireOne? {
      CountsExpire(cfg, s);
    } else {
      CountsDrop(cfg, s);
    }
  }

  lemma CountsExpire(cfg: Config, s: Sched)
    requires CountsInv(cfg, s) && Enabled(cfg, s, ExpireOne) && LedgerAt(s, s.run.todo[0])
    ensures CountsInv(cfg, ExpiredOne(s))
  {
    CountsTakeOut(cfg, s, s.run.w, s.run.todo[0], ExpiredOne(s).run, ExpiredOne(s).ledger);
  }

  lemma CountsDrop(cfg: Config, s: Sched)
    requires CountsInv(cfg, s) && Enabled(cfg, s, DropOne) && LedgerAt(s, s.run.todo[0])
    ensures CountsInv(cfg, DroppedOne(s))
  {
    CountsTakeOut(cfg, s, s.run.w, s.run.todo[0], DroppedOne(s).run, DroppedOne(s).ledger);
  }

  lemma CountsBegin(cfg: Config, s: Sched, w: int, force: bool, now: real)
    requires CountsInv(cfg, s) && s.run.Idle? && 0 <= w < |s.core.queues|
    requires forall x :: LedgerAt(s, x)
    ensures CountsInv(cfg, Begun(s, w, force, now))
  {
    if w in s.core.failures {
      CountsDrain(cfg, s, w, []);
    }
  }

  lemma CountsKept(cfg: Config, s: Sched, step: Step)
    requires Inv(cfg, s) && Enabled(cfg, s, step)
    ensures CountsInv(cfg, Next(cfg, s, step))
  {
    if QueueStep(step) {
      CountsQueueStep(cfg, s, step);
    } else if step.SubmitReturned? {
      if WellFormed(step.raws, s.run.batch) {
        CountsComplete(cfg, s, Results(s.run.batch, step.raws), []);
      }
    } else if step.StartDrain? {
      CountsDrain(cfg, s, s.run.w, s.run.batch);
    } else if step.DrainDone? {
      CountsComplete(cfg, s, Failures(s.run.batch), s.run.failed);
    } else {
      CountsUntouched(cfg, s, step);
    }
  }

  lemma CountsUntouched(cfg: Config, s: Sched, step: Step)
    requires Enabled(cfg, s, step)
    requires !QueueStep(step) && !step.SubmitReturned? && !step.StartDrain? && !step.DrainDone?
    ensures var t := Next(cfg, s, step);
            && t.core.queues == s.core.queues && t.core.queuedSamples == s.core.queuedSamples
            && Charged(t.run) == Charged(s.run)
  {
  }

  // ----- keys ----------------------------------------------------------------------------

  lemma OwnersSplit(job: Job, jobs: seq<Job>)
    ensures Owners([job] + jobs) == Owners(jobs) + {job.Owner()}
    ensures DistinctSessions([job] + jobs) ==> job.Owner() !in Owners(jobs) && DistinctSessions(jobs)
  {
    var all := [job] + jobs;
    assert all[0] == job && all[1..] == jobs;
    forall x | x in jobs ensures x in all {
    }
    if DistinctSessions(all) {
      forall x | x in jobs ensures x.Owner() != job.Owner() {
        var k :| 0 <= k < |jobs| && jobs[k] == x;
        assert all[k + 1] == x;
      }
      forall i, j | 0 <= i < j < |jobs| ensures jobs[i].session != jobs[j].session {
        assert all[i + 1] == jobs[i] && all[j + 1] == jobs[j];
      }
    }
  }

  lemma KeysSend(s: Sched, w: int, rest: seq<Job>, batch: seq<Job>)
    requires KeysInv(s) && s.run.Dropping? && 0 <= w < |s.core.queues| && DistinctSessions(batch)
    ensures KeysInv(SendTo(s, w, rest, batch))
    ensures KeysInv(s.(core := SetQueue(s.core, w, rest), run := Idle))
  {
    assert Owners([]) == {};
  }

  lemma KeysDispatch(cfg: Config, s: Sched, now: real)
    requires KeysInv(s) && Enabled(cfg, s, Dispatch(now))
    ensures KeysInv(Dispatched(cfg, s, now))
  {
    var sorted := Sort(s.core.queues[s.run.w]);
    var batch := Select(sorted, now, cfg.maxWait, cfg.workers[s.run.w], s.run.force);
    SelectedIsQueued(sorted, now, cfg.maxWait, cfg.workers[s.run.w], s.run.force);
    KeysSend(s, s.run.w, RemoveAll(sorted, batch), batch);
    KeysSend(s, s.run.w, sorted, batch);
  }

  lemma KeysKept(cfg: Config, s: Sched, step: Step)
    requires KeysInv(s) && Enabled(cfg, s, step)
    ensures KeysInv(Next(cfg, s, step))
  {
    if step.Dispatch? {
      KeysDispatch(cfg, s, step.now);
    } else if step.CleanOne? {
      assert s.run.jobs == [s.run.jobs[0]] + s.run.jobs[1..];
    } else if step.CloseOne? {
      OwnersSplit(s.run.job, s.run.jobs);
    } else {
      KeysUntouched(cfg, s, step);
    }
  }

  lemma KeysUntouched(cfg: Config, s: Sched, step: Step)
    requires Enabled(cfg, s, step) && !step.Dispatch? && !step.CleanOne? && !step.CloseOne?
    ensures Unsafe(Next(cfg, s, step).run) == Unsafe(s.run)
    ensures Next(cfg, s, step).core.accepted == s.core.accepted
  {
  }

  // ----- the ledger ----------------------------------------------------------------------

  /** A run that holds the same jobs in the same roles leaves the ledger balanced. */
  lemma LedgerSame(s: Sched, t: Sched, x: Job)
    requires LedgerAt(s, x)
    requires t.ledger == s.ledger && t.core.queues == s.core.queues
    requires InFlight(t.run) == InFlight(s.run) && Pulled(t.run) == Pulled(s.run) && Owed(t.run) == Owed(s.run)
    requires Todo(t.run) != [] ==>
               0 <= t.run.w < |t.core.queues| && Count(Todo(t.run), x) <= Count(t.core.queues[t.run.w], x)
    ensures LedgerAt(t, x)
  {
  }

  lemma LedgerEnqueue(s: Sched, job: Job, x: Job)
    requires LedgerAt(s, x) && 0 <= job.worker < |s.core.queues| && job.Samples() > 0
    ensures LedgerAt(Enqueued(s, job), x)
  {
    var queue := s.core.queues[job.worker];
    CountSnoc(queue, job, x);
    CountSnoc(s.ledger.enqueued, job, x);
    AllUpdate(s.core.queues, job.worker, queue + [job], x);
  }

  lemma LedgerExpire(s: Sched, x: Job)
    requires LedgerAt(s, x) && s.run.Expiring? && s.run.todo != [] && InQueue(s, s.run.w, s.run.todo[0])
    ensures LedgerAt(ExpiredOne(s), x)
  {
    var job := s.run.todo[0];
    TakeOutFacts(s.core, s.run.w, job, x);
    CountFirst(s.run.todo, x);
    CountOne(job, x);
    CountSnoc(s.ledger.rejected, job, x);
  }

  lemma LedgerDrop(s: Sched, x: Job)
    requires LedgerAt(s, x) && s.run.Dropping? && s.run.todo != [] && InQueue(s, s.run.w, s.run.todo[0])
    ensures LedgerAt(DroppedOne(s), x)
  {
    TakeOutFacts(s.core, s.run.w, s.run.todo[0], x);
    CountFirst(s.run.todo, x);
    CountSnoc(s.ledger.rejected, s.run.todo[0], x);
  }

  lemma LedgerTimeout(s: Sched, x: Job)
    requires LedgerAt(s, x) && s.run.TimingOut?
    ensures LedgerAt(TimedOut(s), x)
  {
    CountOne(s.run.job, x);
    CountSnoc(s.ledger.published, s.run.job, x);
  }

  lemma LedgerSend(s: Sched, w: int, rest: seq<Job>, batch: seq<Job>, x: Job)
    requires LedgerAt(s, x) && s.run.Dropping? && Outcome(s, w, rest, batch, x)
    ensures LedgerAt(SendTo(s, w, rest, batch), x)
    ensures batch == [] ==> LedgerAt(s.(core := SetQueue(s.core, w, rest), run := Idle), x)
  {
    CountNone(x);
    CountConcat(s.ledger.dispatched, batch, x);
  }

  lemma LedgerDispatch(cfg: Config, s: Sched, now: real, x: Job)
    requires LedgerAt(s, x) && Enabled(cfg, s, Dispatch(now))
    ensures LedgerAt(Dispatched(cfg, s, now), x)
  {
    DispatchFacts(cfg, s, now, x);
    var sorted := Sort(s.core.queues[s.run.w]);
    var batch := Select(sorted, now, cfg.maxWait, cfg.workers[s.run.w], s.run.force);
    LedgerSend(s, s.run.w, RemoveAll(sorted, batch), batch, x);
  }

  lemma LedgerDrain(s: Sched, w: int, batch: seq<Job>, x: Job)
    requires LedgerAt(s, x) && 0 <= w < |s.core.queues| && (s.run.Idle? || s.run.Failing?)
    requires InFlight(s.run) == batch
    ensures LedgerAt(Drained(s, w, batch), x)
  {
    CountNone(x);
    AllUpdate(s.core.queues, w, [], x);
  }

  lemma LedgerBegin(s: Sched, w: int, force: bool, now: real, x: Job)
    requires LedgerAt(s, x) && s.run.Idle? && 0 <= w < |s.core.queues|
    ensures LedgerAt(Begun(s, w, force, now), x)
  {
    if w in s.core.failures {
      LedgerDrain(s, w, [], x);
    } else {
      FilterCount(s.core.queues[w], (job: Job) => Overdue(job, now), x);
      LedgerSame(s, Begun(s, w, force, now), x);
    }
  }

  lemma LedgerScan(s: Sched, x: Job)
    requires LedgerAt(s, x) && s.run.Expiring? && s.run.todo == [] && 0 <= s.run.w < |s.core.queues|
    ensures LedgerAt(Scanned(s), x)
  {
    FilterCount(s.core.queues[s.run.w], (job: Job) => job.Owner() in s.core.cancelled, x);
    LedgerSame(s, Scanned(s), x);
  }

  lemma LedgerDrainOne(s: Sched, rejectOk: bool, x: Job)
    requires LedgerAt(s, x) && s.run.Draining? && s.run.todo != []
    ensures LedgerAt(DrainedOne(s, rejectOk), x)
  {
    CountFirst(s.run.todo, x);
    CountSnoc(s.run.failed, s.run.todo[0], x);
    CountSnoc(s.ledger.rejected, s.run.todo[0], x);
  }

  /** What cleaning up after a job changes. */
  lemma CleanedShape(s: Sched, outcome: Cleanup, x: Job)
    requires s.run.Settling? && s.run.jobs != [] && |s.run.results| == |s.run.jobs|
    ensures var t := Cleaned(s, outcome);
            var one := if x == s.run.jobs[0] then 1 else 0;
            && t.core == s.core && t.run.Closing? && t.run.job == s.run.jobs[0] && t.run.jobs == s.run.jobs[1..]
            && t.run.failed == s.run.failed
            && t.ledger.enqueued == s.ledger.enqueued && t.ledger.dispatched == s.ledger.dispatched
            && t.ledger.rejected == s.ledger.rejected
            && Count(t.ledger.cleaned, x) == Count(s.ledger.cleaned, x) + one
            && Count(t.ledger.published, x) <= Count(s.ledger.published, x) + one
            && Count(t.ledger.adapterPublished, x) <= Count(s.ledger.adapterPublished, x) + one
  {
    var job := s.run.jobs[0];
    CountSnoc(s.ledger.cleaned, job, x);
    CountSnoc(s.ledger.published, job, x);
    CountSnoc(s.ledger.adapterPublished, job, x);
  }

  lemma LedgerClean(s: Sched, outcome: Cleanup, x: Job)
    requires LedgerAt(s, x) && s.run.Settling? && s.run.jobs != [] && |s.run.results| == |s.run.jobs|
    ensures LedgerAt(Cleaned(s, outcome), x)
  {
    CleanedShape(s, outcome, x);
    CountFirst(s.run.jobs, x);
  }

  lemma LedgerReport(s: Sched, x: Job)
    requires LedgerAt(s, x) && s.run.Reporting? && s.run.failed != []
    ensures LedgerAt(Reported(s), x)
  {
    CountFirst(s.run.failed, x);
    CountSnoc(s.ledger.published, s.run.failed[0], x);
  }

  lemma LedgerQueueStep(cfg: Config, s: Sched, step: Step, x: Job)
    requires LedgerAt(s, x) && Enabled(cfg, s, step) && QueueStep(step)
    ensures LedgerAt(Next(cfg, s, step), x)
  {
    if step.Enqueue? {
      LedgerEnqueue(s, Stamped(step.job, step.now), x);
    } else if step.Begin? {
      LedgerBegin(s, step.w, step.force, step.now, x);
    } else if step.ExpireOne? {
      LedgerExpire(s, x);
    } else if step.DropOne? {
      LedgerDrop(s, x);
    } else {
      LedgerDispatch(cfg, s, step.now, x);
    }
  }

  lemma LedgerKept(cfg: Config, s: Sched, step: Step, x: Job)
    requires LedgerAt(s, x) && Enabled(cfg, s, step)
    ensures LedgerAt(Next(cfg, s, step), x)
  {
    if QueueStep(step) {
      LedgerQueueStep(cfg, s, step, x);
    } else if step.PublishTimeout? {
      LedgerTimeout(s, x);
    } else if step.ExpireDone? {
      LedgerScan(s, x);
    } else if step.StartDrain? {
      LedgerDrain(s, s.run.w, s.run.batch, x);
    } else if step.DrainOne? {
      LedgerDrainOne(s, step.rejectOk, x);
    } else if step.CleanOne? {
      LedgerClean(s, step.outcome, x);
    } else if step.ReportOne? {
      LedgerReport(s, x);
    } else {
      LedgerSame(s, Next(cfg, s, step), x);
    }
  }

  /** Every step, interleaved anywhere, keeps the whole invariant. */
  lemma NextKeeps(cfg: Config, s: Sched, step: Step)
    requires Inv(cfg, s) && Enabled(cfg, s, step)
    ensures Inv(cfg, Next(cfg, s, step))
  {
    ShapeKept(cfg, s, step);
    CountsKept(cfg, s, step);
    KeysKept(cfg, s, step);
    forall x
      ensures LedgerAt(Next(cfg, s, step), x)
    {
      LedgerKept(cfg, s, step, x);
    }
  }
}
