/** What holds of the scheduler over every run: any interleaving of arrivals, cancellations,
    expiry, dispatch, completion and worker failure. */
module SchedulerRuns {
  import opened Pcm
  import opened Jobs
  import opened Batching
  import opened Scheduler

  function Initial(cfg: Config): Sched {
    Sched(Core(seq(|cfg.workers|, _ => []), 0, {}, {}, {}, false), Idle, Ledger([], [], [], [], [], [], []))
  }

  lemma {:induction false} AllOfNothing(n: nat)
    ensures All(seq(n, _ => [])) == []
  {
    if n > 0 {
      AllOfNothing(n - 1);
      var queues: seq<seq<Job>> := seq(n, _ => []);
      assert queues[..n - 1] == seq(n - 1, _ => []);
    }
  }

  lemma InitialInv(cfg: Config)
    requires 0 <= cfg.maxQueuedSamples
    ensures Inv(cfg, Initial(cfg))
  {
    AllOfNothing(|cfg.workers|);
    var s := Initial(cfg);
    assert Owners([]) == {};
    forall x ensures LedgerAt(s, x) {
      CountNone(x);
    }
  }

  /** The state a sequence of steps leads to; a step that is not enabled does not happen. */
  function Continue(cfg: Config, s: Sched, steps: seq<Step>): Sched {
    if steps == [] then s
    else
      var t := Continue(cfg, s, steps[..|steps| - 1]);
      var step := steps[|steps| - 1];
      if Enabled(cfg, t, step) then Next(cfg, t, step) else t
  }

  lemma {:induction false} ContinueInv(cfg: Config, s: Sched, steps: seq<Step>)
    requires Inv(cfg, s)
    ensures Inv(cfg, Continue(cfg, s, steps))
  {
    if steps != [] {
      ContinueInv(cfg, s, steps[..|steps| - 1]);
      var t := Continue(cfg, s, steps[..|steps| - 1]);
      if Enabled(cfg, t, steps[|steps| - 1]) {
        NextKeeps(cfg, t, steps[|steps| - 1]);
      }
    }
  }

  ghost predicate Reachable(cfg: Config, s: Sched) {
    exists steps :: s == Continue(cfg, Initial(cfg), steps)
  }

  lemma ReachableInv(cfg: Config, s: Sched)
    requires 0 <= cfg.maxQueuedSamples && Reachable(cfg, s)
    ensures Inv(cfg, s)
  {
    var steps :| s == Continue(cfg, Initial(cfg), steps);
    InitialInv(cfg);
    ContinueInv(cfg, Initial(cfg), steps);
  }

  // ----- settlement ----------------------------------------------------------------------

  function OneIf(b: bool): nat {
    if b then 1 else 0
  }

  /** A job enqueued once is, in every reachable state, in exactly one of: a queue, on its
      way to rejection, rejected, at a worker, or cleaned up. It is never both rejected and
      cleaned up, and it is published at most once, only after one of the two. */
  lemma ExactlyOnceSettlement(cfg: Config, s: Sched, job: Job)
    requires 0 <= cfg.maxQueuedSamples && Reachable(cfg, s)
    requires Count(s.ledger.enqueued, job) == 1
    ensures OneIf(job in All(s.core.queues)) + OneIf(job in Pulled(s.run)) + OneIf(job in s.ledger.rejected)
            + OneIf(job in InFlight(s.run)) + OneIf(job in s.ledger.cleaned) == 1
    ensures Count(s.ledger.rejected, job) + Count(s.ledger.cleaned, job) <= 1
    ensures Count(s.ledger.published, job) <= 1
    ensures job in s.ledger.published ==> job in s.ledger.rejected || job in s.ledger.cleaned
    ensures job in s.ledger.dispatched ==> job !in s.ledger.rejected
    ensures job in s.ledger.cleaned ==> job in s.ledger.dispatched
  {
    ReachableInv(cfg, s);
    assert LedgerAt(s, job);
    CountMember(All(s.core.queues), job);
    CountMember(Pulled(s.run), job);
    CountMember(s.ledger.rejected, job);
    CountMember(InFlight(s.run), job);
    CountMember(s.ledger.cleaned, job);
    CountMember(s.ledger.published, job);
    CountMember(s.ledger.dispatched, job);
  }

  /** When no run is suspended nothing is in between: what was enqueued and is no longer
      queued was rejected or cleaned up, each job as often as it was enqueued. */
  lemma IdleMeansSettled(cfg: Config, s: Sched, job: Job)
    requires 0 <= cfg.maxQueuedSamples && Reachable(cfg, s) && s.run.Idle?
    ensures Count(s.ledger.enqueued, job) ==
            Count(All(s.core.queues), job) + Count(s.ledger.rejected, job) + Count(s.ledger.cleaned, job)
    ensures s.core.accepted == {}
  {
    ReachableInv(cfg, s);
    assert LedgerAt(s, job);
    CountNone(job);
    assert Owners([]) == {};
  }

  /** Taking a scanned job out of its queue never fails, however much the queue has changed
      since it was scanned. */
  lemma ScannedJobsAreStillQueued(cfg: Config, s: Sched)
    requires 0 <= cfg.maxQueuedSamples && Reachable(cfg, s)
    ensures s.run.Expiring? && s.run.todo != [] ==> Enabled(cfg, s, ExpireOne)
    ensures s.run.Dropping? && s.run.todo != [] ==> Enabled(cfg, s, DropOne)
  {
    ReachableInv(cfg, s);
    if Todo(s.run) != [] {
      var job := Todo(s.run)[0];
      assert LedgerAt(s, job);
      CountMember(Todo(s.run), job);
      CountMember(s.core.queues[s.run.w], job);
    }
  }

  /** A suspended run can always go on: some step of it is enabled, so a run in progress is
      never stuck inside the scheduler. */
  lemma RunCanGoOn(cfg: Config, s: Sched) returns (step: Step)
    requires 0 <= cfg.maxQueuedSamples && Reachable(cfg, s) && !s.run.Idle?
    ensures Enabled(cfg, s, step) && !step.Enqueue? && !step.Cancel? && !step.Shut? && !step.Begin?
  {
    ReachableInv(cfg, s);
    ScannedJobsAreStillQueued(cfg, s);
    match s.run
    case Expiring(_, _, todo) => step := if todo != [] then ExpireOne else ExpireDone;
    case TimingOut(_, _, _, _) => step := PublishTimeout;
    case Dropping(_, _, todo) => step := if todo != [] then DropOne else Dispatch(0.0);
    case Submitted(_, _) => step := SubmitRaised;
    case Failing(_, _) => step := StartDrain;
    case Draining(_, _, todo, _) => step := if todo != [] then DrainOne(true) else DrainDone;
    case Settling(_, jobs, _, _) => step := if jobs != [] then CleanOne(Clean) else SettleDone;
    case Closing(_, _, _, _, _, _) => step := CloseOne;
    case Reporting(failed) => step := if failed != [] then ReportOne else ReportDone;
  }

  // ----- failed workers ------------------------------------------------------------------

  lemma {:induction false} FailureIsForever(cfg: Config, s: Sched, steps: seq<Step>, w: int)
    requires w in s.core.failures
    ensures w in Continue(cfg, s, steps).core.failures
  {
    if steps != [] {
      FailureIsForever(cfg, s, steps[..|steps| - 1], w);
      var t := Continue(cfg, s, steps[..|steps| - 1]);
      if Enabled(cfg, t, steps[|steps| - 1]) {
        FailureKept(cfg, t, steps[|steps| - 1], w);
      }
    }
  }

  lemma FailureKept(cfg: Config, s: Sched, step: Step, w: int)
    requires w in s.core.failures && Enabled(cfg, s, step)
    ensures w in Next(cfg, s, step).core.failures
  {
  }

  /** Once a submission to a worker has failed, no batch is ever with that worker again and
      its queue, once drained, stays empty. */
  lemma FailedWorkerIsNeverServed(cfg: Config, s: Sched, steps: seq<Step>, w: int)
    requires 0 <= cfg.maxQueuedSamples && Reachable(cfg, s)
    requires 0 <= w < |cfg.workers| && w in s.core.failures
    ensures var t := Continue(cfg, s, steps);
            && |t.core.queues| == |cfg.workers|
            && !(t.run.Submitted? && t.run.w == w)
            && (t.core.queues[w] == [] || (t.run.Failing? && t.run.w == w))
            && forall job: Job | job.worker == w :: Refusal(cfg, t.core, job).Some?
  {
    ReachableInv(cfg, s);
    ContinueInv(cfg, s, steps);
    FailureIsForever(cfg, s, steps, w);
  }

  // ----- accounting ----------------------------------------------------------------------

  /** In every reachable state the counter is the samples queued plus those of a batch not
      yet complete, and both limits hold. */
  lemma QueuedSamplesAreExact(cfg: Config, s: Sched)
    requires 0 <= cfg.maxQueuedSamples && Reachable(cfg, s)
    ensures s.core.queuedSamples == Total(All(s.core.queues)) + Total(Charged(s.run))
    ensures |All(s.core.queues)| <= cfg.maxJobs && s.core.queuedSamples <= cfg.maxQueuedSamples
  {
    ReachableInv(cfg, s);
  }

  /** Wherever something is published, a follow-up job is judged against the queued jobs
      alone: the batch being published no longer counts. */
  lemma FollowUpIsJudgedWithoutItsBatch(cfg: Config, s: Sched, job: Job)
    requires 0 <= cfg.maxQueuedSamples && Reachable(cfg, s)
    requires s.run.TimingOut? || s.run.Closing? || s.run.Reporting?
    ensures Refusal(cfg, s.core, job) == Some(AudioLimit)
            ==> Total(All(s.core.queues)) + job.Samples() > cfg.maxQueuedSamples
    ensures Refusal(cfg, s.core, job).None? ==> Total(All(s.core.queues)) + job.Samples() <= cfg.maxQueuedSamples
  {
    ReachableInv(cfg, s);
  }

  // ----- the cancellation barrier --------------------------------------------------------

  /** The generation is cancelled and no adapter result of it is being published. */
  ghost predicate Quiet(s: Sched, key: Key) {
    key in s.core.cancelled && !(s.run.Closing? && s.run.activity == Publishing(true) && s.run.job.Owner() == key)
  }

  /** After cancelling and waiting until the generation is safe, it is quiet. */
  lemma BarrierIsQuiet(cfg: Config, s: Sched, key: Key)
    requires 0 <= cfg.maxQueuedSamples && Reachable(cfg, s)
    requires key in s.core.cancelled && key !in s.core.accepted
    ensures Quiet(s, key)
  {
    ReachableInv(cfg, s);
    if s.run.Closing? {
      assert s.run.job in Unsafe(s.run);
    }
  }

  /** The accepted-event map holds exactly the generations with a job still unsafe. */
  lemma AcceptedIsExact(cfg: Config, s: Sched, key: Key)
    requires 0 <= cfg.maxQueuedSamples && Reachable(cfg, s)
    ensures key in s.core.accepted <==> exists job :: job in Unsafe(s.run) && job.Owner() == key
  {
    ReachableInv(cfg, s);
  }

  lemma QuietKept(cfg: Config, s: Sched, step: Step, key: Key)
    requires Quiet(s, key) && Enabled(cfg, s, step)
    ensures var t := Next(cfg, s, step);
            && Quiet(t, key)
            && (t.ledger.adapterPublished == s.ledger.adapterPublished
                || exists job: Job :: job.Owner() != key && t.ledger.adapterPublished == s.ledger.adapterPublished + [job])
  {
    if step.CleanOne? {
      assert s.run.jobs[0].Owner() == key ==> Cleaned(s, step.outcome).ledger.adapterPublished == s.ledger.adapterPublished;
    }
  }

  /** From then on, in every continuation, no adapter-produced result of that generation is
      published or in the middle of being published. */
  lemma {:induction false} BarrierHolds(cfg: Config, s: Sched, steps: seq<Step>, key: Key)
    requires Quiet(s, key)
    ensures var t := Continue(cfg, s, steps);
            && Quiet(t, key)
            && s.ledger.adapterPublished <= t.ledger.adapterPublished
            && forall i | |s.ledger.adapterPublished| <= i < |t.ledger.adapterPublished| ::
                 t.ledger.adapterPublished[i].Owner() != key
  {
    if steps != [] {
      BarrierHolds(cfg, s, steps[..|steps| - 1], key);
      var t := Continue(cfg, s, steps[..|steps| - 1]);
      if Enabled(cfg, t, steps[|steps| - 1]) {
        QuietKept(cfg, t, steps[|steps| - 1], key);
      }
    }
  }
}
