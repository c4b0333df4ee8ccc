/** What the scheduler (app/asr_gateway_scheduler.py) publishes, and for whom: the results of a
    batch reach their sessions, and nothing else is passed off as one. */
module Delivery {
  import opened Pcm
  import opened Jobs
  import opened Batching
  import opened Scheduler
  import opened SchedulerRuns

  // ----- one job of a finished batch ----------------------------------------------------

  /** The result is about the very job, in its generation and place in the session. */
  predicate Names(result: InferenceResult, job: Job) {
    Identifies(result, job) && result.generation == job.generation && result.sequence == job.sequence
  }

  predicate Identifies(result: InferenceResult, job: Job) {
    && result.id == job.id && result.session == job.session && result.worker == job.worker
    && result.start == job.start && result.end == job.end
  }

  /** A result for another job, or another stretch of audio, is replaced by a failure of this
      one; any other result is left as it is. */
  lemma CoerceIdentifies(job: Job, result: InferenceResult)
    ensures Identifies(Coerce(job, result), job)
    ensures Identifies(result, job) ==> Coerce(job, result) == result
    ensures !Identifies(result, job) ==>
              Names(Coerce(job, result), job) && Coerce(job, result).error.Some? && Coerce(job, result).text == ""
  {
  }

  ghost predicate PublishesNothing(s: Sched, t: Sched) {
    t.ledger.published == s.ledger.published && t.ledger.adapterPublished == s.ledger.adapterPublished
    && t.ledger.outbox == s.ledger.outbox
  }

  /** After its cleanup a job's result is published if and only if the cleanup succeeded, the
      generation has not been cancelled, and the result names the job's generation and
      sequence; a failed cleanup publishes a failure instead, and otherwise nothing is. */
  lemma DeliversExactly(cfg: Config, s: Sched, outcome: Cleanup)
    requires Enabled(cfg, s, CleanOne(outcome))
    ensures var t := Next(cfg, s, CleanOne(outcome));
            var job, result := s.run.jobs[0], s.run.results[0];
            && (outcome == Clean && job.Owner() !in s.core.cancelled
                && result.generation == job.generation && result.sequence == job.sequence
                <==> t.ledger.adapterPublished == s.ledger.adapterPublished + [job])
            && (t.ledger.adapterPublished == s.ledger.adapterPublished + [job] ==>
                  t.ledger.published == s.ledger.published + [job] && t.ledger.outbox == s.ledger.outbox + [result])
            && (outcome == Broken ==>
                  && t.ledger.published == s.ledger.published + [job]
                  && t.ledger.adapterPublished == s.ledger.adapterPublished
                  && exists error :: t.ledger.outbox == s.ledger.outbox + [FailureOf(job, error)])
            && (outcome != Broken && t.ledger.adapterPublished != s.ledger.adapterPublished + [job] ==>
                  PublishesNothing(s, t))
  {
    var job := s.run.jobs[0];
    assert s.ledger.adapterPublished != s.ledger.adapterPublished + [job];
  }

  /** An answer fails its worker exactly if it has the wrong length or a malformed part, as a
      raised error always does; a worker fails in no other way. */
  lemma FailsExactly(cfg: Config, s: Sched, step: Step, w: int)
    requires Enabled(cfg, s, step)
    ensures w in Next(cfg, s, step).core.failures <==>
              || w in s.core.failures
              || (step.SubmitRaised? && s.run.w == w)
              || (step.SubmitReturned? && s.run.w == w
                  && (|step.raws| != |s.run.batch| || exists i :: 0 <= i < |step.raws| && step.raws[i].Malformed?))
  {
  }

  /** A run of a healthy worker times out exactly the jobs it finds past their deadline, and
      tells their sessions so. */
  lemma FindsOverdue(cfg: Config, s: Sched, w: int, force: bool, now: real)
    requires Enabled(cfg, s, Begin(w, force, now)) && w !in s.core.failures
    ensures var t := Next(cfg, s, Begin(w, force, now));
            t.run.Expiring? && forall job ::
              job in t.run.todo <==> job in s.core.queues[w] && job.queueDeadline.Some? && now > job.queueDeadline.value
  {
  }

  lemma TimeoutIsTold(cfg: Config, s: Sched)
    requires Enabled(cfg, s, PublishTimeout)
    ensures var t, job := Next(cfg, s, PublishTimeout), s.run.job;
            && t.ledger.published == s.ledger.published + [job]
            && t.ledger.outbox == s.ledger.outbox + [FailureOf(job, "queue_timeout")]
            && t.ledger.adapterPublished == s.ledger.adapterPublished
  {
  }

  // ----- whole batches ------------------------------------------------------------------

  /** What a run with a finished batch is still to publish if nothing goes wrong. */
  function Ahead(run: Run): seq<Job> {
    match run
    case Draining(_, batch, todo, failed) => batch + (failed + todo)
    case Settling(_, jobs, _, failed) => jobs + failed
    case Closing(_, _, _, jobs, _, failed) => jobs + failed
    case Reporting(failed) => failed
    case _ => []
  }

  function ResultsAhead(run: Run): seq<InferenceResult> {
    match run
    case Draining(_, batch, todo, failed) => Failures(batch) + Failures(failed + todo)
    case Settling(_, _, results, failed) => results + Failures(failed)
    case Closing(_, _, _, _, results, failed) => results + Failures(failed)
    case Reporting(failed) => Failures(failed)
    case _ => []
  }

  function AdapterAhead(run: Run): seq<Job> {
    if run.Settling? || run.Closing? then run.jobs else if run.Draining? then run.batch else []
  }

  /** A finished or failed batch none of whose generations is cancelled, with its own results. */
  ghost predicate Smooth(s: Sched, keys: set<Key>) {
    && (s.run.Draining? || s.run.Settling? || s.run.Closing? || s.run.Reporting? || s.run.Idle?)
    && keys !! s.core.cancelled
    && (s.run.Draining? ==> Owners(s.run.batch) <= keys && Owners(s.run.todo) <= keys)
    && (s.run.Settling? || s.run.Closing? ==>
          && |s.run.results| == |s.run.jobs|
          && forall i | 0 <= i < |s.run.jobs| :: s.run.jobs[i].Owner() in keys && Names(s.run.results[i], s.run.jobs[i]))
  }

  /** Anything may happen but a new run, a cleanup or a rejection that does not succeed, and
      cancellations of the generations concerned. */
  predicate Undisturbed(step: Step, keys: set<Key>) {
    && !step.Begin? && (step.CleanOne? ==> step.outcome == Clean) && (step.DrainOne? ==> step.rejectOk)
    && (step.Cancel? ==> step.key !in keys)
  }

  /** What has been published together with what lies ahead stays the same. */
  ghost predicate SameTotal(s: Sched, t: Sched) {
    && t.ledger.published + Ahead(t.run) == s.ledger.published + Ahead(s.run)
    && t.ledger.outbox + ResultsAhead(t.run) == s.ledger.outbox + ResultsAhead(s.run)
    && t.ledger.adapterPublished + AdapterAhead(t.run) == s.ledger.adapterPublished + AdapterAhead(s.run)
  }

  lemma MoveOne<T>(done: seq<T>, next: T, rest: seq<T>)
    ensures (done + [next]) + rest == done + ([next] + rest)
  {
  }

  lemma FirstThenRest<T>(all: seq<T>, more: seq<T>)
    requires all != []
    ensures all + more == [all[0]] + (all[1..] + more) && all == [all[0]] + all[1..]
  {
  }

  lemma CleanKeepsTotal(cfg: Config, s: Sched, keys: set<Key>)
    requires Smooth(s, keys) && Enabled(cfg, s, CleanOne(Clean))
    ensures SameTotal(s, Next(cfg, s, CleanOne(Clean))) && Smooth(Next(cfg, s, CleanOne(Clean)), keys)
  {
    var r := s.run;
    assert Names(r.results[0], r.jobs[0]) && r.jobs[0].Owner() in keys;
    FirstThenRest(r.jobs, r.failed);
    FirstThenRest(r.results, Failures(r.failed));
    MoveOne(s.ledger.published, r.jobs[0], r.jobs[1..] + r.failed);
    MoveOne(s.ledger.outbox, r.results[0], r.results[1..] + Failures(r.failed));
    MoveOne(s.ledger.adapterPublished, r.jobs[0], r.jobs[1..]);
  }

  lemma ReportKeepsTotal(cfg: Config, s: Sched)
    requires Enabled(cfg, s, ReportOne)
    ensures SameTotal(s, Next(cfg, s, ReportOne))
  {
    var failed := s.run.failed;
    FirstThenRest(failed, []);
    MoveOne(s.ledger.published, failed[0], failed[1..]);
    assert Failures(failed) == [FailureOf(failed[0], "batch failed")] + Failures(failed[1..]);
    MoveOne(s.ledger.outbox, FailureOf(failed[0], "batch failed"), Failures(failed[1..]));
  }

  lemma SettleDoneKeepsTotal(cfg: Config, s: Sched)
    requires Enabled(cfg, s, SettleDone) && s.run.results == []
    ensures SameTotal(s, Next(cfg, s, SettleDone))
  {
    assert s.run.jobs + s.run.failed == s.run.failed;
    assert s.run.results + Failures(s.run.failed) == Failures(s.run.failed);
  }

  lemma DrainKeepsTotal(cfg: Config, s: Sched, keys: set<Key>)
    requires Smooth(s, keys) && Enabled(cfg, s, DrainOne(true))
    ensures SameTotal(s, Next(cfg, s, DrainOne(true))) && Smooth(Next(cfg, s, DrainOne(true)), keys)
  {
    var todo := s.run.todo;
    assert todo[0].Owner() in Owners(todo);
    FirstThenRest(todo, []);
    MoveOne(s.run.failed, todo[0], todo[1..]);
    assert Owners(todo[1..]) <= Owners(todo);
  }

  lemma DrainDoneKeepsTotal(cfg: Config, s: Sched, keys: set<Key>)
    requires Smooth(s, keys) && Enabled(cfg, s, DrainDone)
    ensures SameTotal(s, Next(cfg, s, DrainDone)) && Smooth(Next(cfg, s, DrainDone), keys)
  {
    var r := s.run;
    assert r.failed + r.todo == r.failed;
    if r.batch == [] {
      assert r.batch + r.failed == r.failed;
      assert Failures(r.batch) + Failures(r.failed) == Failures(r.failed);
    } else {
      forall i | 0 <= i < |r.batch| ensures r.batch[i].Owner() in keys {
        assert r.batch[i] in r.batch && r.batch[i].Owner() in Owners(r.batch);
      }
    }
  }

  lemma StepKeepsTotal(cfg: Config, s: Sched, step: Step, keys: set<Key>)
    requires Smooth(s, keys) && Enabled(cfg, s, step) && Undisturbed(step, keys)
    ensures SameTotal(s, Next(cfg, s, step)) && Smooth(Next(cfg, s, step), keys)
  {
    if step.CleanOne? {
      CleanKeepsTotal(cfg, s, keys);
    } else if step.ReportOne? {
      ReportKeepsTotal(cfg, s);
    } else if step.SettleDone? {
      SettleDoneKeepsTotal(cfg, s);
    } else if step.DrainOne? {
      DrainKeepsTotal(cfg, s, keys);
    } else if step.DrainDone? {
      DrainDoneKeepsTotal(cfg, s, keys);
    }
  }

  lemma {:induction false} RunKeepsTotal(cfg: Config, s: Sched, steps: seq<Step>, keys: set<Key>)
    requires Smooth(s, keys) && forall i | 0 <= i < |steps| :: Undisturbed(steps[i], keys)
    ensures SameTotal(s, Continue(cfg, s, steps)) && Smooth(Continue(cfg, s, steps), keys)
    decreases |steps|
  {
    if steps != [] {
      var front, step := steps[..|steps| - 1], steps[|steps| - 1];
      RunKeepsTotal(cfg, s, front, keys);
      if Enabled(cfg, Continue(cfg, s, front), step) {
        StepKeepsTotal(cfg, Continue(cfg, s, front), step, keys);
      }
    }
  }

  /** The worker answers with the batch's own results. */
  ghost predicate Answers(raws: seq<Raw>, batch: seq<Job>) {
    WellFormed(raws, batch) && forall i | 0 <= i < |batch| :: Names(raws[i].result, batch[i])
  }

  function Said(raws: seq<Raw>): seq<InferenceResult>
    requires forall i | 0 <= i < |raws| :: raws[i].Produced?
  {
    seq(|raws|, i requires 0 <= i < |raws| => raws[i].result)
  }

  /** If its generations are not cancelled and its cleanups succeed, the completed run of a
      batch has published exactly the batch, in order, with exactly what the worker said;
      nothing that happens in between adds, loses or reorders anything. */
  lemma BatchIsDelivered(cfg: Config, s: Sched, raws: seq<Raw>, steps: seq<Step>)
    requires s.run.Submitted? && Answers(raws, s.run.batch) && Owners(s.run.batch) !! s.core.cancelled
    requires forall i | 0 <= i < |steps| :: Undisturbed(steps[i], Owners(s.run.batch))
    requires Continue(cfg, Next(cfg, s, SubmitReturned(raws)), steps).run.Idle?
    ensures var t := Continue(cfg, Next(cfg, s, SubmitReturned(raws)), steps);
            && t.ledger.published == s.ledger.published + s.run.batch
            && t.ledger.adapterPublished == s.ledger.adapterPublished + s.run.batch
            && t.ledger.outbox == s.ledger.outbox + Said(raws)
  {
    var begun := Next(cfg, s, SubmitReturned(raws));
    assert Results(s.run.batch, raws) == Said(raws);
    assert begun.run == Settling(s.run.w, s.run.batch, Said(raws), []);
    NothingFailed(begun.run);
    RunKeepsTotal(cfg, begun, steps, Owners(s.run.batch));
    NothingAhead(Continue(cfg, begun, steps));
  }

  lemma NothingFailed(run: Run)
    requires run.Settling? && run.failed == []
    ensures Ahead(run) == run.jobs && ResultsAhead(run) == run.results
  {
  }

  lemma NothingAhead(t: Sched)
    requires t.run.Idle?
    ensures t.ledger.published + Ahead(t.run) == t.ledger.published
    ensures t.ledger.outbox + ResultsAhead(t.run) == t.ledger.outbox
    ensures t.ledger.adapterPublished + AdapterAhead(t.run) == t.ledger.adapterPublished
  {
  }

  /** If the submission of a batch fails, its sessions are told so, job by job and in order,
      and after them those of every job in the worker's queue. */
  lemma FailureIsDelivered(cfg: Config, s: Sched, steps: seq<Step>)
    requires Enabled(cfg, s, StartDrain) && s.run.batch != []
    requires Owners(s.run.batch) + Owners(s.core.queues[s.run.w]) !! s.core.cancelled
    requires forall i | 0 <= i < |steps| :: Undisturbed(steps[i], Owners(s.run.batch) + Owners(s.core.queues[s.run.w]))
    requires Continue(cfg, Next(cfg, s, StartDrain), steps).run.Idle?
    ensures var t, queue := Continue(cfg, Next(cfg, s, StartDrain), steps), s.core.queues[s.run.w];
            && t.ledger.published == s.ledger.published + (s.run.batch + queue)
            && t.ledger.outbox == s.ledger.outbox + (Failures(s.run.batch) + Failures(queue))
  {
    var begun, queue := Next(cfg, s, StartDrain), s.core.queues[s.run.w];
    assert begun.run == Draining(s.run.w, s.run.batch, queue, []);
    assert [] + queue == queue;
    RunKeepsTotal(cfg, begun, steps, Owners(s.run.batch) + Owners(queue));
    NothingAhead(Continue(cfg, begun, steps));
  }

  // ----- every publication --------------------------------------------------------------

  ghost predicate Addressed(results: seq<InferenceResult>, jobs: seq<Job>) {
    |results| == |jobs| && forall i | 0 <= i < |jobs| :: Names(results[i], jobs[i])
  }

  ghost predicate OutboxInv(s: Sched) {
    && Addressed(s.ledger.outbox, s.ledger.published)
    && (s.run.Settling? || s.run.Closing? ==>
          |s.run.results| == |s.run.jobs| && forall i | 0 <= i < |s.run.jobs| :: Identifies(s.run.results[i], s.run.jobs[i]))
  }

  lemma AddressedSnoc(results: seq<InferenceResult>, jobs: seq<Job>, result: InferenceResult, job: Job)
    requires Addressed(results, jobs) && Names(result, job)
    ensures Addressed(results + [result], jobs + [job])
  {
  }

  lemma CleanKeepsOutbox(cfg: Config, s: Sched, outcome: Cleanup)
    requires OutboxInv(s) && Enabled(cfg, s, CleanOne(outcome))
    ensures OutboxInv(Next(cfg, s, CleanOne(outcome)))
  {
    var job, result := s.run.jobs[0], s.run.results[0];
    if result.generation == job.generation && result.sequence == job.sequence {
      AddressedSnoc(s.ledger.outbox, s.ledger.published, result, job);
    }
    AddressedSnoc(s.ledger.outbox, s.ledger.published, FailureOf(job, "cleanup_failed"), job);
  }

  lemma ReturnKeepsOutbox(cfg: Config, s: Sched, raws: seq<Raw>)
    requires OutboxInv(s) && Enabled(cfg, s, SubmitReturned(raws))
    ensures OutboxInv(Next(cfg, s, SubmitReturned(raws)))
  {
    if WellFormed(raws, s.run.batch) {
      forall i | 0 <= i < |s.run.batch| ensures Identifies(Results(s.run.batch, raws)[i], s.run.batch[i]) {
        CoerceIdentifies(s.run.batch[i], raws[i].result);
      }
    }
  }

  lemma StepKeepsOutbox(cfg: Config, s: Sched, step: Step)
    requires OutboxInv(s) && Enabled(cfg, s, step)
    ensures OutboxInv(Next(cfg, s, step))
  {
    if step.CleanOne? {
      CleanKeepsOutbox(cfg, s, step.outcome);
    } else if step.SubmitReturned? {
      ReturnKeepsOutbox(cfg, s, step.raws);
    } else if step.PublishTimeout? {
      AddressedSnoc(s.ledger.outbox, s.ledger.published, FailureOf(s.run.job, "queue_timeout"), s.run.job);
    } else if step.ReportOne? {
      AddressedSnoc(s.ledger.outbox, s.ledger.published, FailureOf(s.run.failed[0], "batch failed"), s.run.failed[0]);
    }
  }

  lemma {:induction false} RunKeepsOutbox(cfg: Config, s: Sched, steps: seq<Step>)
    requires OutboxInv(s)
    ensures OutboxInv(Continue(cfg, s, steps))
    decreases |steps|
  {
    if steps != [] {
      var front, step := steps[..|steps| - 1], steps[|steps| - 1];
      RunKeepsOutbox(cfg, s, front);
      if Enabled(cfg, Continue(cfg, s, front), step) {
        StepKeepsOutbox(cfg, Continue(cfg, s, front), step);
      }
    }
  }

  /** Whatever a worker answers, in every reachable state every result that was published
      names the job it was published for: its session, generation, sequence and range. */
  lemma EveryResultNamesItsJob(cfg: Config, s: Sched)
    requires Reachable(cfg, s)
    ensures Addressed(s.ledger.outbox, s.ledger.published)
  {
    var steps :| s == Continue(cfg, Initial(cfg), steps);
    RunKeepsOutbox(cfg, Initial(cfg), steps);
  }
}
