/** Admission and dispatch of the scheduler (app/asr_gateway_scheduler.py) on its transition
    system: who is let in, when a run sends something, what, and what it never sends. */
module SchedulerDispatch {
  import opened Pcm
  import opened Jobs
  import opened Batching
  import opened Scheduler
  import opened SchedulerRuns

  // ----- admission ----------------------------------------------------------------------

  /** In every reachable state a job is admitted if and only if the scheduler is open, its
      worker exists and has not failed, its range holds exactly its samples, and the jobs and
      the audio in the queues and with an unfinished batch leave room for it. */
  lemma AdmittedExactly(cfg: Config, s: Sched, job: Job)
    requires 0 <= cfg.maxQueuedSamples && Reachable(cfg, s)
    ensures Refusal(cfg, s.core, job).None? <==>
              && !s.core.closed && 0 <= job.worker < |cfg.workers| && job.worker !in s.core.failures
              && 0 < |job.pcm| == job.end - job.start
              && |All(s.core.queues)| < cfg.maxJobs
              && Total(All(s.core.queues)) + Total(Charged(s.run)) + |job.pcm| <= cfg.maxQueuedSamples
  {
    QueuedSamplesAreExact(cfg, s);
    ReachableInv(cfg, s);
  }

  /** An admitted job is the last in its worker's queue, stamped with its arrival if it was not
      stamped before; the other queues stay as they are. */
  lemma AdmittedIsQueued(cfg: Config, s: Sched, job: Job, now: real)
    requires Enabled(cfg, s, Enqueue(job, now))
    ensures var t := Next(cfg, s, Enqueue(job, now)); var w := job.worker;
            && 0 <= w < |s.core.queues| == |t.core.queues| && t.run == s.run
            && |t.core.queues[w]| == |s.core.queues[w]| + 1 && t.core.queues[w][..|s.core.queues[w]|] == s.core.queues[w]
            && (forall v | 0 <= v < |s.core.queues| && v != w :: t.core.queues[v] == s.core.queues[v])
            && t.core.queues[w][|s.core.queues[w]|]
               == job.(enqueuedAt := if job.enqueuedAt == 0.0 then now else job.enqueuedAt)
  {
  }

  /** Once closed, the scheduler admits nothing ever again. */
  lemma {:induction false} ClosedAdmitsNothing(cfg: Config, s: Sched, steps: seq<Step>)
    requires s.core.closed
    ensures Continue(cfg, s, steps).core.closed
    ensures forall job :: Refusal(cfg, Continue(cfg, s, steps).core, job) == Some(Closed)
    decreases |steps|
  {
    if steps != [] {
      var front, step := steps[..|steps| - 1], steps[|steps| - 1];
      ClosedAdmitsNothing(cfg, s, front);
      if Enabled(cfg, Continue(cfg, s, front), step) {
        ClosedKept(cfg, Continue(cfg, s, front), step);
      }
    }
  }

  /** In particular whatever follows on closing it. */
  lemma ShutAdmitsNothing(cfg: Config, s: Sched, steps: seq<Step>)
    ensures forall job :: Refusal(cfg, Continue(cfg, Next(cfg, s, Shut), steps).core, job) == Some(Closed)
  {
    ClosedAdmitsNothing(cfg, Next(cfg, s, Shut), steps);
  }

  lemma ClosedKept(cfg: Config, s: Sched, step: Step)
    requires s.core.closed && Enabled(cfg, s, step)
    ensures Next(cfg, s, step).core.closed
  {
  }

  // ----- when something is sent ---------------------------------------------------------

  function KeySessions(queue: seq<Job>, key: BatchKey): set<string> {
    set job | job in queue && job.key == key :: job.session
  }

  /** From a sorted queue of jobs that fit something is sent if and only if it is forced, some
      job is past its deadline or has waited for the longest time, or the jobs that agree with
      the first one are of enough sessions to fill a batch. */
  lemma SendsExactly(queue: seq<Job>, now: real, maxWait: real, caps: Caps, force: bool)
    requires queue != [] && Sorted(queue) && Regular(queue, maxWait, caps)
    ensures Select(queue, now, maxWait, caps, force) != [] <==>
              force || Pressing(queue, now, maxWait) || |KeySessions(queue, queue[0].key)| >= if caps.single then 1 else caps.maxItems
  {
    var first := First(queue, now, maxWait);
    FirstIsEarliest(queue, now, maxWait);
    FirstLeadsItsBatch(queue, now, maxWait, caps);
    GreedyTakesFirst(Compatible(queue, first.key), caps);
    CompatibleSessions(queue, first.key);
    if Pressing(queue, now, maxWait) {
      var job :| job in queue && (now >= job.deadline || now >= job.enqueuedAt + maxWait);
      assert Due(job, now, maxWait);
      DueMeansDispatch(queue, now, maxWait, caps, force);
    } else {
      assert forall job | job in queue :: !Due(job, now, maxWait);
      assert first == queue[0];
    }
  }

  lemma CompatibleSessions(queue: seq<Job>, key: BatchKey)
    ensures Sessions(Compatible(queue, key)) == KeySessions(queue, key)
  {
    var compatible := Compatible(queue, key);
    forall x ensures x in Sessions(compatible) <==> x in KeySessions(queue, key) {
      if job :| job in queue && job.key == key && job.session == x {
        assert job in compatible;
      }
    }
  }

  /** What a dispatch leaves: nothing sent and the queue only sorted, or a batch with the
      worker that together with the new queue is the old one. */
  ghost predicate Sends(s: Sched, t: Sched, w: int)
    requires 0 <= w < |s.core.queues|
  {
    && |t.core.queues| == |s.core.queues|
    && (forall v | 0 <= v < |s.core.queues| && v != w :: t.core.queues[v] == s.core.queues[v])
    && (if t.run.Submitted? then
          && t.run.w == w && t.run.batch != []
          && multiset(t.core.queues[w]) + multiset(t.run.batch) == multiset(s.core.queues[w])
          && t.ledger.dispatched == s.ledger.dispatched + t.run.batch
        else
          t.run == Idle && multiset(t.core.queues[w]) == multiset(s.core.queues[w]) && t.ledger == s.ledger)
  }

  /** A dispatch, taken apart. */
  lemma DispatchIs(cfg: Config, s: Sched, now: real) returns (sorted: seq<Job>, batch: seq<Job>)
    requires Enabled(cfg, s, Dispatch(now))
    ensures sorted == Sort(s.core.queues[s.run.w])
    ensures batch == Select(sorted, now, cfg.maxWait, cfg.workers[s.run.w], s.run.force)
    ensures multiset(batch) <= multiset(sorted) && multiset(sorted) == multiset(s.core.queues[s.run.w])
    ensures multiset(RemoveAll(sorted, batch)) == multiset(sorted) - multiset(batch)
    ensures Next(cfg, s, Dispatch(now)) == if batch == [] then s.(core := SetQueue(s.core, s.run.w, sorted), run := Idle)
                                           else SendTo(s, s.run.w, RemoveAll(sorted, batch), batch)
  {
    var w := s.run.w;
    sorted := Sort(s.core.queues[w]);
    SortSorts(s.core.queues[w]);
    SelectedIsQueued(sorted, now, cfg.maxWait, cfg.workers[w], s.run.force);
    batch := Select(sorted, now, cfg.maxWait, cfg.workers[w], s.run.force);
    RemoveAllTakesBatch(sorted, batch);
  }

  lemma SentSends(s: Sched, w: int, rest: seq<Job>, batch: seq<Job>)
    requires 0 <= w < |s.core.queues| && batch != [] && multiset(batch) <= multiset(s.core.queues[w])
    requires multiset(rest) == multiset(s.core.queues[w]) - multiset(batch)
    ensures Sends(s, SendTo(s, w, rest, batch), w)
  {
  }

  lemma DispatchSplits(cfg: Config, s: Sched, now: real)
    requires Enabled(cfg, s, Dispatch(now))
    ensures Sends(s, Next(cfg, s, Dispatch(now)), s.run.w)
  {
    var sorted, batch := DispatchIs(cfg, s, now);
    if batch != [] {
      SentSends(s, s.run.w, RemoveAll(sorted, batch), batch);
    }
  }

  /** Something in the queue is due at `now`. */
  ghost predicate Pressing(queue: seq<Job>, now: real, maxWait: real) {
    exists job :: job in queue && (now >= job.deadline || now >= job.enqueuedAt + maxWait)
  }

  /** A batch of one kind, one job a session, within the limits of the worker. */
  ghost predicate Fitting(batch: seq<Job>, queue: seq<Job>, caps: Caps) {
    && batch != [] && |batch| <= (if caps.single then 1 else caps.maxItems) && Total(batch) <= caps.maxSamples && DistinctSessions(batch)
    && (forall job | job in batch :: job in queue && job.key == batch[0].key)
  }

  /** No due final comes before the head of the batch, which is one if there is any. */
  ghost predicate Urgent(batch: seq<Job>, queue: seq<Job>, now: real) {
    batch != [] && forall job | job in queue && job.final && now >= job.deadline ::
      batch[0].final && batch[0].deadline <= job.deadline && (batch[0] == job || Before(batch[0], job))
  }

  /** On the transition system: when a dispatch sends something, what kind of batch, and that
      its head is the most urgent job. */
  lemma DispatchIsUrgent(cfg: Config, s: Sched, now: real)
    requires Enabled(cfg, s, Dispatch(now)) && s.core.queues[s.run.w] != []
    requires Regular(s.core.queues[s.run.w], cfg.maxWait, cfg.workers[s.run.w])
    ensures var t, queue, caps := Next(cfg, s, Dispatch(now)), s.core.queues[s.run.w], cfg.workers[s.run.w];
            && (t.run.Submitted? ==> Fitting(t.run.batch, queue, caps))
            && (s.run.force || Pressing(queue, now, cfg.maxWait) ==> t.run.Submitted? && Urgent(t.run.batch, queue, now))
  {
    var sorted, batch := DispatchIs(cfg, s, now);
    SelectIsUrgent(s.core.queues[s.run.w], now, cfg.maxWait, cfg.workers[s.run.w], s.run.force);
  }

  lemma SelectIsUrgent(queue: seq<Job>, now: real, maxWait: real, caps: Caps, force: bool)
    requires queue != [] && Regular(queue, maxWait, caps)
    ensures var batch := Select(Sort(queue), now, maxWait, caps, force);
            && (batch != [] ==> Fitting(batch, queue, caps))
            && (force || Pressing(queue, now, maxWait) ==> Urgent(batch, queue, now))
  {
    var sorted := Sort(queue);
    SortSorts(queue);
    SortedRegular(queue, maxWait, caps);
    if Select(sorted, now, maxWait, caps, force) != [] {
      SelectFits(queue, sorted, now, maxWait, caps, force);
    }
    if force || Pressing(queue, now, maxWait) {
      UrgentHead(queue, sorted, now, maxWait, caps, force);
    }
  }

  lemma SelectFits(queue: seq<Job>, sorted: seq<Job>, now: real, maxWait: real, caps: Caps, force: bool)
    requires sorted != [] && Select(sorted, now, maxWait, caps, force) != []
    requires forall job :: job in sorted <==> job in queue
    ensures Fitting(Select(sorted, now, maxWait, caps, force), queue, caps)
  {
    var stop := SelectedBatch(sorted, now, maxWait, caps, force);
    var batch := Select(sorted, now, maxWait, caps, force);
    assert batch[0] in batch;
  }

  lemma SortedRegular(queue: seq<Job>, maxWait: real, caps: Caps)
    requires Regular(queue, maxWait, caps)
    ensures Regular(Sort(queue), maxWait, caps) && forall job :: job in Sort(queue) <==> job in queue
    ensures Sort(queue) == [] <==> queue == []
  {
    SortSorts(queue);
    forall job ensures job in Sort(queue) <==> job in queue {
      assert job in Sort(queue) <==> job in multiset(Sort(queue));
    }
    assert |Sort(queue)| == |multiset(Sort(queue))| == |multiset(queue)| == |queue|;
  }

  lemma UrgentHead(queue: seq<Job>, sorted: seq<Job>, now: real, maxWait: real, caps: Caps, force: bool)
    requires queue != [] && sorted != [] && Sorted(sorted) && Regular(sorted, maxWait, caps)
    requires forall job :: job in sorted <==> job in queue
    requires force || Pressing(queue, now, maxWait)
    ensures Urgent(Select(sorted, now, maxWait, caps, force), queue, now)
  {
    if Pressing(queue, now, maxWait) {
      var job :| job in queue && (now >= job.deadline || now >= job.enqueuedAt + maxWait);
      assert job in sorted && Due(job, now, maxWait);
    }
    DueMeansDispatch(sorted, now, maxWait, caps, force);
    forall job | job in queue && job.final && now >= job.deadline ensures job in sorted && Due(job, now, maxWait) {
    }
  }

  // ----- what is not sent ---------------------------------------------------------------

  /** The jobs of the generation that are still in the worker's queue are those the run has
      yet to drop. */
  ghost predicate OnlyTodo(s: Sched, key: Key, w: int) {
    && key in s.core.cancelled && 0 <= w < |s.core.queues|
    && (s.run.Expiring? || s.run.TimingOut? ==> s.run.w == w)
    && (s.run.Dropping? ==>
          s.run.w == w && forall x: Job | x.Owner() == key :: Count(s.run.todo, x) == Count(s.core.queues[w], x))
    && (s.run.Submitted? ==> s.run.w == w && forall job | job in s.run.batch :: job.Owner() != key)
  }

  /** Whatever happens but another run or a new job of the generation. */
  predicate NoNews(step: Step, key: Key) {
    !step.Begin? && (step.Enqueue? ==> step.job.Owner() != key)
  }

  /** The run has not yet got beyond its dispatch. */
  predicate Early(run: Run) {
    run.Expiring? || run.TimingOut? || run.Dropping?
  }

  lemma ScanFindsAll(cfg: Config, s: Sched, key: Key, w: int)
    requires OnlyTodo(s, key, w) && Enabled(cfg, s, ExpireDone)
    ensures OnlyTodo(Next(cfg, s, ExpireDone), key, w)
  {
    var keep := (job: Job) => job.Owner() in s.core.cancelled;
    forall x: Job | x.Owner() == key
      ensures Count(Filter(s.core.queues[w], keep), x) == Count(s.core.queues[w], x)
    {
      KeptCount(s.core.queues[w], keep, x);
    }
  }

  lemma DropKeepsTodo(cfg: Config, s: Sched, key: Key, w: int)
    requires OnlyTodo(s, key, w) && Enabled(cfg, s, DropOne)
    ensures OnlyTodo(Next(cfg, s, DropOne), key, w)
  {
    var t := Next(cfg, s, DropOne);
    forall x: Job | x.Owner() == key ensures Count(t.run.todo, x) == Count(t.core.queues[w], x) {
      CountFirst(s.run.todo, x);
      TakeOutFacts(s.core, w, s.run.todo[0], x);
    }
  }

  lemma EnqueueKeepsTodo(cfg: Config, s: Sched, key: Key, w: int, job: Job, now: real)
    requires OnlyTodo(s, key, w) && Enabled(cfg, s, Enqueue(job, now)) && job.Owner() != key
    ensures OnlyTodo(Next(cfg, s, Enqueue(job, now)), key, w)
  {
    var stamped := Stamped(job, now);
    if job.worker == w {
      forall x: Job | x.Owner() == key
        ensures Count(s.core.queues[w] + [stamped], x) == Count(s.core.queues[w], x)
      {
        CountSnoc(s.core.queues[w], stamped, x);
      }
    }
  }

  lemma DispatchSendsNone(cfg: Config, s: Sched, key: Key, w: int, now: real)
    requires OnlyTodo(s, key, w) && Enabled(cfg, s, Dispatch(now))
    ensures OnlyTodo(Next(cfg, s, Dispatch(now)), key, w)
  {
    DispatchSplits(cfg, s, now);
    var t := Next(cfg, s, Dispatch(now));
    if t.run.Submitted? {
      forall job | job in t.run.batch ensures job.Owner() != key {
        assert job in multiset(t.run.batch) && job in multiset(s.core.queues[w]);
        CountMember(s.core.queues[w], job);
        CountNone(job);
      }
    }
  }

  lemma EarlyStepKeeps(cfg: Config, s: Sched, step: Step, key: Key, w: int)
    requires OnlyTodo(s, key, w) && Early(s.run) && Enabled(cfg, s, step) && NoNews(step, key)
    ensures OnlyTodo(Next(cfg, s, step), key, w)
  {
    if step.ExpireDone? {
      ScanFindsAll(cfg, s, key, w);
    } else if step.DropOne? {
      DropKeepsTodo(cfg, s, key, w);
    } else if step.Enqueue? {
      EnqueueKeepsTodo(cfg, s, key, w, step.job, step.now);
    } else if step.Dispatch? {
      DispatchSendsNone(cfg, s, key, w, step.now);
    }
  }

  /** A run begun after a generation was cancelled sends no job of it, unless a new one arrives
      in the meantime. */
  lemma {:induction false} CancelledIsNotSent(cfg: Config, s: Sched, key: Key, w: int, force: bool, now: real, steps: seq<Step>)
    requires Enabled(cfg, s, Begin(w, force, now)) && w !in s.core.failures && key in s.core.cancelled
    requires forall i | 0 <= i < |steps| :: NoNews(steps[i], key)
    requires forall i: nat | i < |steps| :: Early(Continue(cfg, Next(cfg, s, Begin(w, force, now)), steps[..i]).run)
    ensures OnlyTodo(Continue(cfg, Next(cfg, s, Begin(w, force, now)), steps), key, w)
    decreases |steps|
  {
    var begun := Next(cfg, s, Begin(w, force, now));
    if steps != [] {
      var front := steps[..|steps| - 1];
      forall i: nat | i < |front| ensures Early(Continue(cfg, begun, front[..i]).run) {
        assert front[..i] == steps[..i];
      }
      CancelledIsNotSent(cfg, s, key, w, force, now, front);
      assert steps[..|steps| - 1] == front && Early(Continue(cfg, begun, steps[..|steps| - 1]).run);
      if Enabled(cfg, Continue(cfg, begun, front), steps[|steps| - 1]) {
        EarlyStepKeeps(cfg, Continue(cfg, begun, front), steps[|steps| - 1], key, w);
      }
    }
  }
}
