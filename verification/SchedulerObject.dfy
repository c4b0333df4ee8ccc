/** The scheduler as the object the gateway holds: the calls that run between two awaits,
    each proved to be the corresponding step of the transition system. */
module SchedulerObject {
  import opened Pcm
  import opened Jobs
  import opened Batching
  import opened Scheduler

  class GatewayScheduler {
    const config: Config
    var queues: seq<seq<Job>>
    var queuedSamples: int
    var cancelled: set<Key>
    var accepted: set<Key>
    var failures: set<int>
    var closed: bool

    ghost function View(): Core
      reads this
    {
      Core(queues, queuedSamples, cancelled, accepted, failures, closed)
    }

    constructor (config: Config)
      ensures this.config == config
      ensures View() == Core(seq(|config.workers|, _ => []), 0, {}, {}, {}, false)
    {
      this.config := config;
      queues := seq(|config.workers|, _ => []);
      queuedSamples, cancelled, accepted, failures, closed := 0, {}, {}, {}, false;
    }

    /** Counts the queued jobs of all workers. */
    method ReadyJobs() returns (n: nat)
      ensures n == |All(queues)|
    {
      n := 0;
      for i := 0 to |queues|
        invariant n == |All(queues[..i])|
      {
        assert queues[..i + 1][..i] == queues[..i];
        n := n + |queues[i]|;
      }
      assert queues[..|queues|] == queues;
    }

    method Submit(job: Job, now: real) returns (r: Result<(), Error>)
      modifies this`queues, this`queuedSamples
      ensures match Refusal(config, old(View()), job)
              case Some(e) => r == Err(e) && View() == old(View())
              case None => r == Ok(()) && View() == Admit(old(View()), Stamped(job, now))
    {
      if closed {
        return Err(Closed);
      }
      if !(0 <= job.worker < |queues|) {
        return Err(UnknownWorker);
      }
      if job.worker in failures {
        return Err(WorkerFailed);
      }
      if job.Samples() <= 0 || |job.pcm| != job.Samples() {
        return Err(BadRange);
      }
      var total := ReadyJobs();
      if total >= config.maxJobs {
        return Err(JobLimit);
      }
      if queuedSamples + job.Samples() > config.maxQueuedSamples {
        return Err(AudioLimit);
      }
      var stamped := if job.enqueuedAt == 0.0 then job.(enqueuedAt := now) else job;
      queues := queues[job.worker := queues[job.worker] + [stamped]];
      queuedSamples := queuedSamples + job.Samples();
      return Ok(());
    }

    method CancelSession(key: Key)
      modifies this`cancelled
      ensures View() == old(View()).(cancelled := old(View()).cancelled + {key})
    {
      cancelled := cancelled + {key};
    }

    /** Sorts a worker's queue, selects a batch and takes it off the queue. */
    method TakeBatch(w: int, force: bool, now: real) returns (batch: seq<Job>)
      requires 0 <= w < |queues| == |config.workers|
      modifies this`queues, this`accepted
      ensures batch == Select(Sort(old(queues[w])), now, config.maxWait, config.workers[w], force)
      ensures multiset(batch) <= multiset(Sort(old(queues[w])))
      ensures View() == SetQueue(old(View()), w, RemoveAll(Sort(old(queues[w])), batch)).(accepted := old(accepted) + Owners(batch))
    {
      var sorted := Sort(queues[w]);
      batch := Choose(sorted, w, force, now);
      SelectedIsQueued(sorted, now, config.maxWait, config.workers[w], force);
      queues := queues[w := RemoveAll(sorted, batch)];
      accepted := accepted + Owners(batch);
    }

    method Choose(sorted: seq<Job>, w: int, force: bool, now: real) returns (batch: seq<Job>)
      requires 0 <= w < |config.workers|
      ensures batch == Select(sorted, now, config.maxWait, config.workers[w], force)
    {
      batch := [];
      if sorted != [] {
        var first := First(sorted, now, config.maxWait);
        var compatible := Compatible(sorted, first.key);
        if force || Due(first, now, config.maxWait) || |Sessions(compatible)| >= config.workers[w].Limit() {
          batch := SelectLoop(compatible, config.workers[w]);
        }
      }
    }

    method MarkSafe(job: Job)
      modifies this`accepted
      ensures View() == old(View()).(accepted := old(View()).accepted - {job.Owner()})
    {
      accepted := accepted - {job.Owner()};
    }
  }
}
