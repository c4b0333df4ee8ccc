/** Which jobs a worker is sent next: the middle of `run_once` in
    app/asr_gateway_scheduler.py, from sorting the queue to the finished batch. */
module Batching {
  import opened Pcm
  import opened Jobs

  datatype Caps = Caps(single: bool, maxItems: nat, maxSamples: int)
  {
    function Limit(): nat {
      if single then 1 else maxItems
    }
  }

  function DueAt(job: Job, maxWait: real): real {
    if job.deadline <= job.enqueuedAt + maxWait then job.deadline else job.enqueuedAt + maxWait
  }

  predicate Due(job: Job, now: real, maxWait: real) {
    now >= DueAt(job, maxWait)
  }

  function DueFinals(queue: seq<Job>, now: real, maxWait: real): seq<Job> {
    Filter(queue, (job: Job) => job.final && Due(job, now, maxWait))
  }

  /** The job the batch is built around. */
  function First(queue: seq<Job>, now: real, maxWait: real): Job
    requires queue != []
  {
    var finals := DueFinals(queue, now, maxWait);
    if finals != [] then finals[0] else queue[0]
  }

  function Compatible(queue: seq<Job>, key: BatchKey): seq<Job> {
    Filter(queue, (job: Job) => job.key == key)
  }

  function Sessions(jobs: seq<Job>): set<string> {
    set job | job in jobs :: job.session
  }

  /** The batch after the jobs from `i` on have been considered. */
  function Greedy(jobs: seq<Job>, i: nat, batch: seq<Job>, caps: Caps): seq<Job>
    requires i <= |jobs|
    decreases |jobs| - i
  {
    if i == |jobs| then batch
    else if jobs[i].session in Sessions(batch) then Greedy(jobs, i + 1, batch, caps)
    else if |batch| >= caps.Limit() || Total(batch) + jobs[i].Samples() > caps.maxSamples then batch
    else Greedy(jobs, i + 1, batch + [jobs[i]], caps)
  }

  /** The batch `run_once` submits from a sorted queue; empty when it submits nothing. */
  function Select(queue: seq<Job>, now: real, maxWait: real, caps: Caps, force: bool): seq<Job> {
    if queue == [] then []
    else
      var first := First(queue, now, maxWait);
      var compatible := Compatible(queue, first.key);
      if force || Due(first, now, maxWait) || |Sessions(compatible)| >= caps.Limit()
      then Greedy(compatible, 0, [], caps)
      else []
  }

  /** The selection loop itself. */
  method SelectLoop(compatible: seq<Job>, caps: Caps) returns (batch: seq<Job>)
    ensures batch == Greedy(compatible, 0, [], caps)
  {
    batch := [];
    var sessions: set<string> := {};
    var cost := 0;
    var i := 0;
    while i < |compatible|
      invariant 0 <= i <= |compatible|
      invariant sessions == Sessions(batch) && cost == Total(batch)
      invariant Greedy(compatible, 0, [], caps) == Greedy(compatible, i, batch, caps)
    {
      var job := compatible[i];
      if job.session !in sessions {
        if |batch| >= caps.Limit() || cost + job.Samples() > caps.maxSamples {
          return;
        }
        SessionsSnoc(batch, job);
        TotalConcat(batch, [job]);
        batch := batch + [job];
        sessions := sessions + {job.session};
        cost := cost + job.Samples();
      }
      i := i + 1;
    }
  }

  lemma SessionsSnoc(jobs: seq<Job>, job: Job)
    ensures Sessions(jobs + [job]) == Sessions(jobs) + {job.session}
    ensures Sessions([]) == {}
  {
    assert job in jobs + [job];
    forall x | x in jobs ensures x in jobs + [job] {
    }
  }

  // ----- the batch, said without the loop ------------------------------------------------

  /** The first job of each session, in order. */
  function FirstPerSession(jobs: seq<Job>): seq<Job> {
    if jobs == [] then []
    else
      var front := jobs[..|jobs| - 1];
      var last := jobs[|jobs| - 1];
      if last.session in Sessions(front) then FirstPerSession(front) else FirstPerSession(front) + [last]
  }

  lemma {:induction false} FirstPerSessionSessions(jobs: seq<Job>)
    ensures Sessions(FirstPerSession(jobs)) == Sessions(jobs)
  {
    if jobs != [] {
      var front, last := jobs[..|jobs| - 1], jobs[|jobs| - 1];
      FirstPerSessionSessions(front);
      assert jobs == front + [last];
      SessionsSnoc(front, last);
      SessionsSnoc(FirstPerSession(front), last);
    }
  }

  ghost predicate DistinctSessions(jobs: seq<Job>) {
    forall i, j | 0 <= i < j < |jobs| :: jobs[i].session != jobs[j].session
  }

  lemma {:induction false} FirstPerSessionFacts(jobs: seq<Job>)
    ensures multiset(FirstPerSession(jobs)) <= multiset(jobs)
    ensures DistinctSessions(FirstPerSession(jobs))
  {
    if jobs != [] {
      var front, last := jobs[..|jobs| - 1], jobs[|jobs| - 1];
      FirstPerSessionFacts(front);
      assert jobs == front + [last];
      FirstPerSessionSessions(front);
      forall i | last.session !in Sessions(front) && 0 <= i < |FirstPerSession(front)|
        ensures FirstPerSession(front)[i].session != last.session
      {
        assert FirstPerSession(front)[i].session in Sessions(FirstPerSession(front));
      }
    }
  }

  lemma FirstPerSessionNext(jobs: seq<Job>, i: nat)
    requires i < |jobs|
    ensures FirstPerSession(jobs[..i + 1]) ==
            if jobs[i].session in Sessions(jobs[..i]) then FirstPerSession(jobs[..i])
            else FirstPerSession(jobs[..i]) + [jobs[i]]
  {
    assert jobs[..i + 1][..i] == jobs[..i];
  }

  /** `batch` is the first job of each session among the first `stop` candidates, within
      both limits, and `stop` is as far as the limits allow. */
  ghost predicate MaximalPrefix(jobs: seq<Job>, stop: int, batch: seq<Job>, caps: Caps) {
    && 0 <= stop <= |jobs|
    && batch == FirstPerSession(jobs[..stop])
    && |batch| <= caps.Limit()
    && (batch != [] ==> Total(batch) <= caps.maxSamples)
    && (stop < |jobs| ==>
          && jobs[stop].session !in Sessions(jobs[..stop])
          && (|batch| == caps.Limit() || Total(batch) + jobs[stop].Samples() > caps.maxSamples))
  }

  /** The loop's batch so far: the first jobs of the sessions seen, within both limits. */
  ghost predicate SoFar(jobs: seq<Job>, i: int, batch: seq<Job>, caps: Caps) {
    && 0 <= i <= |jobs| && batch == FirstPerSession(jobs[..i])
    && |batch| <= caps.Limit() && (batch != [] ==> Total(batch) <= caps.maxSamples)
  }

  lemma TakingOne(jobs: seq<Job>, i: nat, batch: seq<Job>, caps: Caps)
    requires SoFar(jobs, i, batch, caps) && i < |jobs|
    ensures Sessions(batch) == Sessions(jobs[..i])
    ensures jobs[i].session in Sessions(batch) ==> SoFar(jobs, i + 1, batch, caps)
    ensures jobs[i].session !in Sessions(batch) && |batch| < caps.Limit()
            && Total(batch) + jobs[i].Samples() <= caps.maxSamples
            ==> SoFar(jobs, i + 1, batch + [jobs[i]], caps)
  {
    FirstPerSessionSessions(jobs[..i]);
    FirstPerSessionNext(jobs, i);
    TotalConcat(batch, [jobs[i]]);
    assert Total([jobs[i]]) == Total([]) + jobs[i].Samples();
  }

  lemma {:induction false} GreedyIsMaximal(jobs: seq<Job>, i: nat, batch: seq<Job>, caps: Caps) returns (stop: nat)
    requires SoFar(jobs, i, batch, caps)
    ensures MaximalPrefix(jobs, stop, Greedy(jobs, i, batch, caps), caps)
    decreases |jobs| - i
  {
    stop := i;
    if i < |jobs| {
      TakingOne(jobs, i, batch, caps);
      if jobs[i].session in Sessions(batch) {
        stop := GreedyIsMaximal(jobs, i + 1, batch, caps);
      } else if |batch| < caps.Limit() && Total(batch) + jobs[i].Samples() <= caps.maxSamples {
        stop := GreedyIsMaximal(jobs, i + 1, batch + [jobs[i]], caps);
      }
    }
  }

  /** What is submitted is the maximal greedy prefix of the compatible jobs: one job per
      session, all with the key of the first job, within both limits, from the queue. */
  lemma SelectedBatch(queue: seq<Job>, now: real, maxWait: real, caps: Caps, force: bool) returns (stop: nat)
    requires queue != []
    ensures var batch := Select(queue, now, maxWait, caps, force);
            var compatible := Compatible(queue, First(queue, now, maxWait).key);
            && multiset(batch) <= multiset(queue)
            && (forall job | job in batch :: job in queue && job.key == First(queue, now, maxWait).key)
            && DistinctSessions(batch)
            && (batch != [] ==> MaximalPrefix(compatible, stop, batch, caps))
  {
    var first := First(queue, now, maxWait);
    var compatible := Compatible(queue, first.key);
    stop := 0;
    if Select(queue, now, maxWait, caps, force) != [] {
      assert compatible[..0] == [];
      stop := GreedyIsMaximal(compatible, 0, [], caps);
      FirstPerSessionFacts(compatible[..stop]);
      assert compatible == compatible[..stop] + compatible[stop..];
      var batch := Select(queue, now, maxWait, caps, force);
      forall job | job in batch ensures job in compatible {
        assert job in multiset(batch);
      }
    }
  }

  lemma SelectedIsQueued(queue: seq<Job>, now: real, maxWait: real, caps: Caps, force: bool)
    ensures var batch := Select(queue, now, maxWait, caps, force);
            multiset(batch) <= multiset(queue) && DistinctSessions(batch)
  {
    if queue != [] {
      var stop := SelectedBatch(queue, now, maxWait, caps, force);
    }
  }

  // ----- deadlines -----------------------------------------------------------------------

  /** What the gateway's own jobs satisfy: a deadline no later than the arrival plus the
      longest wait, a size a batch can take, and a key that says whether the job is final. */
  ghost predicate Regular(queue: seq<Job>, maxWait: real, caps: Caps) {
    && (forall job | job in queue :: job.deadline <= job.enqueuedAt + maxWait)
    && (forall job | job in queue :: job.Samples() <= caps.maxSamples)
    && (forall a, b | a in queue && b in queue && a.key == b.key :: a.final == b.final)
    && caps.Limit() >= 1
  }

  lemma {:induction false} FilterFirst(jobs: seq<Job>, keep: Job -> bool, i: nat)
    requires i < |jobs| && keep(jobs[i]) && forall j | 0 <= j < i :: !keep(jobs[j])
    ensures Filter(jobs, keep) != [] && Filter(jobs, keep)[0] == jobs[i]
  {
    var front := jobs[..|jobs| - 1];
    if i < |front| {
      FilterFirst(front, keep, i);
    } else {
      NothingKept(front, keep);
    }
  }

  lemma {:induction false} NothingKept(jobs: seq<Job>, keep: Job -> bool)
    requires forall x | x in jobs :: !keep(x)
    ensures Filter(jobs, keep) == []
  {
    if Filter(jobs, keep) != [] {
      assert Filter(jobs, keep)[0] in Filter(jobs, keep);
    }
  }

  /** The position of the first kept job. */
  lemma {:induction false} FirstKept(jobs: seq<Job>, keep: Job -> bool) returns (i: nat)
    requires exists x :: x in jobs && keep(x)
    ensures i < |jobs| && keep(jobs[i]) && forall j | 0 <= j < i :: !keep(jobs[j])
    ensures Filter(jobs, keep) != [] && Filter(jobs, keep)[0] == jobs[i]
  {
    i := 0;
    while !keep(jobs[i])
      invariant i < |jobs|
      invariant forall j | 0 <= j < i :: !keep(jobs[j])
      decreases |jobs| - i
    {
      var x :| x in jobs && keep(x);
      var k :| 0 <= k < |jobs| && jobs[k] == x;
      assert k > i;
      i := i + 1;
    }
    FilterFirst(jobs, keep, i);
  }

  /** In a regular queue the batch starts with the job it is built around: the earliest due
      final job if there is one, and otherwise the job with the earliest deadline. */
  lemma FirstLeadsItsBatch(queue: seq<Job>, now: real, maxWait: real, caps: Caps)
    requires queue != [] && Sorted(queue) && Regular(queue, maxWait, caps)
    ensures var first := First(queue, now, maxWait);
            var compatible := Compatible(queue, first.key);
            && compatible != [] && compatible[0] == first
            && (forall job | job in queue && job.final && Due(job, now, maxWait) ::
                  first.final && Due(first, now, maxWait) && (first == job || Before(first, job)))
            && ((forall job | job in queue :: !(job.final && Due(job, now, maxWait))) ==>
                  forall job | job in queue :: first == job || Before(first, job))
  {
    FirstIsEarliest(queue, now, maxWait);
    var first := First(queue, now, maxWait);
    var same := (job: Job) => job.key == first.key;
    if DueFinals(queue, now, maxWait) == [] {
      FilterFirst(queue, same, 0);
    } else {
      var dueFinal := (job: Job) => job.final && Due(job, now, maxWait);
      var x := DueFinals(queue, now, maxWait)[0];
      assert x in Filter(queue, dueFinal);
      var i := FirstKept(queue, dueFinal);
      forall j | 0 <= j < i
        ensures !same(queue[j])
      {
        assert Before(queue[j], queue[i]);
        assert queue[j] in queue && queue[i] in queue;
      }
      FilterFirst(queue, same, i);
    }
  }

  /** In a regular queue any due job, final or not, makes the worker receive a batch, and
      so does force; a due final job makes that batch all final, the earliest one first. */
  lemma DueMeansDispatch(queue: seq<Job>, now: real, maxWait: real, caps: Caps, force: bool)
    requires queue != [] && Sorted(queue) && Regular(queue, maxWait, caps)
    requires force || exists job :: job in queue && Due(job, now, maxWait)
    ensures var batch := Select(queue, now, maxWait, caps, force);
            && batch != [] && (force || Due(batch[0], now, maxWait))
            && (batch[0].final ==> forall job | job in batch :: job.final)
            && (forall job | job in queue && job.final && Due(job, now, maxWait) ::
                  batch[0].final && Due(batch[0], now, maxWait) && (batch[0] == job || Before(batch[0], job)))
            && ((forall job | job in queue :: !(job.final && Due(job, now, maxWait))) ==>
                  forall job | job in queue :: batch[0] == job || Before(batch[0], job))
  {
    var first := First(queue, now, maxWait);
    var compatible := Compatible(queue, first.key);
    FirstLeadsItsBatch(queue, now, maxWait, caps);
    FirstIsDue(queue, now, maxWait, caps, force);
    assert first in queue;
    GreedyTakesFirst(compatible, caps);
    var stop := SelectedBatch(queue, now, maxWait, caps, force);
    FirstIsEarliest(queue, now, maxWait);
  }

  /** The job a batch is built around, said without the filter: the earliest due final job
      if there is one, and otherwise the earliest job. */
  lemma FirstIsEarliest(queue: seq<Job>, now: real, maxWait: real)
    requires queue != [] && Sorted(queue)
    ensures var first := First(queue, now, maxWait);
            && first in queue
            && (forall job | job in queue && job.final && Due(job, now, maxWait) ::
                  first.final && Due(first, now, maxWait) && (first == job || Before(first, job)))
            && ((forall job | job in queue :: !(job.final && Due(job, now, maxWait))) ==>
                  first == queue[0] && forall job | job in queue :: first == job || Before(first, job))
  {
    var dueFinal := (job: Job) => job.final && Due(job, now, maxWait);
    if x :| x in queue && dueFinal(x) {
      var i := FirstKept(queue, dueFinal);
      forall job | job in queue && dueFinal(job) ensures queue[i] == job || Before(queue[i], job) {
        var k :| 0 <= k < |queue| && queue[k] == job;
        assert i <= k;
      }
    } else {
      NothingKept(queue, dueFinal);
      forall job | job in queue ensures queue[0] == job || Before(queue[0], job) {
        var k :| 0 <= k < |queue| && queue[k] == job;
      }
    }
  }

  lemma FirstIsDue(queue: seq<Job>, now: real, maxWait: real, caps: Caps, force: bool)
    requires queue != [] && Sorted(queue) && Regular(queue, maxWait, caps)
    requires force || exists job :: job in queue && Due(job, now, maxWait)
    ensures force || Due(First(queue, now, maxWait), now, maxWait)
  {
    var finals := DueFinals(queue, now, maxWait);
    if finals != [] {
      assert finals[0] in finals;
    } else if !force {
      var job :| job in queue && Due(job, now, maxWait);
      var k :| 0 <= k < |queue| && queue[k] == job;
      assert queue[0] in queue;
      assert k > 0 ==> Before(queue[0], queue[k]);
    }
  }

  lemma GreedyTakesFirst(jobs: seq<Job>, caps: Caps)
    requires jobs != [] && caps.Limit() >= 1 && jobs[0].Samples() <= caps.maxSamples
    ensures Greedy(jobs, 0, [], caps) != [] && Greedy(jobs, 0, [], caps)[0] == jobs[0]
  {
    SessionsSnoc([], jobs[0]);
    TotalConcat([], [jobs[0]]);
    assert [] + [jobs[0]] == [jobs[0]];
    GreedyExtends(jobs, 1, [jobs[0]], caps);
  }

  lemma {:induction false} GreedyExtends(jobs: seq<Job>, i: nat, batch: seq<Job>, caps: Caps)
    requires i <= |jobs|
    ensures batch <= Greedy(jobs, i, batch, caps)
    decreases |jobs| - i
  {
    if i < |jobs| {
      if jobs[i].session in Sessions(batch) {
        GreedyExtends(jobs, i + 1, batch, caps);
      } else if |batch| < caps.Limit() && Total(batch) + jobs[i].Samples() <= caps.maxSamples {
        GreedyExtends(jobs, i + 1, batch + [jobs[i]], caps);
      }
    }
  }

  /** A worker is sent nothing, even under force, exactly when the leading compatible job
      does not fit a batch on its own: such a job blocks the queue behind it. */
  lemma ForcedRunBlockedExactly(queue: seq<Job>, now: real, maxWait: real, caps: Caps)
    requires queue != [] && caps.Limit() >= 1
    ensures var compatible := Compatible(queue, First(queue, now, maxWait).key);
            && compatible != []
            && (Select(queue, now, maxWait, caps, true) == [] <==> compatible[0].Samples() > caps.maxSamples)
  {
    var first := First(queue, now, maxWait);
    var finals := DueFinals(queue, now, maxWait);
    assert finals != [] ==> finals[0] in finals;
    var compatible := Compatible(queue, first.key);
    assert first in compatible;
    if compatible[0].Samples() <= caps.maxSamples {
      GreedyTakesFirst(compatible, caps);
    } else {
      assert Sessions([]) == {};
    }
  }

  // ----- progress ------------------------------------------------------------------------

  lemma SameMembers(a: seq<Job>, b: seq<Job>, x: Job)
    requires multiset(a) == multiset(b)
    ensures x in a <==> x in b
  {
    assert x in a <==> x in multiset(a);
  }

  lemma RegularSort(queue: seq<Job>, maxWait: real, caps: Caps)
    requires Regular(queue, maxWait, caps)
    ensures Regular(Sort(queue), maxWait, caps) && Sorted(Sort(queue)) && multiset(Sort(queue)) == multiset(queue)
  {
    SortSorts(queue);
    forall x
      ensures x in Sort(queue) <==> x in queue
    {
      SameMembers(Sort(queue), queue, x);
    }
  }

  lemma RoundShrinks(queue: seq<Job>, now: real, maxWait: real, caps: Caps)
    requires queue != [] && Regular(queue, maxWait, caps)
    ensures var sorted := Sort(queue);
            var batch := Select(sorted, now, maxWait, caps, true);
            && batch != [] && multiset(batch) <= multiset(sorted)
            && |RemoveAll(sorted, batch)| < |queue|
            && Regular(RemoveAll(sorted, batch), maxWait, caps)
            && multiset(RemoveAll(sorted, batch)) + multiset(batch) == multiset(queue)
  {
    RegularSort(queue, maxWait, caps);
    var sorted := Sort(queue);
    var batch := Select(sorted, now, maxWait, caps, true);
    assert batch != [] by {
      DueMeansDispatch(sorted, now, maxWait, caps, true);
    }
    assert multiset(batch) <= multiset(sorted) by {
      var stop := SelectedBatch(sorted, now, maxWait, caps, true);
    }
    RemoveAllTakesBatch(sorted, batch);
  }
}
