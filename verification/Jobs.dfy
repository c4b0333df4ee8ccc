/** Inference jobs and results, and the order in which a worker's queue is served. */
module Jobs {
  import opened Pcm

  /** What two jobs must agree on to share a batch. */
  datatype BatchKey = BatchKey(
    worker: nat,
    modelRevision: string,
    language: string,
    task: string,
    timestamps: bool,
    prompt: string,
    decoding: string,
    sampleFormat: string,
    lengthBucket: int)

  /** Workers are numbered; no queue deadline stands for an infinite one. */
  datatype Job = Job(
    id: string,
    session: string,
    generation: int,
    sequence: int,
    worker: int,
    start: int,
    end: int,
    pcm: Audio,
    deadline: real,
    key: BatchKey,
    final: bool,
    enqueuedAt: real,
    queueDeadline: Option<real>)
  {
    function Samples(): int {
      end - start
    }

    function Owner(): Key {
      (session, generation)
    }
  }

  /** A session in one of its generations. */
  type Key = (string, int)

  datatype InferenceResult = InferenceResult(
    id: string,
    session: string,
    generation: int,
    sequence: int,
    worker: int,
    start: int,
    end: int,
    text: string,
    final: bool,
    error: Option<string>)

  function FailureOf(job: Job, error: string): InferenceResult {
    InferenceResult(job.id, job.session, job.generation, job.sequence, job.worker, job.start, job.end, "", false, Some(error))
  }

  function Total(jobs: seq<Job>): int {
    if jobs == [] then 0 else Total(jobs[..|jobs| - 1]) + jobs[|jobs| - 1].Samples()
  }

  lemma {:induction false} TotalConcat(a: seq<Job>, b: seq<Job>)
    ensures Total(a + b) == Total(a) + Total(b)
  {
    if b == [] {
      assert a + b == a;
    } else {
      TotalConcat(a, b[..|b| - 1]);
      assert (a + b)[..|a + b| - 1] == a + b[..|b| - 1];
    }
  }

  // ----- earliest deadline first ---------------------------------------------------------

  predicate LexLe(a: string, b: string) {
    a == [] || (b != [] && (a[0] < b[0] || (a[0] == b[0] && LexLe(a[1..], b[1..]))))
  }

  lemma {:induction false} LexTotal(a: string, b: string)
    ensures LexLe(a, b) || LexLe(b, a)
  {
    if a != [] && b != [] && a[0] == b[0] {
      LexTotal(a[1..], b[1..]);
    }
  }

  lemma {:induction false} LexTransitive(a: string, b: string, c: string)
    requires LexLe(a, b) && LexLe(b, c)
    ensures LexLe(a, c)
  {
    if a != [] && a[0] == b[0] == c[0] {
      LexTransitive(a[1..], b[1..], c[1..]);
    }
  }

  /** Deadline, then arrival, then identifier. */
  predicate Before(a: Job, b: Job) {
    || a.deadline < b.deadline
    || (a.deadline == b.deadline
        && (a.enqueuedAt < b.enqueuedAt || (a.enqueuedAt == b.enqueuedAt && LexLe(a.id, b.id))))
  }

  /** Earlier deadlines come first, then earlier arrivals, then smaller identifiers. */
  lemma BeforeExactly(a: Job, b: Job)
    ensures Before(a, b) ==> a.deadline <= b.deadline
    ensures Before(a, b) && a.deadline == b.deadline ==> a.enqueuedAt <= b.enqueuedAt
    ensures a.deadline == b.deadline && a.enqueuedAt == b.enqueuedAt ==> (Before(a, b) <==> LexLe(a.id, b.id))
    ensures a.deadline < b.deadline || (a.deadline == b.deadline && a.enqueuedAt < b.enqueuedAt) ==> Before(a, b)
  {
  }

  lemma BeforeOrder(a: Job, b: Job, c: Job)
    ensures Before(a, b) || Before(b, a)
    ensures Before(a, b) && Before(b, c) ==> Before(a, c)
  {
    LexTotal(a.id, b.id);
    if LexLe(a.id, b.id) && LexLe(b.id, c.id) {
      LexTransitive(a.id, b.id, c.id);
    }
  }

  predicate Sorted(jobs: seq<Job>) {
    forall i, j | 0 <= i < j < |jobs| :: Before(jobs[i], jobs[j])
  }

  function Insert(job: Job, jobs: seq<Job>): (r: seq<Job>)
    ensures |r| == |jobs| + 1
  {
    if jobs == [] || Before(job, jobs[0]) then [job] + jobs else [jobs[0]] + Insert(job, jobs[1..])
  }

  /** The stable sort of a queue. */
  function Sort(jobs: seq<Job>): (r: seq<Job>)
    ensures |r| == |jobs|
  {
    if jobs == [] then [] else Insert(jobs[0], Sort(jobs[1..]))
  }

  lemma {:induction false} InsertAdds(job: Job, jobs: seq<Job>)
    ensures multiset(Insert(job, jobs)) == multiset(jobs) + multiset{job}
    ensures Total(Insert(job, jobs)) == Total(jobs) + job.Samples()
  {
    if jobs == [] || Before(job, jobs[0]) {
      TotalConcat([job], jobs);
    } else {
      InsertAdds(job, jobs[1..]);
      assert jobs == [jobs[0]] + jobs[1..];
      TotalConcat([jobs[0]], jobs[1..]);
      TotalConcat([jobs[0]], Insert(job, jobs[1..]));
    }
  }

  lemma {:induction false} InsertSorts(job: Job, jobs: seq<Job>)
    requires Sorted(jobs)
    ensures Sorted(Insert(job, jobs))
  {
    if jobs == [] {
    } else if Before(job, jobs[0]) {
      forall j | 0 <= j < |jobs| ensures Before(job, jobs[j]) {
        BeforeOrder(job, jobs[0], jobs[j]);
      }
    } else {
      var rest := Insert(job, jobs[1..]);
      InsertSorts(job, jobs[1..]);
      InsertAdds(job, jobs[1..]);
      BeforeOrder(jobs[0], job, job);
      forall j | 0 <= j < |rest| ensures Before(jobs[0], rest[j]) {
        assert rest[j] in multiset(rest);
        assert rest[j] == job || rest[j] in multiset(jobs[1..]);
      }
    }
  }

  lemma TotalFirst(jobs: seq<Job>)
    requires jobs != []
    ensures Total(jobs) == jobs[0].Samples() + Total(jobs[1..])
  {
    assert jobs == [jobs[0]] + jobs[1..];
    TotalConcat([jobs[0]], jobs[1..]);
  }

  lemma FirstOfMultiset(jobs: seq<Job>)
    requires jobs != []
    ensures multiset(jobs) == multiset{jobs[0]} + multiset(jobs[1..])
  {
    assert jobs == [jobs[0]] + jobs[1..];
  }

  lemma {:induction false} SortSorts(jobs: seq<Job>)
    ensures Sorted(Sort(jobs))
    ensures multiset(Sort(jobs)) == multiset(jobs)
    ensures Total(Sort(jobs)) == Total(jobs)
  {
    if jobs != [] {
      SortSorts(jobs[1..]);
      InsertSorts(jobs[0], Sort(jobs[1..]));
      InsertAdds(jobs[0], Sort(jobs[1..]));
      TotalFirst(jobs);
      FirstOfMultiset(jobs);
    }
  }

  // ----- taking jobs out of a queue ------------------------------------------------------

  /** The queue without the first job equal to `job`. */
  function Remove(jobs: seq<Job>, job: Job): (r: seq<Job>)
    requires job in jobs
    ensures |r| == |jobs| - 1
  {
    if jobs[0] == job then jobs[1..] else [jobs[0]] + Remove(jobs[1..], job)
  }

  lemma {:induction false} RemoveTakesOne(jobs: seq<Job>, job: Job)
    requires job in jobs
    ensures multiset(Remove(jobs, job)) == multiset(jobs) - multiset{job}
    ensures Total(Remove(jobs, job)) == Total(jobs) - job.Samples()
    ensures forall x | x in Remove(jobs, job) :: x in jobs
  {
    assert jobs == [jobs[0]] + jobs[1..];
    TotalConcat([jobs[0]], jobs[1..]);
    if jobs[0] != job {
      RemoveTakesOne(jobs[1..], job);
      TotalConcat([jobs[0]], Remove(jobs[1..], job));
    }
  }

  lemma TakeFirst(jobs: seq<Job>, batch: seq<Job>)
    requires batch != [] && multiset(batch) <= multiset(jobs)
    ensures batch[0] in jobs
    ensures multiset(batch[1..]) <= multiset(Remove(jobs, batch[0]))
    ensures multiset(Remove(jobs, batch[0])) - multiset(batch[1..]) == multiset(jobs) - multiset(batch)
  {
    assert batch == [batch[0]] + batch[1..];
    assert batch[0] in multiset(batch);
    RemoveTakesOne(jobs, batch[0]);
  }

  /** The queue without each job of a batch. */
  function RemoveAll(jobs: seq<Job>, batch: seq<Job>): seq<Job>
    requires multiset(batch) <= multiset(jobs)
    decreases |batch|
  {
    if batch == [] then jobs
    else
      TakeFirst(jobs, batch);
      RemoveAll(Remove(jobs, batch[0]), batch[1..])
  }

  lemma {:induction false} RemoveAllTakesBatch(jobs: seq<Job>, batch: seq<Job>)
    requires multiset(batch) <= multiset(jobs)
    ensures multiset(RemoveAll(jobs, batch)) == multiset(jobs) - multiset(batch)
    ensures |RemoveAll(jobs, batch)| == |jobs| - |batch|
    ensures Total(RemoveAll(jobs, batch)) == Total(jobs) - Total(batch)
    ensures forall x | x in RemoveAll(jobs, batch) :: x in jobs
    decreases |batch|
  {
    if batch != [] {
      TakeFirst(jobs, batch);
      RemoveTakesOne(jobs, batch[0]);
      TotalFirst(batch);
      RemoveAllTakesBatch(Remove(jobs, batch[0]), batch[1..]);
    }
  }

  function Filter(jobs: seq<Job>, keep: Job -> bool): (r: seq<Job>)
    ensures forall x | x in r :: x in jobs && keep(x)
    ensures forall x | x in jobs && keep(x) :: x in r
    ensures multiset(r) <= multiset(jobs)
  {
    if jobs == [] then []
    else
      assert jobs == jobs[..|jobs| - 1] + [jobs[|jobs| - 1]];
      var front := Filter(jobs[..|jobs| - 1], keep);
      if keep(jobs[|jobs| - 1]) then front + [jobs[|jobs| - 1]] else front
  }

  // ----- counting occurrences ------------------------------------------------------------

  function Places(jobs: seq<Job>, x: Job): set<int> {
    set i | 0 <= i < |jobs| && jobs[i] == x
  }

  /** How often a job occurs. */
  function Count(jobs: seq<Job>, x: Job): nat {
    |Places(jobs, x)|
  }

  lemma {:induction false} CountIsMultiplicity(jobs: seq<Job>, x: Job)
    ensures Count(jobs, x) == multiset(jobs)[x]
  {
    if jobs == [] {
      assert Places(jobs, x) == {};
    } else {
      var n := |jobs| - 1;
      CountIsMultiplicity(jobs[..n], x);
      assert jobs == jobs[..n] + [jobs[n]];
      assert Places(jobs, x) == Places(jobs[..n], x) + (if jobs[n] == x then {n} else {});
    }
  }

  lemma CountConcat(a: seq<Job>, b: seq<Job>, x: Job)
    ensures Count(a + b, x) == Count(a, x) + Count(b, x)
  {
    CountIsMultiplicity(a, x);
    CountIsMultiplicity(b, x);
    CountIsMultiplicity(a + b, x);
  }

  lemma CountMember(jobs: seq<Job>, x: Job)
    ensures Count(jobs, x) > 0 <==> x in jobs
  {
    CountIsMultiplicity(jobs, x);
    assert x in jobs <==> x in multiset(jobs);
  }

  lemma CountFirst(jobs: seq<Job>, x: Job)
    requires jobs != []
    ensures Count(jobs, x) == Count(jobs[1..], x) + (if x == jobs[0] then 1 else 0)
  {
    CountConcat([jobs[0]], jobs[1..], x);
    CountOne(jobs[0], x);
    assert jobs == [jobs[0]] + jobs[1..];
  }

  lemma CountSnoc(jobs: seq<Job>, job: Job, x: Job)
    ensures Count(jobs + [job], x) == Count(jobs, x) + (if x == job then 1 else 0)
  {
    CountConcat(jobs, [job], x);
    CountOne(job, x);
  }

  lemma CountOne(job: Job, x: Job)
    ensures Count([job], x) == if x == job then 1 else 0
  {
    CountIsMultiplicity([job], x);
  }

  lemma CountNone(x: Job)
    ensures Count([], x) == 0
  {
    CountIsMultiplicity([], x);
  }

  lemma SameCount(a: seq<Job>, b: seq<Job>, x: Job)
    requires multiset(a) == multiset(b)
    ensures Count(a, x) == Count(b, x)
  {
    CountIsMultiplicity(a, x);
    CountIsMultiplicity(b, x);
  }

  lemma RemoveCount(jobs: seq<Job>, job: Job, x: Job)
    requires job in jobs
    ensures Count(Remove(jobs, job), x) == Count(jobs, x) - (if x == job then 1 else 0)
  {
    RemoveTakesOne(jobs, job);
    CountIsMultiplicity(jobs, x);
    CountIsMultiplicity(Remove(jobs, job), x);
    assert job in multiset(jobs);
  }

  lemma RemoveAllCount(jobs: seq<Job>, batch: seq<Job>, x: Job)
    requires multiset(batch) <= multiset(jobs)
    ensures Count(RemoveAll(jobs, batch), x) == Count(jobs, x) - Count(batch, x)
  {
    RemoveAllTakesBatch(jobs, batch);
    CountIsMultiplicity(jobs, x);
    CountIsMultiplicity(batch, x);
    CountIsMultiplicity(RemoveAll(jobs, batch), x);
  }

  lemma FilterCount(jobs: seq<Job>, keep: Job -> bool, x: Job)
    ensures Count(Filter(jobs, keep), x) <= Count(jobs, x)
  {
    CountIsMultiplicity(jobs, x);
    CountIsMultiplicity(Filter(jobs, keep), x);
  }

  /** What is kept is kept as often as it was there. */
  lemma {:induction false} KeptCount(jobs: seq<Job>, keep: Job -> bool, x: Job)
    requires keep(x)
    ensures Count(Filter(jobs, keep), x) == Count(jobs, x)
  {
    if jobs == [] {
      CountNone(x);
    } else {
      var front, last := jobs[..|jobs| - 1], jobs[|jobs| - 1];
      assert jobs == front + [last];
      KeptCount(front, keep, x);
      CountSnoc(front, last, x);
      if keep(last) {
        CountSnoc(Filter(front, keep), last, x);
      }
    }
  }
}
