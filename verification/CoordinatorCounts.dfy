/** The coordinator's counters against what its jobs really hold. */
module CoordinatorCounts {
  import opened Pcm
  import opened Coordinator
  import opened CoordinatorRuns

  // ----- sums and sets ------------------------------------------------------------------

  function TotalAudio(xs: seq<real>): real {
    if xs == [] then 0.0 else TotalAudio(xs[..|xs| - 1]) + xs[|xs| - 1]
  }

  lemma SumSnoc(xs: seq<real>, x: real)
    ensures TotalAudio(xs + [x]) == TotalAudio(xs) + x
  {
    assert (xs + [x])[..|xs|] == xs;
  }

  lemma {:induction false} SumUpdate(xs: seq<real>, i: nat, x: real)
    requires i < |xs|
    ensures TotalAudio(xs[i := x]) == TotalAudio(xs) - xs[i] + x
    decreases |xs|
  {
    var front := xs[..|xs| - 1];
    if i == |xs| - 1 {
      assert xs[i := x][..|xs| - 1] == front;
    } else {
      SumUpdate(front, i, x);
      assert xs[i := x][..|xs| - 1] == front[i := x];
    }
  }

  lemma {:induction false} PartOfSum(xs: seq<real>, i: nat)
    requires i < |xs| && forall k | 0 <= k < |xs| :: xs[k] >= 0.0
    ensures xs[i] <= TotalAudio(xs) && TotalAudio(xs[..|xs| - 1]) >= 0.0
    decreases |xs|
  {
    if |xs| > 1 {
      PartOfSum(xs[..|xs| - 1], if i < |xs| - 1 then i else 0);
    }
  }

  lemma {:induction false} NothingSums(xs: seq<real>)
    requires forall k | 0 <= k < |xs| :: xs[k] == 0.0
    ensures TotalAudio(xs) == 0.0
    decreases |xs|
  {
    if xs != [] {
      NothingSums(xs[..|xs| - 1]);
    }
  }

  lemma {:induction false} SubsetIsSmaller<T>(a: set<T>, b: set<T>)
    requires a <= b
    ensures |a| <= |b|
    decreases |a|
  {
    if a != {} {
      var x :| x in a;
      SubsetIsSmaller(a - {x}, b - {x});
    }
  }

  // ----- what the counters count --------------------------------------------------------

  function Slots(s: State): set<nat> {
    set i | 0 <= i < |s.jobs| && HoldsSlot(s, i)
  }

  function Amount(s: State, i: nat): real {
    if HoldsAudio(s, i) then AudioOf(s.jobs[i].request) else 0.0
  }

  function Amounts(s: State): (xs: seq<real>)
    ensures |xs| == |s.jobs| && forall i | 0 <= i < |xs| :: xs[i] == Amount(s, i)
  {
    seq(|s.jobs|, i requires 0 <= i => Amount(s, i))
  }

  ghost predicate CountInv(cfg: Config, s: State) {
    && s.businessJobs == |Slots(s)| <= cfg.queueSize
    && s.queuedAudio == TotalAudio(Amounts(s))
    && (forall i, j | i in s.queue && j in s.queue && i < |s.jobs| && j < |s.jobs| ::
          s.jobs[i].request.Shutdown? && s.jobs[j].request.Shutdown? ==> i == j)
    && (forall i | i in s.queue && i < |s.jobs| :: s.jobs[i].request.Shutdown? ==> s.shutdownRequested)
  }

  /** Steps that move no counter. */
  ghost predicate SameCounts(s: State, t: State) {
    && |t.jobs| == |s.jobs|
    && t.businessJobs == s.businessJobs && t.queuedAudio == s.queuedAudio && t.queue <= s.queue
    && (s.shutdownRequested ==> t.shutdownRequested || t.queue == {})
    && (forall i | 0 <= i < |s.jobs| ::
          && t.jobs[i].request == s.jobs[i].request
          && (HoldsSlot(t, i) <==> HoldsSlot(s, i)) && Amount(t, i) == Amount(s, i))
  }

  lemma SameCountsKept(cfg: Config, s: State, t: State)
    requires PlaceInv(s) && CountInv(cfg, s) && SameCounts(s, t)
    ensures CountInv(cfg, t)
  {
    assert Slots(t) == Slots(s);
    assert Amounts(t) == Amounts(s);
  }

  // ----- the queue has room -------------------------------------------------------------

  /** Waiting business jobs all have a slot; besides them at most the shutdown job waits. */
  lemma QueueHasRoom(cfg: Config, s: State)
    requires PlaceInv(s) && CountInv(cfg, s)
    ensures |s.queue| <= s.businessJobs + 1
    ensures !s.shutdownRequested ==> |s.queue| <= s.businessJobs
  {
    var stops := WaitingStops(s);
    OneStop(cfg, s);
    assert s.queue - stops <= Slots(s);
    SubsetIsSmaller(s.queue - stops, Slots(s));
    assert |s.queue - stops| == |s.queue| - |stops|;
  }

  function WaitingStops(s: State): set<nat> {
    set i | i in s.queue && i < |s.jobs| && s.jobs[i].request.Shutdown?
  }

  lemma OneStop(cfg: Config, s: State)
    requires CountInv(cfg, s)
    ensures |WaitingStops(s)| <= 1
    ensures !s.shutdownRequested ==> WaitingStops(s) == {}
  {
    var stops := WaitingStops(s);
    if stops != {} {
      var i :| i in stops;
      assert stops == {i};
    }
  }

  // ----- the steps that move counters ---------------------------------------------------

  /** A new job holds its slot and its audio, and nothing else changes. */
  lemma EnqueueCounts(s: State, u: State, r: Request)
    requires PlaceInv(s) && u.jobs == s.jobs && u.queue == s.queue && u.worker == s.worker
    ensures var t := Enqueued(u, r);
            && Slots(t) == (if r.Shutdown? then Slots(s) else Slots(s) + {|s.jobs|})
            && Amounts(t) == Amounts(s) + [AudioOf(r)]
  {
    var t := Enqueued(u, r);
    forall i | 0 <= i < |t.jobs|
      ensures HoldsSlot(t, i) <==> HoldsSlot(s, i) || (i == |s.jobs| && !r.Shutdown?)
      ensures Amount(t, i) == (Amounts(s) + [AudioOf(r)])[i]
    {
    }
  }

  lemma SubmitKeepsCounts(cfg: Config, s: State, r: Request)
    requires PlaceInv(s) && CountInv(cfg, s) && !r.Shutdown? && AudioOf(r) >= 0.0
    requires Refusal(cfg, s, r).None?
    ensures CountInv(cfg, Enqueued(Counted(Marked(s, r), r), r))
  {
    EnqueueCounts(s, Counted(Marked(s, r), r), r);
    assert |s.jobs| !in Slots(s);
    SumSnoc(Amounts(s), AudioOf(r));
  }

  lemma StopJobKeepsCounts(cfg: Config, s: State, u: State)
    requires PlaceInv(s) && CountInv(cfg, s) && !s.shutdownRequested
    requires u == s.(accepting := false, shutdownRequested := true)
    ensures CountInv(cfg, Enqueued(u, Shutdown))
  {
    EnqueueCounts(s, u, Shutdown);
    SumSnoc(Amounts(s), 0.0);
  }

  lemma StopKeepsCounts(cfg: Config, s: State)
    requires PlaceInv(s) && CountInv(cfg, s)
    ensures CountInv(cfg, RequestStop(cfg, s))
  {
    SameCountsKept(cfg, s, s.(accepting := false));
    if !s.shutdownRequested {
      StopJobKeepsCounts(cfg, s, s.(accepting := false, shutdownRequested := true));
    }
  }

  lemma GiveSlotCounts(s: State)
    requires PlaceInv(s) && InStage(s, Taken)
    ensures Slots(GiveSlot(s)) == Slots(s) - {s.worker.id}
    ensures Amounts(GiveSlot(s)) == Amounts(s)
    ensures Business(s.jobs[s.worker.id]) <==> s.worker.id in Slots(s)
  {
    var t := GiveSlot(s);
    forall i | 0 <= i < |s.jobs|
      ensures HoldsSlot(t, i) <==> HoldsSlot(s, i) && i != s.worker.id
      ensures Amount(t, i) == Amount(s, i)
    {
      assert t.jobs[i].request == s.jobs[i].request;
    }
  }

  /** The business counter is never clamped, and a slot is given back once. */
  lemma GiveSlotKeepsCounts(cfg: Config, s: State)
    requires PlaceInv(s) && CountInv(cfg, s) && InStage(s, Taken)
    ensures CountInv(cfg, GiveSlot(s))
    ensures Business(s.jobs[s.worker.id]) ==> s.businessJobs > 0
  {
    GiveSlotCounts(s);
    assert forall i | 0 <= i < |s.jobs| :: GiveSlot(s).jobs[i].request == s.jobs[i].request;
  }

  lemma AmountsNonNegative(s: State)
    requires PlaceInv(s)
    ensures forall k | 0 <= k < |Amounts(s)| :: Amounts(s)[k] >= 0.0
  {
    forall k | 0 <= k < |Amounts(s)| ensures Amounts(s)[k] >= 0.0 {
      assert JobOk(s, k);
    }
  }

  /** Nor is the audio counter. */
  lemma GiveAudioKeepsCounts(cfg: Config, s: State)
    requires PlaceInv(s) && CountInv(cfg, s) && InStage(s, GivingAudio)
    ensures CountInv(cfg, GiveAudio(s))
    ensures s.queuedAudio >= AudioOf(s.jobs[s.worker.id].request)
  {
    var id, t := s.worker.id, GiveAudio(s);
    AmountsNonNegative(s);
    PartOfSum(Amounts(s), id);
    assert Amounts(t) == Amounts(s)[id := 0.0];
    SumUpdate(Amounts(s), id, 0.0);
    assert Slots(t) == Slots(s);
  }

  lemma ClearKeepsCounts(cfg: Config, s: State)
    requires PlaceInv(s) && CountInv(cfg, s) && s.worker.Draining? && s.queue == {}
    ensures CountInv(cfg, Clear(s))
  {
    NothingHeld(cfg, s);
    var t := Clear(s);
    assert Slots(t) == {};
    NothingSums(Amounts(t));
  }

  /** With nothing queued and nothing in hand, both counters are zero. */
  lemma NothingHeld(cfg: Config, s: State)
    requires PlaceInv(s) && CountInv(cfg, s) && s.queue == {} && !s.worker.Working?
    ensures s.businessJobs == 0 && s.queuedAudio == 0.0
  {
    assert Slots(s) == {};
    NothingSums(Amounts(s));
  }

  // ----- the steps that move none -------------------------------------------------------

  /** The owner thread moving its job on without giving a slot or audio back. */
  lemma HandlingCounts(s: State, t: State)
    requires s.worker.Working? && s.worker.id < |s.jobs| == |t.jobs| && t.queue == s.queue && s.worker.id !in s.queue
    requires t.jobs == s.jobs[s.worker.id := t.jobs[s.worker.id]]
    requires t.jobs[s.worker.id].request == s.jobs[s.worker.id].request
    requires t.businessJobs == s.businessJobs && t.queuedAudio == s.queuedAudio && t.shutdownRequested == s.shutdownRequested
    requires s.worker.stage != Taken && (t.worker.Working? ==> t.worker.id == s.worker.id && t.worker.stage != Taken)
    requires s.worker.stage in BEFORE_AUDIO <==> t.worker.Working? && t.worker.stage in BEFORE_AUDIO
    ensures SameCounts(s, t)
  {
    forall i | 0 <= i < |s.jobs|
      ensures t.jobs[i].request == s.jobs[i].request
      ensures (HoldsSlot(t, i) <==> HoldsSlot(s, i)) && Amount(t, i) == Amount(s, i)
    {
      assert i == s.worker.id || t.jobs[i] == s.jobs[i];
    }
  }

  lemma RecordCounts(s: State, t: State, id: nat)
    requires id < |s.jobs| == |t.jobs| && t.queue == s.queue && t.worker == s.worker
    requires t.jobs == s.jobs[id := t.jobs[id]] && t.jobs[id].request == s.jobs[id].request
    requires t.businessJobs == s.businessJobs && t.queuedAudio == s.queuedAudio && t.shutdownRequested == s.shutdownRequested
    ensures SameCounts(s, t)
  {
    forall i | 0 <= i < |s.jobs| ensures t.jobs[i].request == s.jobs[i].request {
      assert i == id || t.jobs[i] == s.jobs[i];
    }
  }

  lemma CallerCounts(cfg: Config, s: State, step: Step)
    requires Enabled(s, step) && CallerStep(step)
    ensures SameCounts(s, Next(cfg, s, step))
  {
    RecordCounts(s, Next(cfg, s, step), step.id);
  }

  lemma RejectCounts(s: State, late: bool)
    requires PlaceInv(s) && InStage(s, Deciding)
    ensures SameCounts(s, Reject(s, late))
  {
    HandlingCounts(s, Reject(s, late));
  }

  lemma ClaimCounts(s: State)
    requires PlaceInv(s) && InStage(s, Deciding)
    ensures SameCounts(s, Claim(s))
  {
    HandlingCounts(s, Claim(s));
  }

  lemma RunCounts(s: State, ok: bool)
    requires PlaceInv(s) && InStage(s, Running)
    ensures SameCounts(s, Run(s, ok))
  {
    HandlingCounts(s, Run(s, ok));
  }

  lemma DecidingCounts(cfg: Config, s: State, step: Step)
    requires PlaceInv(s) && Enabled(s, step)
    requires step.DoReject? || step.DoWarmupFails? || step.DoClaim? || step.DoRun?
    ensures SameCounts(s, Next(cfg, s, step))
  {
    if step.DoReject? {
      RejectCounts(s, step.late && !s.worker.draining);
    } else if step.DoClaim? {
      ClaimCounts(s);
    } else if step.DoRun? {
      RunCounts(s, step.ok);
    } else {
      HandlingCounts(s, Go(s, Over).(accepting := s.accepting && !step.refuses));
    }
  }

  lemma StreamCounts(s: State)
    requires PlaceInv(s) && InStage(s, GivingStream)
    ensures SameCounts(s, GiveStream(s))
  {
    HandlingCounts(s, GiveStream(s));
  }

  lemma FinishCounts(s: State, crash: bool)
    requires PlaceInv(s) && InStage(s, Closing)
    ensures SameCounts(s, Finish(s, crash))
  {
    HandlingCounts(s, Finish(s, crash));
  }

  lemma ReleaseCounts(cfg: Config, s: State, step: Step)
    requires PlaceInv(s) && Enabled(s, step)
    requires step.DoLookForPoison? || step.DoCleanPoisoned? || step.DoGiveSession? || step.DoGiveStream? || step.DoFinish?
    ensures SameCounts(s, Next(cfg, s, step))
  {
    if step.DoGiveStream? {
      StreamCounts(s);
    } else if step.DoFinish? {
      FinishCounts(s, step.crash);
    } else if step.DoLookForPoison? {
      HandlingCounts(s, LookForPoison(s));
    } else if step.DoCleanPoisoned? {
      HandlingCounts(s, CleanPoisoned(s));
    } else {
      HandlingCounts(s, GiveSession(s));
    }
  }

  lemma TakeCounts(s: State, id: nat)
    requires PlaceInv(s) && Enabled(s, DoTake(id))
    ensures SameCounts(s, s.(queue := s.queue - {id}, worker := Working(id, Taken, s.worker.Draining?)))
  {
  }

  lemma OtherCounts(cfg: Config, s: State, step: Step)
    requires PlaceInv(s) && Enabled(s, step)
    requires step.DoStart? || step.DoPoison? || step.DoForgive? || step.DoLoadFails? || step.DoTake? || step.DoLeave?
          || step.DoAnnounceFile? || step.DoFileOver? || step.DoMarkBatch?
    ensures SameCounts(s, Next(cfg, s, step))
  {
    if step.DoTake? {
      TakeCounts(s, step.id);
    }
  }

  lemma CountsKept(cfg: Config, s: State, step: Step)
    requires PlaceInv(s) && SessionInv(cfg, s) && CountInv(cfg, s) && Enabled(s, step)
    ensures CountInv(cfg, Next(cfg, s, step))
  {
    if step.DoSubmit? {
      AdmissionKeepsCounts(cfg, s, step.request);
    } else if step.DoStop? {
      StopKeepsCounts(cfg, s);
    } else if step.DoGiveSlot? {
      GiveSlotKeepsCounts(cfg, s);
    } else if step.DoGiveAudio? {
      GiveAudioKeepsCounts(cfg, s);
    } else if step.DoClear? {
      ClearKeepsCounts(cfg, s);
    } else {
      UncountedKept(cfg, s, step);
    }
  }

  lemma AdmissionKeepsCounts(cfg: Config, s: State, r: Request)
    requires PlaceInv(s) && SessionInv(cfg, s) && CountInv(cfg, s) && Enabled(s, DoSubmit(r))
    ensures CountInv(cfg, Submit(cfg, s, r))
  {
    QueueHasRoom(cfg, s);
    if Refusal(cfg, s, r).None? {
      SubmitKeepsCounts(cfg, s, r);
    } else {
      RefusedSubmitChangesNothing(cfg, s, r);
    }
  }

  lemma UncountedKept(cfg: Config, s: State, step: Step)
    requires PlaceInv(s) && CountInv(cfg, s) && Enabled(s, step)
    requires !step.DoSubmit? && !step.DoStop? && !step.DoGiveSlot? && !step.DoGiveAudio? && !step.DoClear?
    ensures CountInv(cfg, Next(cfg, s, step))
  {
    UncountedStep(cfg, s, step);
    SameCountsKept(cfg, s, Next(cfg, s, step));
  }

  lemma UncountedStep(cfg: Config, s: State, step: Step)
    requires PlaceInv(s) && Enabled(s, step)
    requires !step.DoSubmit? && !step.DoStop? && !step.DoGiveSlot? && !step.DoGiveAudio? && !step.DoClear?
    ensures SameCounts(s, Next(cfg, s, step))
  {
    if CallerStep(step) {
      CallerCounts(cfg, s, step);
    } else if step.DoReject? || step.DoWarmupFails? || step.DoClaim? || step.DoRun? {
      DecidingCounts(cfg, s, step);
    } else if step.DoLookForPoison? || step.DoCleanPoisoned? || step.DoGiveSession? || step.DoGiveStream? || step.DoFinish? {
      ReleaseCounts(cfg, s, step);
    } else {
      OtherCounts(cfg, s, step);
    }
  }
}
