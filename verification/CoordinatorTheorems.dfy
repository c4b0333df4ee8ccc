/** What the coordinator promises in every reachable state. */
module CoordinatorTheorems {
  import opened Pcm
  import opened Coordinator
  import opened CoordinatorRuns
  import opened CoordinatorCounts

  ghost predicate Inv(cfg: Config, s: State) {
    PlaceInv(s) && SessionInv(cfg, s) && CountInv(cfg, s)
  }

  /** The state after a run of steps, if each was possible when it was taken. */
  function StateAfter(cfg: Config, steps: seq<Step>): Option<State> {
    if steps == [] then Some(INITIAL)
    else
      var before := StateAfter(cfg, steps[..|steps| - 1]);
      if before.Some? && Enabled(before.value, steps[|steps| - 1]) then
        Some(Next(cfg, before.value, steps[|steps| - 1]))
      else None
  }

  lemma InitialInv(cfg: Config)
    ensures Inv(cfg, INITIAL)
  {
    assert Slots(INITIAL) == {};
    assert Amounts(INITIAL) == [];
  }

  lemma NextKeeps(cfg: Config, s: State, step: Step)
    requires Inv(cfg, s) && Enabled(s, step)
    ensures Inv(cfg, Next(cfg, s, step))
  {
    QueueHasRoom(cfg, s);
    PlaceKept(cfg, s, step);
    SessionsKept(cfg, s, step);
    CountsKept(cfg, s, step);
  }

  lemma {:induction false} ReachableInv(cfg: Config, steps: seq<Step>)
    ensures StateAfter(cfg, steps).Some? ==> Inv(cfg, StateAfter(cfg, steps).value)
    decreases |steps|
  {
    if steps == [] {
      InitialInv(cfg);
    } else {
      var before := StateAfter(cfg, steps[..|steps| - 1]);
      ReachableInv(cfg, steps[..|steps| - 1]);
      if before.Some? && Enabled(before.value, steps[|steps| - 1]) {
        NextKeeps(cfg, before.value, steps[|steps| - 1]);
      }
    }
  }

  // ----- capacity -----------------------------------------------------------------------

  /** Neither `queue.Full` branch can be taken: an admitted job always finds a slot, and the
      slot for the shutdown job is free until it has been used. */
  lemma PutNeverFails(cfg: Config, steps: seq<Step>, r: Request)
    requires StateAfter(cfg, steps).Some?
    ensures var s := StateAfter(cfg, steps).value;
            && (Refusal(cfg, s, r).None? ==> !PutFails(cfg, s))
            && (!s.shutdownRequested ==> !PutFails(cfg, s))
            && |set i | i in s.queue && HoldsSlot(s, i)| <= s.businessJobs <= cfg.queueSize
  {
    ReachableInv(cfg, steps);
    var s := StateAfter(cfg, steps).value;
    QueueHasRoom(cfg, s);
    var waiting := set i | i in s.queue && HoldsSlot(s, i);
    assert waiting <= Slots(s);
    SubsetIsSmaller(waiting, Slots(s));
  }

  /** Active sessions have a stream reservation, of which there are never too many, and no
      session has two unfinished operations. */
  lemma SessionsAreBounded(cfg: Config, steps: seq<Step>)
    requires StateAfter(cfg, steps).Some?
    ensures var s := StateAfter(cfg, steps).value;
            && s.active <= s.streams && |s.streams| <= cfg.maxStreams
            && (forall i, j, x :: OpenOp(s, i, x) && OpenOp(s, j, x) ==> i == j)
  {
    ReachableInv(cfg, steps);
  }

  // ----- claim or cancel ----------------------------------------------------------------

  /** A job reported as a queue timeout has not run, a job that ran is not reported as one;
      and once the owner thread is through with a job, exactly one side has decided: it ran
      exactly if it was claimed. */
  lemma ClaimExcludesTimeout(cfg: Config, steps: seq<Step>, i: nat)
    requires StateAfter(cfg, steps).Some? && i < |StateAfter(cfg, steps).value.jobs|
    ensures var s := StateAfter(cfg, steps).value; var j := s.jobs[i];
            && !(j.executed && j.outcome.QueueTimedOut?)
            && (Gone(s, i) ==> !j.future.Pending? && (j.executed <==> j.future.Claimed?))
            && (j.future.Cancelled? ==> !j.executed && j.outcome in {QueueTimedOut, Abandoned})
  {
    ReachableInv(cfg, steps);
    assert JobOk(StateAfter(cfg, steps).value, i);
  }

  /** What has been reported to a caller is final. */
  lemma OutcomeStays(cfg: Config, s: State, step: Step, i: nat)
    requires Enabled(s, step) && i < |s.jobs| && !s.jobs[i].outcome.Waiting?
    ensures i < |Next(cfg, s, step).jobs| && Next(cfg, s, step).jobs[i].outcome == s.jobs[i].outcome
  {
    if CallerStep(step) {
      OthersOutcomeStays(cfg, s, step, i);
    } else if DecisionStep(step) {
      DecisionLeavesOutcome(cfg, s, step, i);
    } else if ArrivalStep(step) {
      ArrivalLeavesOutcome(cfg, s, step, i);
    }
  }

  lemma OthersOutcomeStays(cfg: Config, s: State, step: Step, i: nat)
    requires Enabled(s, step) && CallerStep(step) && i < |s.jobs| && !s.jobs[i].outcome.Waiting?
    ensures i < |Next(cfg, s, step).jobs| && Next(cfg, s, step).jobs[i].outcome == s.jobs[i].outcome
  {
    assert i != step.id;
  }

  lemma HandlingLeavesOutcome(s: State, i: nat, late: bool, ok: bool)
    requires s.worker.Working? && s.worker.id < |s.jobs| && i < |s.jobs|
    ensures GiveSlot(s).jobs[i].outcome == s.jobs[i].outcome == Reject(s, late).jobs[i].outcome
    ensures Claim(s).jobs[i].outcome == s.jobs[i].outcome == Run(s, ok).jobs[i].outcome
  {
  }

  lemma DecisionLeavesOutcome(cfg: Config, s: State, step: Step, i: nat)
    requires Enabled(s, step) && DecisionStep(step) && i < |s.jobs|
    ensures i < |Next(cfg, s, step).jobs| && Next(cfg, s, step).jobs[i].outcome == s.jobs[i].outcome
  {
    if !step.DoTake? {
      HandlingLeavesOutcome(s, i, step.DoReject? && step.late && !s.worker.draining, step.DoRun? && step.ok);
    }
  }

  lemma ArrivalLeavesOutcome(cfg: Config, s: State, step: Step, i: nat)
    requires Enabled(s, step) && ArrivalStep(step) && i < |s.jobs|
    ensures i < |Next(cfg, s, step).jobs| && Next(cfg, s, step).jobs[i].outcome == s.jobs[i].outcome
  {
  }

  lemma {:induction false} OutcomeIsFinal(cfg: Config, steps: seq<Step>, more: seq<Step>, i: nat)
    requires StateAfter(cfg, steps).Some? && StateAfter(cfg, steps + more).Some?
    requires i < |StateAfter(cfg, steps).value.jobs| && !StateAfter(cfg, steps).value.jobs[i].outcome.Waiting?
    ensures i < |StateAfter(cfg, steps + more).value.jobs|
    ensures StateAfter(cfg, steps + more).value.jobs[i].outcome == StateAfter(cfg, steps).value.jobs[i].outcome
    decreases |more|
  {
    if more == [] {
      assert steps + more == steps;
    } else {
      assert (steps + more)[..|steps + more| - 1] == steps + more[..|more| - 1];
      OutcomeIsFinal(cfg, steps, more[..|more| - 1], i);
      OutcomeStays(cfg, StateAfter(cfg, steps + more[..|more| - 1]).value, more[|more| - 1], i);
    }
  }

  /** So a job whose caller was told it expired in the queue never runs afterwards either. */
  lemma ExpiredJobNeverRuns(cfg: Config, steps: seq<Step>, more: seq<Step>, i: nat)
    requires StateAfter(cfg, steps).Some? && StateAfter(cfg, steps + more).Some?
    requires i < |StateAfter(cfg, steps).value.jobs| && StateAfter(cfg, steps).value.jobs[i].outcome.QueueTimedOut?
    ensures i < |StateAfter(cfg, steps + more).value.jobs| && !StateAfter(cfg, steps + more).value.jobs[i].executed
  {
    OutcomeIsFinal(cfg, steps, more, i);
    ClaimExcludesTimeout(cfg, steps + more, i);
  }

  // ----- reservations come back ---------------------------------------------------------

  /** The two `max(0, ...)` never cut anything off. */
  lemma CountersAreNeverClamped(cfg: Config, steps: seq<Step>)
    requires StateAfter(cfg, steps).Some?
    ensures var s := StateAfter(cfg, steps).value;
            && (InStage(s, Taken) && Business(s.jobs[s.worker.id]) ==> s.businessJobs - 1 >= 0)
            && (InStage(s, GivingAudio) ==> s.queuedAudio - AudioOf(s.jobs[s.worker.id].request) >= 0.0)
  {
    ReachableInv(cfg, steps);
    var s := StateAfter(cfg, steps).value;
    if InStage(s, Taken) {
      GiveSlotKeepsCounts(cfg, s);
    }
    if InStage(s, GivingAudio) {
      GiveAudioKeepsCounts(cfg, s);
    }
  }

  /** Whatever happened before, when no job is waiting and none is in hand, every queue slot,
      all queued audio and every busy mark is back, and the only stream reservations left are
      those of sessions that are open. */
  lemma EverythingIsGivenBack(cfg: Config, steps: seq<Step>)
    requires StateAfter(cfg, steps).Some?
    ensures var s := StateAfter(cfg, steps).value;
            s.queue == {} && !s.worker.Working? ==>
              s.businessJobs == 0 && s.queuedAudio == 0.0 && s.busy == {} && s.streams == s.active
  {
    ReachableInv(cfg, steps);
    var s := StateAfter(cfg, steps).value;
    if s.queue == {} && !s.worker.Working? {
      NothingHeld(cfg, s);
      forall i: nat, y ensures !OpenOp(s, i, y) && !Keeps(s, i, y) {
        if i < |s.jobs| {
          assert JobOk(s, i);
        }
      }
    }
  }

  /** The counters are exact in between, too. */
  lemma CountersAreExact(cfg: Config, steps: seq<Step>)
    requires StateAfter(cfg, steps).Some?
    ensures var s := StateAfter(cfg, steps).value;
            && s.businessJobs == |set i | 0 <= i < |s.jobs| && HoldsSlot(s, i)|
            && s.queuedAudio == TotalAudio(Amounts(s))
  {
    ReachableInv(cfg, steps);
    var s := StateAfter(cfg, steps).value;
    assert Slots(s) == set i | 0 <= i < |s.jobs| && HoldsSlot(s, i);
  }
}
