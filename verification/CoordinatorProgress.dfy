/** Progress of the owner thread (app/asr_inference.py): its steps alone lead to a state in
    which no job is left and everything has been given back, and cannot go on for ever. */
module CoordinatorProgress {
  import opened Pcm
  import opened Coordinator
  import opened CoordinatorRuns
  import opened CoordinatorCounts
  import opened CoordinatorTheorems

  /** The owner thread at work on the queue, up to the end of the thread. */
  predicate OwnerStep(step: Step) {
    step.DoTake? || step.DoGiveSlot? || step.DoReject? || step.DoWarmupFails? || step.DoClaim? || step.DoMarkBatch?
    || step.DoRun? || step.DoLookForPoison? || step.DoCleanPoisoned? || step.DoGiveAudio? || step.DoGiveSession?
    || step.DoGiveStream? || step.DoFinish? || step.DoLeave? || step.DoClear?
  }

  predicate Unfinished(s: State) {
    s.queue != {} || s.worker.Working?
  }

  // ----- how far the owner thread is ----------------------------------------------------

  function StageLeft(stage: Stage, marked: bool): (n: nat)
    ensures 3 <= n <= 12
  {
    match stage
    case Taken => 12
    case Deciding => 11
    case Running => if marked then 9 else 10
    case Over => 8
    case Poisonous => 7
    case GivingAudio => 6
    case GivingSession => 5
    case GivingStream => 4
    case Closing => 3
  }

  function WorkerLeft(s: State): (n: nat)
    ensures n <= 12
  {
    match s.worker
    case Working(_, stage, _) => StageLeft(stage, s.batch.running)
    case Leaving => 2
    case Draining => 1
    case Idle => 0
    case Down => 0
  }

  /** More than the owner thread has left to do. */
  function Left(s: State): nat {
    13 * |s.queue| + WorkerLeft(s)
  }

  /** Every step of the owner thread brings it nearer to the end. */
  lemma OwnerStepNearer(cfg: Config, s: State, step: Step)
    requires PlaceInv(s) && Enabled(s, step) && OwnerStep(step)
    ensures Left(Next(cfg, s, step)) < Left(s)
  {
    if step.DoTake? {
      assert |s.queue - {step.id}| == |s.queue| - 1;
    } else if step.DoGiveSlot? || step.DoReject? {
      DecidingNearer(cfg, s, step);
    } else if step.DoWarmupFails? || step.DoClaim? || step.DoMarkBatch? || step.DoRun? {
      RunningNearer(cfg, s, step);
    } else if step.DoLookForPoison? || step.DoCleanPoisoned? {
      PoisonNearer(cfg, s, step);
    } else if step.DoGiveAudio? || step.DoGiveSession? {
      ReleaseNearer(cfg, s, step);
    } else {
      EndNearer(cfg, s, step);
    }
  }

  lemma DecidingNearer(cfg: Config, s: State, step: Step)
    requires Enabled(s, step)
    requires step.DoGiveSlot? || step.DoReject?
    ensures Next(cfg, s, step).queue == s.queue && WorkerLeft(Next(cfg, s, step)) < WorkerLeft(s)
  {
  }

  lemma RunningNearer(cfg: Config, s: State, step: Step)
    requires Enabled(s, step)
    requires step.DoWarmupFails? || step.DoClaim? || step.DoMarkBatch? || step.DoRun?
    ensures Next(cfg, s, step).queue == s.queue && WorkerLeft(Next(cfg, s, step)) < WorkerLeft(s)
  {
  }

  lemma PoisonNearer(cfg: Config, s: State, step: Step)
    requires Enabled(s, step)
    requires step.DoLookForPoison? || step.DoCleanPoisoned?
    ensures Next(cfg, s, step).queue == s.queue && WorkerLeft(Next(cfg, s, step)) < WorkerLeft(s)
  {
  }

  lemma ReleaseNearer(cfg: Config, s: State, step: Step)
    requires Enabled(s, step)
    requires step.DoGiveAudio? || step.DoGiveSession?
    ensures Next(cfg, s, step).queue == s.queue && WorkerLeft(Next(cfg, s, step)) < WorkerLeft(s)
  {
  }

  lemma EndNearer(cfg: Config, s: State, step: Step)
    requires Enabled(s, step)
    requires step.DoGiveStream? || step.DoFinish? || step.DoLeave? || step.DoClear?
    ensures Next(cfg, s, step).queue == s.queue && WorkerLeft(Next(cfg, s, step)) < WorkerLeft(s)
  {
  }

  // ----- it is never stuck --------------------------------------------------------------

  /** The job the queue hands out. */
  lemma {:induction false} SomeIsFirst(s: State, ids: set<nat>) returns (first: nat)
    requires ids != {} && forall i | i in ids :: i < |s.jobs|
    ensures first in ids
    ensures forall other | other in ids ::
              || Priority(s.jobs[first].request) < Priority(s.jobs[other].request)
              || (Priority(s.jobs[first].request) == Priority(s.jobs[other].request) && first <= other)
    decreases |ids|
  {
    var some :| some in ids;
    if ids == {some} {
      first := some;
    } else {
      first := SomeIsFirst(s, ids - {some});
      var p, q := Priority(s.jobs[some].request), Priority(s.jobs[first].request);
      if p < q || (p == q && some < first) {
        first := some;
      }
    }
  }

  /** A step of the owner thread for the job in its hands. */
  function OwnStep(s: State): Step
    requires s.worker.Working? && s.worker.id < |s.jobs|
  {
    match s.worker.stage
    case Taken => DoGiveSlot
    case Deciding => if s.worker.draining then DoReject(false) else DoClaim
    case Running => if s.jobs[s.worker.id].request.WholeFile? && !s.batch.running then DoMarkBatch else DoRun(true)
    case Over => DoLookForPoison
    case Poisonous => DoCleanPoisoned
    case GivingAudio => DoGiveAudio
    case GivingSession => DoGiveSession
    case GivingStream => DoGiveStream
    case Closing => DoFinish(false)
  }

  lemma OwnerCanGoOn(s: State) returns (step: Step)
    requires PlaceInv(s) && Unfinished(s)
    ensures OwnerStep(step) && Enabled(s, step)
  {
    if s.worker.Working? {
      step := OwnStep(s);
    } else if s.worker.Leaving? {
      step := DoLeave;
    } else {
      var first := SomeIsFirst(s, s.queue);
      step := DoTake(first);
    }
  }

  // ----- so it finishes -----------------------------------------------------------------

  predicate OwnerSteps(steps: seq<Step>) {
    forall i | 0 <= i < |steps| :: OwnerStep(steps[i])
  }

  /** The state a further run leads to, if each step was possible when it was taken. */
  function Onward(cfg: Config, s: State, steps: seq<Step>): Option<State>
    decreases |steps|
  {
    if steps == [] then Some(s)
    else if Enabled(s, steps[0]) then Onward(cfg, Next(cfg, s, steps[0]), steps[1..])
    else None
  }

  lemma OnwardFirst(cfg: Config, s: State, step: Step, steps: seq<Step>)
    requires Enabled(s, step)
    ensures Onward(cfg, s, [step] + steps) == Onward(cfg, Next(cfg, s, step), steps)
  {
    assert ([step] + steps)[1..] == steps;
  }

  lemma {:induction false} OnwardIsAfter(cfg: Config, steps: seq<Step>, more: seq<Step>)
    requires StateAfter(cfg, steps).Some?
    ensures StateAfter(cfg, steps + more) == Onward(cfg, StateAfter(cfg, steps).value, more)
    decreases |more|
  {
    if more == [] {
      assert steps + more == steps;
    } else {
      var one := steps + [more[0]];
      assert one[..|steps|] == steps;
      assert steps + more == one + more[1..];
      if Enabled(StateAfter(cfg, steps).value, more[0]) {
        OnwardIsAfter(cfg, one, more[1..]);
      } else {
        NeverAfter(cfg, one, more[1..]);
      }
    }
  }

  lemma {:induction false} NeverAfter(cfg: Config, steps: seq<Step>, more: seq<Step>)
    requires StateAfter(cfg, steps).None?
    ensures StateAfter(cfg, steps + more).None?
    decreases |more|
  {
    if more == [] {
      assert steps + more == steps;
    } else {
      assert (steps + more)[..|steps + more| - 1] == steps + more[..|more| - 1];
      NeverAfter(cfg, steps, more[..|more| - 1]);
    }
  }

  /** Whatever the owner thread does by itself, it does at most so much of it. */
  lemma {:induction false} OwnerRunsEnd(cfg: Config, s: State, steps: seq<Step>)
    requires Inv(cfg, s) && OwnerSteps(steps) && Onward(cfg, s, steps).Some?
    ensures |steps| <= Left(s) && Inv(cfg, Onward(cfg, s, steps).value)
    decreases |steps|
  {
    if steps != [] {
      OwnerStepNearer(cfg, s, steps[0]);
      NextKeeps(cfg, s, steps[0]);
      OwnerRunsEnd(cfg, Next(cfg, s, steps[0]), steps[1..]);
    }
  }

  lemma {:induction false} OwnerCanFinish(cfg: Config, s: State) returns (steps: seq<Step>)
    requires Inv(cfg, s)
    ensures OwnerSteps(steps) && Onward(cfg, s, steps).Some? && !Unfinished(Onward(cfg, s, steps).value)
    decreases Left(s)
  {
    if Unfinished(s) {
      var step := OwnerCanGoOn(s);
      OwnerStepNearer(cfg, s, step);
      NextKeeps(cfg, s, step);
      var rest := OwnerCanFinish(cfg, Next(cfg, s, step));
      OnwardFirst(cfg, s, step, rest);
      steps := [step] + rest;
    } else {
      steps := [];
    }
  }

  /** From every reachable state steps of the owner thread alone empty the queue; then every
      job has been decided, and all slots, audio and busy marks are back. */
  lemma OwnerGivesEverythingBack(cfg: Config, steps: seq<Step>) returns (more: seq<Step>)
    requires StateAfter(cfg, steps).Some?
    ensures OwnerSteps(more) && |more| <= Left(StateAfter(cfg, steps).value) && StateAfter(cfg, steps + more).Some?
    ensures var t := StateAfter(cfg, steps + more).value;
            && t.queue == {} && !t.worker.Working?
            && t.businessJobs == 0 && t.queuedAudio == 0.0 && t.busy == {} && t.streams == t.active
            && forall i | 0 <= i < |t.jobs| :: !t.jobs[i].future.Pending?
  {
    ReachableInv(cfg, steps);
    var s := StateAfter(cfg, steps).value;
    more := OwnerCanFinish(cfg, s);
    OwnerRunsEnd(cfg, s, more);
    OnwardIsAfter(cfg, steps, more);
    EverythingIsGivenBack(cfg, steps + more);
    AllDecided(Onward(cfg, s, more).value);
  }

  lemma AllDecided(t: State)
    requires PlaceInv(t) && !Unfinished(t)
    ensures forall i | 0 <= i < |t.jobs| :: !t.jobs[i].future.Pending?
  {
    forall i | 0 <= i < |t.jobs| ensures !t.jobs[i].future.Pending? {
      assert JobOk(t, i);
    }
  }

  /** And if the owner thread runs by itself until it can go no further, that is where it is. */
  lemma StuckMeansFinished(cfg: Config, steps: seq<Step>, more: seq<Step>)
    requires StateAfter(cfg, steps).Some? && StateAfter(cfg, steps + more).Some? && OwnerSteps(more)
    requires forall step :: OwnerStep(step) ==> !Enabled(StateAfter(cfg, steps + more).value, step)
    ensures |more| <= Left(StateAfter(cfg, steps).value)
    ensures StateAfter(cfg, steps + more).value.queue == {} && !StateAfter(cfg, steps + more).value.worker.Working?
  {
    ReachableInv(cfg, steps);
    OnwardIsAfter(cfg, steps, more);
    OwnerRunsEnd(cfg, StateAfter(cfg, steps).value, more);
    if Unfinished(StateAfter(cfg, steps + more).value) {
      var step := OwnerCanGoOn(StateAfter(cfg, steps + more).value);
    }
  }

  // ----- a stop ends the thread ---------------------------------------------------------

  /** The shutdown job waits or is being handled, or the thread is on its way out. */
  ghost predicate Stopping(s: State) {
    || (exists i :: i in s.queue && i < |s.jobs| && s.jobs[i].request.Shutdown?)
    || (s.worker.Working? && s.worker.id < |s.jobs| && (s.worker.draining || s.jobs[s.worker.id].request.Shutdown?))
    || s.worker.Leaving? || s.worker.Draining? || s.worker.Down?
  }

  lemma StoppingStays(cfg: Config, s: State, step: Step)
    requires PlaceInv(s) && Stopping(s) && Enabled(s, step) && OwnerStep(step)
    ensures Stopping(Next(cfg, s, step))
  {
    if step.DoGiveSlot? || step.DoReject? || step.DoWarmupFails? || step.DoClaim? || step.DoMarkBatch? || step.DoRun? {
      DecidingStops(cfg, s, step);
    } else if !step.DoTake? && !step.DoLeave? && !step.DoClear? {
      ReleaseStops(cfg, s, step);
    } else if step.DoTake? {
      TakeStops(s, step.id);
    }
  }

  /** The same queue, the same job with the same request in the same hands. */
  ghost predicate SameErrand(s: State, t: State) {
    && t.queue == s.queue && |t.jobs| == |s.jobs|
    && (forall i | 0 <= i < |s.jobs| :: t.jobs[i].request == s.jobs[i].request)
  }

  lemma DecidingStops(cfg: Config, s: State, step: Step)
    requires Stopping(s) && Enabled(s, step)
    requires step.DoGiveSlot? || step.DoReject? || step.DoWarmupFails? || step.DoClaim? || step.DoMarkBatch? || step.DoRun?
    ensures Stopping(Next(cfg, s, step))
  {
    DecidingErrand(cfg, s, step);
  }

  lemma DecidingErrand(cfg: Config, s: State, step: Step)
    requires Enabled(s, step)
    requires step.DoGiveSlot? || step.DoReject? || step.DoWarmupFails? || step.DoClaim? || step.DoMarkBatch? || step.DoRun?
    ensures var t := Next(cfg, s, step);
            && SameErrand(s, t) && t.worker.Working? && t.worker.id == s.worker.id && t.worker.draining == s.worker.draining
  {
  }

  lemma ReleaseStops(cfg: Config, s: State, step: Step)
    requires Stopping(s) && Enabled(s, step)
    requires step.DoLookForPoison? || step.DoCleanPoisoned? || step.DoGiveAudio? || step.DoGiveSession?
             || step.DoGiveStream? || step.DoFinish?
    ensures Stopping(Next(cfg, s, step))
  {
    ReleaseErrand(cfg, s, step);
  }

  lemma ReleaseErrand(cfg: Config, s: State, step: Step)
    requires Enabled(s, step)
    requires step.DoLookForPoison? || step.DoCleanPoisoned? || step.DoGiveAudio? || step.DoGiveSession?
             || step.DoGiveStream? || step.DoFinish?
    ensures var t := Next(cfg, s, step);
            && SameErrand(s, t)
            && if step.DoFinish? then
                 t.worker == (if s.worker.draining then Draining
                              else if step.crash || s.jobs[s.worker.id].request.Shutdown? then Leaving else Idle)
               else t.worker.Working? && t.worker.id == s.worker.id && t.worker.draining == s.worker.draining
  {
    if step.DoFinish? {
      FinishErrand(s, step.crash);
    } else if step.DoGiveStream? {
      StreamErrand(s);
    }
  }

  lemma FinishErrand(s: State, crash: bool)
    requires InStage(s, Closing)
    ensures SameErrand(s, Finish(s, crash))
  {
  }

  lemma StreamErrand(s: State)
    requires InStage(s, GivingStream)
    ensures SameErrand(s, GiveStream(s))
  {
  }

  lemma TakeStops(s: State, id: nat)
    requires PlaceInv(s) && Stopping(s) && Enabled(s, DoTake(id))
    ensures Stopping(s.(queue := s.queue - {id}, worker := Working(id, Taken, s.worker.Draining?)))
  {
    var t := s.(queue := s.queue - {id}, worker := Working(id, Taken, s.worker.Draining?));
    if i :| i in s.queue && i < |s.jobs| && s.jobs[i].request.Shutdown? {
      assert i == id || i in t.queue;
    }
  }

  lemma {:induction false} OwnerStaysStopping(cfg: Config, s: State, steps: seq<Step>)
    requires Inv(cfg, s) && Stopping(s) && OwnerSteps(steps) && Onward(cfg, s, steps).Some?
    ensures Stopping(Onward(cfg, s, steps).value)
    decreases |steps|
  {
    if steps != [] {
      StoppingStays(cfg, s, steps[0]);
      NextKeeps(cfg, s, steps[0]);
      OwnerStaysStopping(cfg, Next(cfg, s, steps[0]), steps[1..]);
    }
  }

  /** Once the shutdown job has been put into the queue, the owner thread by itself comes to
      its end, everything cleared, after a bounded number of steps. */
  lemma StopEndsThread(cfg: Config, steps: seq<Step>, more: seq<Step>)
    requires StateAfter(cfg, steps).Some? && StateAfter(cfg, steps + more).Some? && OwnerSteps(more)
    requires Stopping(StateAfter(cfg, steps).value)
    requires forall step :: OwnerStep(step) ==> !Enabled(StateAfter(cfg, steps + more).value, step)
    ensures |more| <= Left(StateAfter(cfg, steps).value)
    ensures StateAfter(cfg, steps + more).value.worker == Down
  {
    ReachableInv(cfg, steps);
    StuckMeansFinished(cfg, steps, more);
    OnwardIsAfter(cfg, steps, more);
    OwnerStaysStopping(cfg, StateAfter(cfg, steps).value, more);
    StuckIsDown(StateAfter(cfg, steps + more).value);
  }

  lemma StuckIsDown(t: State)
    requires Stopping(t) && !Unfinished(t) && forall step :: OwnerStep(step) ==> !Enabled(t, step)
    ensures t.worker == Down
  {
    assert !Enabled(t, DoLeave) && !Enabled(t, DoClear);
  }

  /** A stop of a running thread puts the shutdown job there, once. */
  lemma StopIsHeard(cfg: Config, steps: seq<Step>)
    requires StateAfter(cfg, steps).Some? && Enabled(StateAfter(cfg, steps).value, DoStop)
    ensures var s := StateAfter(cfg, steps).value;
            !s.worker.Down? && s.loopActive && !s.shutdownRequested ==> Stopping(RequestStop(cfg, s))
  {
    PutNeverFails(cfg, steps, Shutdown);
    var s := StateAfter(cfg, steps).value;
    if !s.worker.Down? && s.loopActive && !s.shutdownRequested {
      var t := RequestStop(cfg, s);
      assert |s.jobs| in t.queue && t.jobs[|s.jobs|].request.Shutdown?;
    }
  }
}
