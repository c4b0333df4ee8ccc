/** Who is let in (app/asr_inference.py): admission said by what the jobs hold, and what it
    means for a session to be poisoned. */
module CoordinatorAdmission {
  import opened Pcm
  import opened Coordinator
  import opened CoordinatorRuns
  import opened CoordinatorCounts
  import opened CoordinatorTheorems

  // ----- admission, exactly -------------------------------------------------------------

  /** The session is open, in good standing, and has no unfinished operation. */
  ghost predicate Serves(s: State, session: string) {
    && session != "" && session in s.active && session !in s.poisoned
    && forall i :: !OpenOp(s, i, session)
  }

  /** What a request needs besides room. */
  ghost predicate Welcome(cfg: Config, s: State, r: Request) {
    match r
    case NewStream(_) => !s.batch.pending && !s.batch.running && |s.streams| < cfg.maxStreams
    case SessionOp(session, _, _) => Serves(s, session)
    case _ => true
  }

  /** In every reachable state a request is admitted if and only if the coordinator accepts,
      the request is welcome, and the audio and the slots that jobs hold leave room for it. */
  lemma AdmittedExactly(cfg: Config, steps: seq<Step>, r: Request)
    requires StateAfter(cfg, steps).Some?
    ensures var s := StateAfter(cfg, steps).value;
            Refusal(cfg, s, r).None? <==>
              && s.accepting && Welcome(cfg, s, r)
              && TotalAudio(Amounts(s)) + AudioOf(r) <= cfg.maxAudio
              && |set i | 0 <= i < |s.jobs| && HoldsSlot(s, i)| < cfg.queueSize
  {
    ReachableInv(cfg, steps);
    CountersAreExact(cfg, steps);
    var s := StateAfter(cfg, steps).value;
    if r.SessionOp? && r.session in s.active {
      BusyIsOpen(cfg, s, r.session);
    }
  }

  lemma BusyIsOpen(cfg: Config, s: State, session: string)
    requires SessionInv(cfg, s) && session in s.active
    ensures session in s.busy <==> exists i :: OpenOp(s, i, session)
  {
  }

  /** An admitted request is a job that waits; any other leaves no trace. */
  lemma AdmissionQueues(cfg: Config, steps: seq<Step>, r: Request)
    requires StateAfter(cfg, steps).Some? && Enabled(StateAfter(cfg, steps).value, DoSubmit(r))
    ensures var s := StateAfter(cfg, steps).value; var t := Submit(cfg, s, r);
            if Refusal(cfg, s, r).Some? then t == s
            else
              && |t.jobs| == |s.jobs| + 1 && t.jobs[..|s.jobs|] == s.jobs && t.queue == s.queue + {|s.jobs|}
              && t.jobs[|s.jobs|].request == r && t.jobs[|s.jobs|].future.Pending?
              && t.jobs[|s.jobs|].outcome.Waiting? && !t.jobs[|s.jobs|].executed
  {
    ReachableInv(cfg, steps);
    var s := StateAfter(cfg, steps).value;
    PutNeverFails(cfg, steps, r);
    if Refusal(cfg, s, r).Some? {
      RefusedSubmitChangesNothing(cfg, s, r);
    }
  }

  // ----- after a stop -------------------------------------------------------------------

  /** Until the next start nothing is admitted once the coordinator has stopped accepting. */
  lemma {:induction false} NothingAfterStop(cfg: Config, s: State, steps: seq<Step>, t: State)
    requires !s.accepting && forall i | 0 <= i < |steps| :: !steps[i].DoStart?
    requires Leads(cfg, s, steps, t)
    ensures !t.accepting && forall r :: Refusal(cfg, t, r) == Some(CoordinatorNotReady)
    decreases |steps|
  {
    if steps != [] {
      NothingAfterStop(cfg, Next(cfg, s, steps[0]), steps[1..], t);
    }
  }

  /** `steps` lead from `s` to `t`. */
  ghost predicate Leads(cfg: Config, s: State, steps: seq<Step>, t: State)
    decreases |steps|
  {
    if steps == [] then s == t else Enabled(s, steps[0]) && Leads(cfg, Next(cfg, s, steps[0]), steps[1..], t)
  }

  /** A step opens or closes the coordinator exactly as follows. */
  lemma AcceptingExactly(cfg: Config, s: State, step: Step)
    requires Enabled(s, step)
    ensures Next(cfg, s, step).accepting <==>
              || step.DoStart?
              || (s.accepting && !step.DoStop? && !step.DoLoadFails? && !step.DoLeave? && !(step.DoWarmupFails? && step.refuses))
  {
    if CallerStep(step) {
      CallerKeepsOpen(cfg, s, step);
    } else if DecisionStep(step) {
      DecisionKeepsOpen(cfg, s, step);
    } else if step.DoSubmit? {
      var admitted := SubmitShape(cfg, s, step.request);
    } else if step.DoStop? {
      StopCloses(cfg, s);
    }
  }

  lemma CallerKeepsOpen(cfg: Config, s: State, step: Step)
    requires Enabled(s, step) && CallerStep(step)
    ensures Next(cfg, s, step).accepting == s.accepting
  {
  }

  lemma DecisionKeepsOpen(cfg: Config, s: State, step: Step)
    requires Enabled(s, step) && DecisionStep(step)
    ensures Next(cfg, s, step).accepting <==> s.accepting && !(step.DoWarmupFails? && step.refuses)
  {
  }

  lemma StopCloses(cfg: Config, s: State)
    ensures !RequestStop(cfg, s).accepting
  {
  }

  // ----- poisoned sessions --------------------------------------------------------------

  /** An operation on a poisoned session is refused for that reason, and changes nothing. */
  lemma PoisonedIsRefused(cfg: Config, s: State, session: string, closes: bool, audio: real)
    requires s.accepting && session in s.poisoned
    ensures Refusal(cfg, s, SessionOp(session, closes, audio)) == Some(SessionPoisoned)
    ensures Submit(cfg, s, SessionOp(session, closes, audio)) == s
  {
  }

  /** A caller that times out on a running job, or walks away from a claimed one, poisons the
      session; one that leaves a job nobody has claimed does not. */
  lemma GivingUpPoisons(cfg: Config, s: State, id: nat)
    requires CallerWaits(s, id) && SessionOf(s.jobs[id].request).Some?
    ensures var x := SessionOf(s.jobs[id].request).value; var future := s.jobs[id].future;
            && (future in {Claimed, Settled} ==> x in Next(cfg, s, DoInferenceTimeout(id)).poisoned)
            && (x in Next(cfg, s, DoAbandon(id)).poisoned <==> x in s.poisoned || (!future.Pending? && !future.Cancelled?))
            && (x in Next(cfg, s, DoQueueTimeout(id)).poisoned <==> x in s.poisoned)
  {
  }

  /** A session is pardoned by its own caller, cleaned up by the owner thread, or forgotten at
      the end of the thread. */
  predicate Pardons(s: State, step: Step, session: string) {
    || step == DoForgive(session)
    || step.DoClear?
    || (step.DoCleanPoisoned? && InStage(s, Poisonous) && SessionOf(s.jobs[s.worker.id].request) == Some(session))
  }

  predicate Poisons(s: State, step: Step, session: string) {
    match step
    case DoPoison(x) => x == session
    case DoInferenceTimeout(id) => id < |s.jobs| && SessionOf(s.jobs[id].request) == Some(session)
    case DoAbandon(id) =>
      id < |s.jobs| && SessionOf(s.jobs[id].request) == Some(session)
      && !s.jobs[id].future.Pending? && !s.jobs[id].future.Cancelled?
    case _ => false
  }

  /** A session is poisoned after a step if and only if the step poisons it, or it was poisoned
      and the step does not pardon it. */
  lemma PoisonedExactly(cfg: Config, s: State, step: Step, session: string)
    requires Enabled(s, step)
    ensures session in Next(cfg, s, step).poisoned <==>
              Poisons(s, step, session) || (session in s.poisoned && !Pardons(s, step, session))
  {
    if CallerStep(step) {
      CallerPoisons(cfg, s, step, session);
    } else if DecisionStep(step) {
      DecisionKeepsPoison(cfg, s, step);
    } else {
      OtherPoisons(cfg, s, step, session);
    }
  }

  lemma OtherPoisons(cfg: Config, s: State, step: Step, session: string)
    requires Enabled(s, step) && !CallerStep(step) && !DecisionStep(step)
    ensures session in Next(cfg, s, step).poisoned <==>
              step == DoPoison(session) || (session in s.poisoned && !Pardons(s, step, session))
  {
    if step.DoSubmit? {
      var admitted := SubmitShape(cfg, s, step.request);
    } else if step.DoCleanPoisoned? {
      CleaningPardons(s, session);
    }
  }

  lemma CleaningPardons(s: State, session: string)
    requires InStage(s, Poisonous)
    ensures session in CleanPoisoned(s).poisoned <==>
              session in s.poisoned && SessionOf(s.jobs[s.worker.id].request) != Some(session)
  {
  }

  lemma CallerPoisons(cfg: Config, s: State, step: Step, session: string)
    requires Enabled(s, step) && CallerStep(step)
    ensures session in Next(cfg, s, step).poisoned <==> Poisons(s, step, session) || session in s.poisoned
  {
  }

  lemma DecisionKeepsPoison(cfg: Config, s: State, step: Step)
    requires Enabled(s, step) && DecisionStep(step)
    ensures Next(cfg, s, step).poisoned == s.poisoned
  {
  }

  ghost predicate OpFor(j: Job, session: string) {
    j.request.SessionOp? && j.request.session == session
  }

  /** While a session is poisoned no step admits an operation on it. */
  lemma PoisonedAdmitsNone(cfg: Config, s: State, step: Step, session: string)
    requires Enabled(s, step) && session in s.poisoned
    ensures var t := Next(cfg, s, step);
            |s.jobs| <= |t.jobs| && forall i | |s.jobs| <= i < |t.jobs| :: !OpFor(t.jobs[i], session)
  {
    if step.DoSubmit? {
      SubmitAdmitsNone(cfg, s, step.request, session);
    } else if step.DoStop? {
      StopAdmitsNone(cfg, s, session);
    } else {
      NoJobArrives(cfg, s, step);
    }
  }

  lemma SubmitAdmitsNone(cfg: Config, s: State, r: Request, session: string)
    requires session in s.poisoned
    ensures var t := Submit(cfg, s, r);
            |s.jobs| <= |t.jobs| && forall i | |s.jobs| <= i < |t.jobs| :: !OpFor(t.jobs[i], session)
  {
    var admitted := SubmitShape(cfg, s, r);
  }

  /** A submission adds its job, or none. */
  lemma SubmitShape(cfg: Config, s: State, r: Request) returns (admitted: bool)
    ensures var t := Submit(cfg, s, r);
            && t.active == s.active && t.poisoned == s.poisoned && t.accepting == s.accepting
            && t.jobs == (if admitted then s.jobs + [Job(r, r.NewStream?, Pending, false, Waiting)] else s.jobs)
            && t.used == (if admitted && r.NewStream? then s.used + {r.session} else s.used)
    ensures admitted ==> NotAdmissible(cfg, s, r).None?
  {
    admitted := false;
    if NotAdmissible(cfg, s, r).None? {
      admitted := PlaceShape(cfg, Marked(s, r), r);
    }
  }

  lemma PlaceShape(cfg: Config, s: State, r: Request) returns (placed: bool)
    ensures var t := Place(cfg, s, r);
            && t.active == s.active && t.poisoned == s.poisoned && t.accepting == s.accepting
            && t.jobs == (if placed then s.jobs + [Job(r, r.NewStream?, Pending, false, Waiting)] else s.jobs)
            && t.used == (if placed && r.NewStream? then s.used + {r.session} else s.used)
  {
    placed := OverLimit(cfg, s, r).None? && !PutFails(cfg, s);
  }

  lemma StopAdmitsNone(cfg: Config, s: State, session: string)
    ensures var t := RequestStop(cfg, s);
            && |s.jobs| <= |t.jobs| && t.jobs[..|s.jobs|] == s.jobs
            && forall i | |s.jobs| <= i < |t.jobs| :: !OpFor(t.jobs[i], session)
  {
  }

  lemma NoJobArrives(cfg: Config, s: State, step: Step)
    requires Enabled(s, step) && !step.DoSubmit? && !step.DoStop?
    ensures |Next(cfg, s, step).jobs| == |s.jobs|
  {
    if CallerStep(step) {
      CallerBringsNone(cfg, s, step);
    } else if DecisionStep(step) {
      DecisionBringsNone(cfg, s, step);
    }
  }

  lemma CallerBringsNone(cfg: Config, s: State, step: Step)
    requires Enabled(s, step) && CallerStep(step)
    ensures |Next(cfg, s, step).jobs| == |s.jobs|
  {
  }

  lemma DecisionBringsNone(cfg: Config, s: State, step: Step)
    requires Enabled(s, step) && DecisionStep(step)
    ensures |Next(cfg, s, step).jobs| == |s.jobs|
  {
  }

  /** No step of the run pardons the session. */
  ghost predicate Unpardoned(cfg: Config, s: State, steps: seq<Step>, session: string)
    decreases |steps|
  {
    steps != [] ==> !Pardons(s, steps[0], session)
                    && (Enabled(s, steps[0]) ==> Unpardoned(cfg, Next(cfg, s, steps[0]), steps[1..], session))
  }

  /** So from the moment it is poisoned until it is pardoned, a session stays poisoned and no
      operation on it is admitted, whatever happens. */
  lemma {:induction false} PoisonedUntilPardoned(cfg: Config, s: State, steps: seq<Step>, t: State, session: string)
    requires session in s.poisoned && Unpardoned(cfg, s, steps, session) && Leads(cfg, s, steps, t)
    ensures session in t.poisoned
    ensures |s.jobs| <= |t.jobs|
    ensures forall i | |s.jobs| <= i < |t.jobs| :: !OpFor(t.jobs[i], session)
    decreases |steps|
  {
    if steps != [] {
      var u := Next(cfg, s, steps[0]);
      PoisonedExactly(cfg, s, steps[0], session);
      PoisonedAdmitsNone(cfg, s, steps[0], session);
      PoisonedUntilPardoned(cfg, u, steps[1..], t, session);
      forall i | |s.jobs| <= i < |t.jobs| ensures !OpFor(t.jobs[i], session) {
        if i < |u.jobs| {
          RequestsStay(cfg, u, steps[1..], t, i);
        }
      }
    }
  }

  /** What a job asks for never changes. */
  lemma {:induction false} RequestsStay(cfg: Config, s: State, steps: seq<Step>, t: State, i: nat)
    requires Leads(cfg, s, steps, t) && i < |s.jobs|
    ensures i < |t.jobs| && t.jobs[i].request == s.jobs[i].request
    decreases |steps|
  {
    if steps != [] {
      RequestStays(cfg, s, steps[0], i);
      RequestsStay(cfg, Next(cfg, s, steps[0]), steps[1..], t, i);
    }
  }

  lemma RequestStays(cfg: Config, s: State, step: Step, i: nat)
    requires Enabled(s, step) && i < |s.jobs|
    ensures i < |Next(cfg, s, step).jobs| && Next(cfg, s, step).jobs[i].request == s.jobs[i].request
  {
    if CallerStep(step) {
      CallerKeepsRequest(cfg, s, step, i);
    } else if DecisionStep(step) {
      DecisionKeepsRequest(cfg, s, step, i);
    } else if ArrivalStep(step) {
      ArrivalKeepsRequest(cfg, s, step, i);
    }
  }

  lemma CallerKeepsRequest(cfg: Config, s: State, step: Step, i: nat)
    requires Enabled(s, step) && CallerStep(step) && i < |s.jobs|
    ensures i < |Next(cfg, s, step).jobs| && Next(cfg, s, step).jobs[i].request == s.jobs[i].request
  {
  }

  lemma DecisionKeepsRequest(cfg: Config, s: State, step: Step, i: nat)
    requires Enabled(s, step) && DecisionStep(step) && i < |s.jobs|
    ensures i < |Next(cfg, s, step).jobs| && Next(cfg, s, step).jobs[i].request == s.jobs[i].request
  {
  }

  lemma ArrivalKeepsRequest(cfg: Config, s: State, step: Step, i: nat)
    requires Enabled(s, step) && ArrivalStep(step) && i < |s.jobs|
    ensures i < |Next(cfg, s, step).jobs| && Next(cfg, s, step).jobs[i].request == s.jobs[i].request
  {
    if step.DoSubmit? {
      var admitted := SubmitShape(cfg, s, step.request);
    } else if step.DoStop? {
      StopAdmitsNone(cfg, s, "");
    }
  }

  // ----- sessions that are over ---------------------------------------------------------

  /** Nobody can open the session any more. */
  ghost predicate Past(s: State, session: string) {
    session in s.used && session !in s.active && forall i :: !Keeps(s, i, session)
  }

  /** A step opens at most the session of the stream at hand, and hands no stream out. */
  lemma StepOpens(cfg: Config, s: State, step: Step)
    requires Inv(cfg, s) && Enabled(s, step) && !step.DoSubmit?
    ensures var t := Next(cfg, s, step);
            && s.used <= t.used
            && (forall i, x :: Keeps(t, i, x) ==> Keeps(s, i, x))
            && (forall x | x in t.active :: x in s.active || exists i :: Keeps(s, i, x))
  {
    if Quiet(step) {
      QuietIsSame(cfg, s, step);
    } else if step.DoRun? {
      RunSets(s, step.ok);
      RunHolds(s, step.ok);
      assert JobOk(s, s.worker.id);
      var r := s.jobs[s.worker.id].request;
      if r.NewStream? {
        assert Keeps(s, s.worker.id, r.session);
      }
    } else if step.DoStop? {
      StopOpens(cfg, s);
    } else {
      ReleaseOpens(cfg, s, step);
    }
  }

  lemma StopOpens(cfg: Config, s: State)
    ensures var t := RequestStop(cfg, s);
            && t.used == s.used && t.active == s.active && forall i, x :: Keeps(t, i, x) ==> Keeps(s, i, x)
  {
  }

  lemma ReleaseOpens(cfg: Config, s: State, step: Step)
    requires Enabled(s, step)
    requires step.DoCleanPoisoned? || step.DoGiveSession? || step.DoGiveStream? || step.DoClear?
    ensures var t := Next(cfg, s, step);
            && t.used == s.used && t.active <= s.active && forall i, x :: Keeps(t, i, x) ==> Keeps(s, i, x)
  {
  }

  lemma PastStays(cfg: Config, s: State, step: Step, session: string)
    requires Inv(cfg, s) && Enabled(s, step) && Past(s, session)
    ensures Past(Next(cfg, s, step), session)
  {
    if step.DoSubmit? {
      SubmitKeepsPast(cfg, s, step.request, session);
    } else {
      StepOpens(cfg, s, step);
    }
  }

  lemma SubmitKeepsPast(cfg: Config, s: State, r: Request, session: string)
    requires Enabled(s, DoSubmit(r)) && Past(s, session)
    ensures Past(Submit(cfg, s, r), session)
  {
    var admitted := SubmitShape(cfg, s, r);
    KeepsNoMore(s, Submit(cfg, s, r), r, admitted, session);
  }

  lemma KeepsNoMore(s: State, t: State, r: Request, admitted: bool, session: string)
    requires t.jobs == if admitted then s.jobs + [Job(r, r.NewStream?, Pending, false, Waiting)] else s.jobs
    requires (forall i :: !Keeps(s, i, session)) && (r.NewStream? ==> r.session != session)
    ensures forall i :: !Keeps(t, i, session)
  {
    forall i: nat ensures !Keeps(t, i, session) {
      assert !Keeps(s, i, session);
    }
  }

  /** A session that leaves the active set was closed, cleaned up or forgotten, and is past. */
  lemma LeavingIsPast(cfg: Config, s: State, step: Step, session: string)
    requires Inv(cfg, s) && Enabled(s, step) && session in s.active && session !in Next(cfg, s, step).active
    ensures Past(Next(cfg, s, step), session)
  {
    if step.DoSubmit? {
      SubmitKeepsActive(cfg, s, step.request);
    } else {
      StepOpens(cfg, s, step);
    }
  }

  lemma SubmitKeepsActive(cfg: Config, s: State, r: Request)
    ensures Submit(cfg, s, r).active == s.active
  {
    var admitted := SubmitShape(cfg, s, r);
  }

  /** And never comes back: every later operation on it is refused. */
  lemma {:induction false} PastForEver(cfg: Config, s: State, steps: seq<Step>, t: State, session: string)
    requires Inv(cfg, s) && Past(s, session) && Leads(cfg, s, steps, t)
    ensures session !in t.active
    ensures forall closes, audio :: Refusal(cfg, t, SessionOp(session, closes, audio)).Some?
    decreases |steps|
  {
    if steps != [] {
      PastStays(cfg, s, steps[0], session);
      NextKeeps(cfg, s, steps[0]);
      PastForEver(cfg, Next(cfg, s, steps[0]), steps[1..], t, session);
    }
  }

  // ----- opening and closing ------------------------------------------------------------

  /** A stream that has been opened is served, unless it is poisoned; one that could not be
      opened is not. */
  lemma OpenedIsServed(cfg: Config, s: State, session: string)
    requires Inv(cfg, s) && InStage(s, Running) && s.jobs[s.worker.id].request == NewStream(session)
    requires session != "" && session !in s.poisoned
    ensures Serves(Run(s, true), session)
    ensures session !in Run(s, false).active
  {
    var id := s.worker.id;
    assert JobOk(s, id);
    assert Keeps(s, id, session);
    RunSets(s, true);
    RunSets(s, false);
    OpenedHasNoOp(cfg, s, session);
  }

  lemma OpenedHasNoOp(cfg: Config, s: State, session: string)
    requires Inv(cfg, s) && InStage(s, Running) && Keeps(s, s.worker.id, session) && session !in s.active
    ensures forall i: nat :: !OpenOp(Run(s, true), i, session)
  {
    RunHolds(s, true);
    forall i: nat ensures !OpenOp(Run(s, true), i, session) {
      assert !OpenOp(s, i, session);
    }
  }

  /** A session whose closing operation has run is past, whether or not it failed. */
  lemma ClosedIsPast(cfg: Config, s: State, ok: bool)
    requires Inv(cfg, s) && Enabled(s, DoRun(ok))
    requires var r := s.jobs[s.worker.id].request; r.SessionOp? && r.closes && r.session in s.active
    ensures Past(Run(s, ok), s.jobs[s.worker.id].request.session)
  {
    RunSets(s, ok);
    LeavingIsPast(cfg, s, DoRun(ok), s.jobs[s.worker.id].request.session);
  }

  // ----- the order of service, and what callers hear ------------------------------------

  /** The shutdown job is taken before any other, a file only when no streaming work waits, and
      jobs of one kind in the order of their submission. */
  lemma TakesInOrder(s: State, id: nat, other: nat)
    requires Enabled(s, DoTake(id)) && other in s.queue && other < |s.jobs|
    ensures s.jobs[other].request.Shutdown? ==> s.jobs[id].request.Shutdown?
    ensures s.jobs[id].request.WholeFile? ==> s.jobs[other].request.WholeFile?
    ensures Priority(s.jobs[id].request) == Priority(s.jobs[other].request) ==> id <= other
  {
  }

  /** What each caller is told: an expired job is a queue timeout whoever notices first, a job
      turned away otherwise is not ready; and a caller that gives up cancels a job only while
      nobody has claimed it. */
  lemma CallersHear(cfg: Config, s: State, id: nat)
    requires CallerWaits(s, id)
    ensures s.jobs[id].future.Rejected? ==>
              Next(cfg, s, DoHearRejection(id)).jobs[id].outcome == if s.jobs[id].future.late then QueueTimedOut else NotReady
    ensures var j := Next(cfg, s, DoQueueTimeout(id)).jobs[id];
            if s.jobs[id].future.Pending? || s.jobs[id].future.Cancelled? then j.future == Cancelled && j.outcome == QueueTimedOut
            else j == s.jobs[id]
    ensures var j := Next(cfg, s, DoAbandon(id)).jobs[id];
            && j.outcome == Abandoned
            && j.future == if s.jobs[id].future.Pending? then Cancelled else s.jobs[id].future
    ensures s.jobs[id].future in {Claimed, Settled} ==> Next(cfg, s, DoInferenceTimeout(id)).jobs[id].outcome == InferenceTimedOut
  {
  }

  /** The owner thread claims exactly the jobs nobody has cancelled, and runs what it claims. */
  lemma ClaimsExactly(s: State, ok: bool)
    requires s.worker.Working? && s.worker.id < |s.jobs|
    ensures var id, t := s.worker.id, Claim(s);
            if s.jobs[id].future.Pending? then t.jobs[id].future == Claimed && InStage(t, Running)
            else t.jobs[id] == s.jobs[id] && InStage(t, Over)
    ensures Run(s, ok).jobs[s.worker.id].executed
  {
  }

  /** A poisoned session is found out when its next job is over, and forgotten altogether. */
  lemma PoisonIsCleanedUp(s: State)
    requires InStage(s, Over) && SessionOf(s.jobs[s.worker.id].request).Some?
    ensures var x := SessionOf(s.jobs[s.worker.id].request).value; var looked := LookForPoison(s);
            && (InStage(looked, Poisonous) <==> x in s.poisoned)
            && (x in s.poisoned ==>
                  var t := CleanPoisoned(looked);
                  x !in t.poisoned && x !in t.busy && x !in t.active && x !in t.streams)
  {
  }
}
