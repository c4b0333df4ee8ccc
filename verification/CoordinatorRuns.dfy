/** What holds in every state the coordinator can reach. */
module CoordinatorRuns {
  import opened Pcm
  import opened Coordinator

  // ----- one job ------------------------------------------------------------------------

  /** Not run yet. */
  predicate Early(s: State, i: nat) {
    i in s.queue || At(s, i, {Taken, Deciding, Running})
  }

  ghost predicate JobOk(s: State, i: nat)
    requires i < |s.jobs|
  {
    var j := s.jobs[i];
    && AudioOf(j.request) >= 0.0 && (Business(j) || j.outcome.Waiting?)
    && (i in s.queue || At(s, i, {Taken, Deciding}) ==> j.future in {Pending, Cancelled})
    && (Early(s, i) && j.request.NewStream? ==> j.keepsStream)
    && (At(s, i, {Running}) ==> j.future.Claimed? && !j.executed && !s.worker.draining)
    && (At(s, i, {Deciding}) ==> Business(j) || s.worker.draining)
    && (j.executed ==> j.future.Claimed?)
    && (j.future.Claimed? ==> Business(j) && (j.executed || At(s, i, {Running})))
    && (Gone(s, i) ==> !j.future.Pending?)
    && (s.worker.Working? && s.worker.id == i && s.worker.draining && s.worker.stage !in {Taken, Deciding} ==> !j.future.Pending?)
    && (j.outcome.QueueTimedOut? ==> j.future == Cancelled || j.future == Rejected(true))
    && (j.future.Cancelled? ==> j.outcome in {QueueTimedOut, Abandoned})
    && (j.keepsStream ==> j.request.NewStream? && (i in s.queue || At(s, i, BEFORE_STREAM)))
  }

  ghost predicate PlaceInv(s: State) {
    && (forall i | i in s.queue :: i < |s.jobs|)
    && (s.worker.Working? ==> s.worker.id < |s.jobs| && s.worker.id !in s.queue)
    && (s.worker.Down? || s.worker.Draining? || (s.worker.Working? && s.worker.draining) ==> !s.accepting && !s.loopActive)
    && (s.worker.Down? ==> s.queue == {})
    && (forall i | 0 <= i < |s.jobs| :: JobOk(s, i))
  }

  /** The owner thread has the job in its hands. */
  predicate InHand(s: State, i: nat) {
    s.worker.Working? && s.worker.id == i
  }

  /** A step does not concern a job whose record, place and stage it leaves alone. */
  lemma UntouchedJobKept(s: State, t: State, i: nat)
    requires i < |s.jobs| && i < |t.jobs| && JobOk(s, i)
    requires t.jobs[i] == s.jobs[i] && (i in s.queue <==> i in t.queue)
    requires t.worker == s.worker || (!InHand(s, i) && !InHand(t, i))
    ensures JobOk(t, i)
  {
  }

  ghost predicate Untouched(s: State, t: State, id: nat) {
    && |s.jobs| <= |t.jobs|
    && forall i | 0 <= i < |s.jobs| && i != id ::
         && t.jobs[i] == s.jobs[i] && (i in s.queue <==> i in t.queue)
         && (t.worker == s.worker || (!InHand(s, i) && !InHand(t, i)))
  }

  /** So only the job a step is about, and a new one, need looking at. */
  lemma TouchedJobDecides(s: State, t: State, id: nat)
    requires PlaceInv(s) && Untouched(s, t, id)
    requires forall i | 0 <= i < |t.jobs| && (i == id || i >= |s.jobs|) :: JobOk(t, i)
    ensures forall i | 0 <= i < |t.jobs| :: JobOk(t, i)
  {
    forall i | 0 <= i < |t.jobs| ensures JobOk(t, i) {
      if i != id && i < |s.jobs| {
        UntouchedJobKept(s, t, i);
      }
    }
  }

  predicate CallerStep(step: Step) {
    step.DoQueueTimeout? || step.DoHearRejection? || step.DoInferenceTimeout? || step.DoAnswer? || step.DoAbandon?
  }

  predicate ArrivalStep(step: Step) {
    step.DoStart? || step.DoSubmit? || step.DoStop? || step.DoPoison? || step.DoForgive? || step.DoLoadFails?
    || step.DoAnnounceFile? || step.DoFileOver? || step.DoMarkBatch?
  }

  predicate DecisionStep(step: Step) {
    step.DoTake? || step.DoGiveSlot? || step.DoReject? || step.DoWarmupFails? || step.DoClaim? || step.DoRun?
  }

  lemma CallerJobKept(s: State, t: State, id: nat)
    requires PlaceInv(s) && id < |s.jobs| && |t.jobs| == |s.jobs|
    requires t.jobs == s.jobs[id := t.jobs[id]] && t.queue == s.queue && t.worker == s.worker
    requires t.accepting == s.accepting && t.loopActive == s.loopActive
    requires JobOk(t, id)
    ensures PlaceInv(t)
  {
    TouchedJobDecides(s, t, id);
  }

  lemma CallerKeepsJobs(cfg: Config, s: State, step: Step)
    requires PlaceInv(s) && Enabled(s, step) && CallerStep(step)
    ensures PlaceInv(Next(cfg, s, step))
  {
    if step.DoQueueTimeout? {
      QueueTimeoutKeepsJobs(s, step.id);
    } else if step.DoAbandon? {
      AbandonKeepsJobs(s, step.id);
    } else {
      assert JobOk(s, step.id);
      CallerJobKept(s, Next(cfg, s, step), step.id);
    }
  }

  lemma QueueTimeoutKeepsJobs(s: State, id: nat)
    requires PlaceInv(s) && CallerWaits(s, id)
    ensures PlaceInv(QueueTimeout(s, id))
  {
    assert JobOk(s, id);
    CallerJobKept(s, QueueTimeout(s, id), id);
  }

  lemma AbandonKeepsJobs(s: State, id: nat)
    requires PlaceInv(s) && CallerWaits(s, id)
    ensures PlaceInv(Abandon(s, id))
  {
    assert JobOk(s, id);
    var t := Abandon(s, id);
    assert t.jobs[id].future == (if s.jobs[id].future.Pending? then Cancelled else s.jobs[id].future);
    CallerJobKept(s, t, id);
  }

  lemma EnqueueKeepsJobs(s: State, r: Request)
    requires PlaceInv(s) && !s.worker.Down? && AudioOf(r) >= 0.0
    ensures PlaceInv(Enqueued(s, r))
  {
    var t := Enqueued(s, r);
    assert JobOk(t, |s.jobs|);
    TouchedJobDecides(s, t, |s.jobs|);
  }

  /** Counters and session sets play no part. */
  lemma SameJobsKept(s: State, t: State)
    requires PlaceInv(s) && t.jobs == s.jobs && t.queue == s.queue && t.worker == s.worker
    requires t.accepting ==> s.accepting
    requires t.loopActive ==> s.loopActive
    ensures PlaceInv(t)
  {
    TouchedJobDecides(s, t, |s.jobs|);
  }

  lemma SubmitKeepsJobs(cfg: Config, s: State, r: Request)
    requires PlaceInv(s) && AudioOf(r) >= 0.0
    ensures PlaceInv(Submit(cfg, s, r))
  {
    if NotAdmissible(cfg, s, r).None? {
      SameJobsKept(s, Marked(s, r));
      PlaceKeepsJobs(cfg, Marked(s, r), r);
    }
  }

  lemma PlaceKeepsJobs(cfg: Config, s: State, r: Request)
    requires PlaceInv(s) && !s.worker.Down? && AudioOf(r) >= 0.0
    ensures PlaceInv(Place(cfg, s, r))
  {
    if OverLimit(cfg, s, r).None? && !PutFails(cfg, s) {
      SameJobsKept(s, Counted(s, r));
      EnqueueKeepsJobs(Counted(s, r), r);
    } else {
      SameJobsKept(s, Place(cfg, s, r));
    }
  }

  lemma StopKeepsJobs(cfg: Config, s: State)
    requires PlaceInv(s)
    ensures PlaceInv(RequestStop(cfg, s))
  {
    var closed := s.(accepting := false);
    SameJobsKept(s, closed);
    SameJobsKept(s, closed.(shutdownRequested := true));
    if !s.worker.Down? {
      EnqueueKeepsJobs(closed.(shutdownRequested := true), Shutdown);
    }
  }

  lemma ArrivalKeepsJobs(cfg: Config, s: State, step: Step)
    requires PlaceInv(s) && Enabled(s, step) && ArrivalStep(step)
    ensures PlaceInv(Next(cfg, s, step))
  {
    if step.DoSubmit? {
      SubmitKeepsJobs(cfg, s, step.request);
    } else if step.DoStop? {
      StopKeepsJobs(cfg, s);
    } else if step.DoStart? {
      TouchedJobDecides(s, Next(cfg, s, step), |s.jobs|);
    } else {
      SameJobsKept(s, Next(cfg, s, step));
    }
  }

  lemma TakeKeepsJobs(s: State, id: nat)
    requires PlaceInv(s) && Enabled(s, DoTake(id))
    ensures PlaceInv(s.(queue := s.queue - {id}, worker := Working(id, Taken, s.worker.Draining?)))
  {
    var t := s.(queue := s.queue - {id}, worker := Working(id, Taken, s.worker.Draining?));
    assert JobOk(s, id);
    assert JobOk(t, id);
    TouchedJobDecides(s, t, id);
  }

  /** The owner thread's step on the job in its hands. */
  lemma HandledJobKept(s: State, t: State)
    requires PlaceInv(s) && s.worker.Working? && |t.jobs| == |s.jobs| && t.queue == s.queue
    requires t.jobs == s.jobs[s.worker.id := t.jobs[s.worker.id]]
    requires t.accepting ==> s.accepting
    requires t.loopActive ==> s.loopActive
    requires t.worker == s.worker.(stage := if t.worker.Working? then t.worker.stage else Closing)
          || (s.worker.draining && t.worker.Draining?) || t.worker.Idle? || t.worker.Leaving?
    requires JobOk(t, s.worker.id)
    ensures PlaceInv(t)
  {
    TouchedJobDecides(s, t, s.worker.id);
  }

  lemma SlotKeepsJobs(s: State)
    requires PlaceInv(s) && InStage(s, Taken)
    ensures PlaceInv(GiveSlot(s))
  {
    assert JobOk(s, s.worker.id);
    HandledJobKept(s, GiveSlot(s));
  }

  lemma RejectKeepsJobs(s: State, late: bool)
    requires PlaceInv(s) && InStage(s, Deciding)
    ensures PlaceInv(Reject(s, late))
  {
    assert JobOk(s, s.worker.id);
    HandledJobKept(s, Reject(s, late));
  }

  lemma ClaimKeepsJobs(s: State)
    requires PlaceInv(s) && InStage(s, Deciding) && !s.worker.draining
    ensures PlaceInv(Claim(s))
  {
    assert JobOk(s, s.worker.id);
    HandledJobKept(s, Claim(s));
  }

  lemma RunKeepsJobs(s: State, ok: bool)
    requires PlaceInv(s) && InStage(s, Running)
    ensures PlaceInv(Run(s, ok))
  {
    assert JobOk(s, s.worker.id);
    HandledJobKept(s, Run(s, ok));
  }

  lemma DecisionKeepsJobs(cfg: Config, s: State, step: Step)
    requires PlaceInv(s) && Enabled(s, step) && DecisionStep(step)
    ensures PlaceInv(Next(cfg, s, step))
  {
    if step.DoTake? {
      TakeKeepsJobs(s, step.id);
    } else if step.DoGiveSlot? {
      SlotKeepsJobs(s);
    } else if step.DoReject? {
      RejectKeepsJobs(s, step.late && !s.worker.draining);
    } else if step.DoClaim? {
      ClaimKeepsJobs(s);
    } else if step.DoRun? {
      RunKeepsJobs(s, step.ok);
    } else {
      assert JobOk(s, s.worker.id);
      HandledJobKept(s, Next(cfg, s, step));
    }
  }

  lemma PassKeepsJobs(s: State, t: State, stage: Stage)
    requires PlaceInv(s) && s.worker.Working? && s.worker.stage !in {Taken, Deciding, Running}
    requires t.jobs == s.jobs && t.queue == s.queue && t.accepting == s.accepting && t.loopActive == s.loopActive
    requires t.worker == s.worker.(stage := stage) && stage !in {Taken, Deciding, Running}
    requires s.jobs[s.worker.id].keepsStream ==> stage in BEFORE_STREAM
    ensures PlaceInv(t)
  {
    assert JobOk(s, s.worker.id);
    HandledJobKept(s, t);
  }

  lemma LastKeepsJobs(s: State, crash: bool)
    requires PlaceInv(s) && InStage(s, Closing)
    ensures PlaceInv(Finish(s, crash))
  {
    assert JobOk(s, s.worker.id);
    HandledJobKept(s, Finish(s, crash));
  }

  lemma StreamKeepsJobs(s: State)
    requires PlaceInv(s) && InStage(s, GivingStream)
    ensures PlaceInv(GiveStream(s))
  {
    assert JobOk(s, s.worker.id);
    HandledJobKept(s, GiveStream(s));
  }

  lemma ReleaseKeepsJobs(cfg: Config, s: State, step: Step)
    requires PlaceInv(s) && Enabled(s, step)
    requires !CallerStep(step) && !ArrivalStep(step) && !DecisionStep(step)
    ensures PlaceInv(Next(cfg, s, step))
  {
    var t := Next(cfg, s, step);
    if step.DoLeave? || step.DoClear? {
      TouchedJobDecides(s, t, |s.jobs|);
    } else if step.DoFinish? {
      LastKeepsJobs(s, step.crash);
    } else if step.DoGiveStream? {
      StreamKeepsJobs(s);
    } else {
      PassKeepsJobs(s, t, t.worker.stage);
    }
  }

  lemma PlaceKept(cfg: Config, s: State, step: Step)
    requires PlaceInv(s) && Enabled(s, step)
    ensures PlaceInv(Next(cfg, s, step))
  {
    if CallerStep(step) {
      CallerKeepsJobs(cfg, s, step);
    } else if ArrivalStep(step) {
      ArrivalKeepsJobs(cfg, s, step);
    } else if DecisionStep(step) {
      DecisionKeepsJobs(cfg, s, step);
    } else {
      ReleaseKeepsJobs(cfg, s, step);
    }
  }

  // ----- sessions -----------------------------------------------------------------------

  /** An unfinished operation on a session. */
  predicate OpenOp(s: State, i: nat, x: string) {
    HoldsSession(s, i) && s.jobs[i].request.session == x
  }

  /** The job that is to open a stream and still owns its reservation. */
  predicate Keeps(s: State, i: nat, x: string) {
    i < |s.jobs| && s.jobs[i].keepsStream && s.jobs[i].request == NewStream(x)
  }

  ghost predicate SessionInv(cfg: Config, s: State) {
    && s.active <= s.streams <= s.used && |s.streams| <= cfg.maxStreams
    && (forall i, j, x :: OpenOp(s, i, x) && OpenOp(s, j, x) ==> i == j)
    && (forall i, x :: OpenOp(s, i, x) ==> (x in s.busy || x !in s.active) && x in s.used)
    && (forall x :: x in s.busy ==> exists i :: OpenOp(s, i, x))
    && (forall i, x :: Keeps(s, i, x) ==> x !in s.active && (Early(s, i) ==> x in s.streams))
    && (forall i, j, x :: Keeps(s, i, x) ==> !OpenOp(s, j, x))
    && (forall x :: x in s.streams ==> x in s.active || exists i :: Keeps(s, i, x))
    && (forall i | 0 <= i < |s.jobs| && s.jobs[i].request.NewStream? :: s.jobs[i].request.session in s.used)
    && (forall i, j | 0 <= i < j < |s.jobs| && s.jobs[i].request.NewStream? ::
          s.jobs[i].request != s.jobs[j].request)
  }

  /** Steps that leave the session sets and what jobs hold alone. */
  ghost predicate SameSessions(s: State, t: State) {
    && t.active == s.active && t.streams == s.streams && t.busy == s.busy && t.used == s.used
    && |t.jobs| == |s.jobs|
    && (forall i | 0 <= i < |s.jobs| ::
          && t.jobs[i].request == s.jobs[i].request && t.jobs[i].keepsStream == s.jobs[i].keepsStream
          && (HoldsSession(t, i) <==> HoldsSession(s, i)) && (Early(t, i) ==> Early(s, i)))
  }

  lemma SameSessionsKept(cfg: Config, s: State, t: State)
    requires SessionInv(cfg, s) && SameSessions(s, t)
    ensures SessionInv(cfg, t)
  {
    assert forall i, x :: OpenOp(t, i, x) <==> OpenOp(s, i, x);
    assert forall i, x :: Keeps(t, i, x) <==> Keeps(s, i, x);
  }

  /** What an arriving job adds to what is held. */
  lemma ArrivalHolds(s: State, u: State, r: Request)
    requires PlaceInv(s) && u.jobs == s.jobs && u.queue == s.queue && u.worker == s.worker
    ensures var t := Enqueued(u, r);
            && (forall i, y :: OpenOp(t, i, y) <==> OpenOp(s, i, y) || (i == |s.jobs| && r.SessionOp? && y == r.session))
            && (forall i, y :: Keeps(t, i, y) <==> Keeps(s, i, y) || (i == |s.jobs| && r == NewStream(y)))
            && (forall i | 0 <= i < |s.jobs| :: Early(t, i) ==> Early(s, i))
  {
  }

  lemma NewStreamKeepsSessions(cfg: Config, s: State, x: string)
    requires PlaceInv(s) && SessionInv(cfg, s) && x !in s.used && |s.streams| < cfg.maxStreams
    ensures SessionInv(cfg, Enqueued(Counted(Marked(s, NewStream(x)), NewStream(x)), NewStream(x)))
  {
    var t := Enqueued(Counted(Marked(s, NewStream(x)), NewStream(x)), NewStream(x));
    ArrivalHolds(s, Counted(Marked(s, NewStream(x)), NewStream(x)), NewStream(x));
    assert Keeps(t, |s.jobs|, x);
  }

  lemma SessionOpKeepsSessions(cfg: Config, s: State, r: Request)
    requires PlaceInv(s) && SessionInv(cfg, s) && r.SessionOp? && r.session in s.active && r.session !in s.busy
    ensures SessionInv(cfg, Enqueued(Counted(Marked(s, r), r), r))
  {
    var t := Enqueued(Counted(Marked(s, r), r), r);
    ArrivalHolds(s, Counted(Marked(s, r), r), r);
    assert OpenOp(t, |s.jobs|, r.session);
  }

  lemma OtherKeepsSessions(cfg: Config, s: State, t: State, r: Request)
    requires PlaceInv(s) && SessionInv(cfg, s) && (r.WholeFile? || r.Shutdown?)
    requires t.jobs == s.jobs && t.queue == s.queue && t.worker == s.worker
    requires t.active == s.active && t.streams == s.streams && t.busy == s.busy && t.used == s.used
    ensures SessionInv(cfg, Enqueued(t, r))
  {
    ArrivalHolds(s, t, r);
  }

  /** What the jobs hold is the same, but for one that may have given its stream away. */
  ghost predicate SameHolds(s: State, t: State, gone: nat) {
    && |t.jobs| == |s.jobs|
    && (forall i | 0 <= i < |s.jobs| ::
          && t.jobs[i].request == s.jobs[i].request
          && (t.jobs[i].keepsStream <==> s.jobs[i].keepsStream && i != gone)
          && (HoldsSession(t, i) <==> HoldsSession(s, i)) && (Early(t, i) ==> Early(s, i)))
  }

  /** The owner thread moving its job on, short of or beyond giving the session back. */
  lemma HandlingHolds(s: State, t: State, gone: nat)
    requires s.worker.Working? && s.worker.id < |s.jobs| == |t.jobs| && t.queue == s.queue && s.worker.id !in s.queue
    requires t.jobs == s.jobs[s.worker.id := t.jobs[s.worker.id]]
    requires t.jobs[s.worker.id].request == s.jobs[s.worker.id].request
    requires t.jobs[s.worker.id].keepsStream <==> s.jobs[s.worker.id].keepsStream && s.worker.id != gone
    requires gone == s.worker.id || gone >= |s.jobs|
    requires t.worker.Working? ==> t.worker.id == s.worker.id
    requires s.worker.stage in BEFORE_SESSION <==> t.worker.Working? && t.worker.stage in BEFORE_SESSION
    requires t.worker.Working? && t.worker.stage in {Taken, Deciding, Running} ==> s.worker.stage in {Taken, Deciding, Running}
    ensures SameHolds(s, t, gone)
  {
    forall i | 0 <= i < |s.jobs|
      ensures (HoldsSession(t, i) <==> HoldsSession(s, i)) && (Early(t, i) ==> Early(s, i))
    {
      assert i == s.worker.id || t.jobs[i] == s.jobs[i];
    }
  }

  /** Opening a stream hands its reservation from the job to the session. */
  lemma OpenKeepsSessions(cfg: Config, s: State, t: State, id: nat, x: string)
    requires SessionInv(cfg, s) && Keeps(s, id, x) && x in s.streams && SameHolds(s, t, id)
    requires t.active == s.active + {x} && t.streams == s.streams && t.busy == s.busy && t.used == s.used
    ensures SessionInv(cfg, t)
  {
    assert forall i, y :: OpenOp(t, i, y) <==> OpenOp(s, i, y);
    assert forall i, y :: Keeps(t, i, y) <==> Keeps(s, i, y) && i != id;
  }

  /** Closing a session gives its reservation back. */
  lemma CloseKeepsSessions(cfg: Config, s: State, t: State, x: string)
    requires SessionInv(cfg, s) && SameHolds(s, t, |s.jobs|)
    requires forall i :: Keeps(s, i, x) ==> !Early(t, i)
    requires t.active == s.active - {x} && t.streams == s.streams - {x} && t.used == s.used
    requires t.busy == s.busy || t.busy == s.busy - {x}
    ensures SessionInv(cfg, t)
  {
    assert forall i, y :: OpenOp(t, i, y) <==> OpenOp(s, i, y);
    assert forall i, y :: Keeps(t, i, y) <==> Keeps(s, i, y);
  }

  lemma RunSets(s: State, ok: bool)
    requires InStage(s, Running)
    ensures var t, r := Run(s, ok), s.jobs[s.worker.id].request;
            && t.active == (if r.NewStream? && ok then s.active + {r.session}
                            else if r.SessionOp? && r.closes then s.active - {r.session} else s.active)
            && t.streams == (if r.SessionOp? && r.closes then s.streams - {r.session} else s.streams)
            && t.busy == s.busy && t.used == s.used
  {
  }

  lemma RunHolds(s: State, ok: bool)
    requires PlaceInv(s) && InStage(s, Running)
    ensures var r := s.jobs[s.worker.id].request;
            SameHolds(s, Run(s, ok), if r.NewStream? && ok then s.worker.id else |s.jobs|)
  {
    var r := s.jobs[s.worker.id].request;
    assert JobOk(s, s.worker.id);
    HandlingHolds(s, Run(s, ok), if r.NewStream? && ok then s.worker.id else |s.jobs|);
  }

  /** Running the job at hand: the only place a session becomes active. */
  lemma RunKeepsSessions(cfg: Config, s: State, ok: bool)
    requires PlaceInv(s) && SessionInv(cfg, s) && InStage(s, Running)
    ensures SessionInv(cfg, Run(s, ok))
  {
    var id, r := s.worker.id, s.jobs[s.worker.id].request;
    assert JobOk(s, id);
    RunSets(s, ok);
    RunHolds(s, ok);
    if r.NewStream? && ok {
      assert Keeps(s, id, r.session);
      OpenKeepsSessions(cfg, s, Run(s, ok), id, r.session);
    } else if r.SessionOp? && r.closes {
      assert OpenOp(s, id, r.session);
      CloseKeepsSessions(cfg, s, Run(s, ok), r.session);
    } else {
      SameSessionsKept(cfg, s, Run(s, ok));
    }
  }

  lemma OneJobPerStream(cfg: Config, s: State, i: nat, j: nat, x: string)
    requires SessionInv(cfg, s) && Keeps(s, i, x) && j < |s.jobs| && s.jobs[j].request == NewStream(x)
    ensures i == j
  {
  }

  lemma CleanKeepsSessions(cfg: Config, s: State)
    requires PlaceInv(s) && SessionInv(cfg, s) && InStage(s, Poisonous)
    ensures SessionInv(cfg, CleanPoisoned(s))
  {
    var id := s.worker.id;
    var r := s.jobs[id].request;
    HandlingHolds(s, CleanPoisoned(s), |s.jobs|);
    if SessionOf(r).None? {
      SameSessionsKept(cfg, s, CleanPoisoned(s));
    } else {
      var x := SessionOf(r).value;
      forall i | Keeps(s, i, x) ensures !Early(CleanPoisoned(s), i) {
        if r.SessionOp? {
          assert OpenOp(s, id, x);
        } else {
          OneJobPerStream(cfg, s, i, id, x);
        }
      }
      CloseKeepsSessions(cfg, s, CleanPoisoned(s), x);
    }
  }

  lemma GiveSessionOpens(s: State)
    requires PlaceInv(s) && InStage(s, GivingSession)
    ensures forall i, y :: OpenOp(GiveSession(s), i, y) <==> OpenOp(s, i, y) && i != s.worker.id
    ensures forall i, y :: Keeps(GiveSession(s), i, y) <==> Keeps(s, i, y)
    ensures forall i :: Early(GiveSession(s), i) ==> Early(s, i)
    ensures s.jobs[s.worker.id].request.SessionOp? ==> OpenOp(s, s.worker.id, s.jobs[s.worker.id].request.session)
  {
  }

  lemma GiveSessionKeepsSessions(cfg: Config, s: State)
    requires PlaceInv(s) && SessionInv(cfg, s) && InStage(s, GivingSession)
    ensures SessionInv(cfg, GiveSession(s))
  {
    GiveSessionOpens(s);
  }

  lemma ReturnKeepsSessions(cfg: Config, s: State, t: State, id: nat, x: string)
    requires SessionInv(cfg, s) && Keeps(s, id, x) && SameHolds(s, t, id)
    requires t.active == s.active && t.streams == s.streams - {x} && t.busy == s.busy && t.used == s.used
    ensures SessionInv(cfg, t)
  {
    assert forall i, y :: OpenOp(t, i, y) <==> OpenOp(s, i, y);
    assert forall i, y :: Keeps(t, i, y) <==> Keeps(s, i, y) && i != id;
  }

  lemma GiveStreamHolds(s: State)
    requires PlaceInv(s) && InStage(s, GivingStream)
    ensures var id := s.worker.id;
            if s.jobs[id].keepsStream then SameHolds(s, GiveStream(s), id) && s.jobs[id].request.NewStream?
            else SameSessions(s, GiveStream(s))
  {
    assert JobOk(s, s.worker.id);
    HandlingHolds(s, GiveStream(s), if s.jobs[s.worker.id].keepsStream then s.worker.id else |s.jobs|);
  }

  lemma GiveStreamKeepsSessions(cfg: Config, s: State)
    requires PlaceInv(s) && SessionInv(cfg, s) && InStage(s, GivingStream)
    ensures SessionInv(cfg, GiveStream(s))
  {
    GiveStreamHolds(s);
    if s.jobs[s.worker.id].keepsStream {
      ReturnKeepsSessions(cfg, s, GiveStream(s), s.worker.id, s.jobs[s.worker.id].request.session);
    } else {
      SameSessionsKept(cfg, s, GiveStream(s));
    }
  }

  /** Nothing is held any more when the sets are cleared. */
  lemma ClearKeepsSessions(cfg: Config, s: State)
    requires PlaceInv(s) && SessionInv(cfg, s) && s.worker.Draining? && s.queue == {}
    ensures SessionInv(cfg, Clear(s))
    ensures s.busy == {} && s.streams == s.active
  {
    var t := Clear(s);
    forall i: nat, y ensures !OpenOp(s, i, y) && !OpenOp(t, i, y) && !Keeps(s, i, y) && !Keeps(t, i, y) {
      if i < |s.jobs| {
        assert JobOk(s, i);
      }
    }
  }

  /** A submission that is turned away leaves no trace. */
  lemma RefusedSubmitChangesNothing(cfg: Config, s: State, r: Request)
    requires PlaceInv(s) && SessionInv(cfg, s) && Enabled(s, DoSubmit(r)) && Refusal(cfg, s, r).Some?
    ensures Submit(cfg, s, r) == s
  {
    if r.NewStream? {
      assert r.session !in s.busy;
    }
    if Refusal(cfg, s, r) in {Some(AudioLimit), Some(QueueFull)} {
      var t := Unmarked(Marked(s, r), r);
      assert t.busy == s.busy && t.streams == s.streams;
    }
  }

  lemma SubmitKeepsSessions(cfg: Config, s: State, r: Request)
    requires PlaceInv(s) && SessionInv(cfg, s) && Enabled(s, DoSubmit(r))
    requires Refusal(cfg, s, r).None? && !PutFails(cfg, s)
    ensures SessionInv(cfg, Submit(cfg, s, r))
  {
    match r
    case NewStream(x) => NewStreamKeepsSessions(cfg, s, x);
    case SessionOp(_, _, _) => SessionOpKeepsSessions(cfg, s, r);
    case WholeFile => OtherKeepsSessions(cfg, s, Counted(Marked(s, r), r), r);
  }

  /** Steps that neither admit nor run nor release anything. */
  predicate Quiet(step: Step) {
    CallerStep(step) || step.DoStart? || step.DoPoison? || step.DoForgive? || step.DoLoadFails? || step.DoTake?
    || step.DoAnnounceFile? || step.DoFileOver? || step.DoMarkBatch?
    || step.DoGiveSlot? || step.DoReject? || step.DoWarmupFails? || step.DoClaim? || step.DoLookForPoison?
    || step.DoGiveAudio? || step.DoFinish? || step.DoLeave?
  }

  lemma CallerSameSessions(s: State, t: State, id: nat)
    requires id < |s.jobs| == |t.jobs| && t.queue == s.queue && t.worker == s.worker
    requires t.jobs == s.jobs[id := t.jobs[id]] && t.jobs[id].request == s.jobs[id].request
    requires t.jobs[id].keepsStream == s.jobs[id].keepsStream
    requires t.active == s.active && t.streams == s.streams && t.busy == s.busy && t.used == s.used
    ensures SameSessions(s, t)
  {
    forall i | 0 <= i < |s.jobs| ensures t.jobs[i].request == s.jobs[i].request && t.jobs[i].keepsStream == s.jobs[i].keepsStream {
      assert i == id || t.jobs[i] == s.jobs[i];
    }
  }

  lemma QuietIsSame(cfg: Config, s: State, step: Step)
    requires PlaceInv(s) && Enabled(s, step) && Quiet(step)
    ensures SameSessions(s, Next(cfg, s, step))
  {
    if CallerStep(step) {
      CallerIsSame(cfg, s, step);
    } else if DecisionOrRelease(step) {
      HandlingIsSame(cfg, s, step);
    }
  }

  lemma AbandonIsSame(s: State, id: nat)
    requires id < |s.jobs|
    ensures SameSessions(s, Abandon(s, id))
  {
    CallerSameSessions(s, Abandon(s, id), id);
  }

  lemma CallerIsSame(cfg: Config, s: State, step: Step)
    requires Enabled(s, step) && CallerStep(step)
    ensures SameSessions(s, Next(cfg, s, step))
  {
    if step.DoQueueTimeout? {
      CallerSameSessions(s, QueueTimeout(s, step.id), step.id);
    } else if step.DoAbandon? {
      AbandonIsSame(s, step.id);
    } else {
      CallerSameSessions(s, Next(cfg, s, step), step.id);
    }
  }

  lemma HandlingIsSame(cfg: Config, s: State, step: Step)
    requires PlaceInv(s) && Enabled(s, step) && DecisionOrRelease(step)
    ensures SameSessions(s, Next(cfg, s, step))
  {
    if step.DoGiveSlot? || step.DoReject? || step.DoWarmupFails? || step.DoClaim? {
      DecidingIsSame(cfg, s, step);
    } else {
      HandlingHolds(s, Next(cfg, s, step), |s.jobs|);
    }
  }

  lemma SlotIsSame(s: State)
    requires PlaceInv(s) && InStage(s, Taken)
    ensures SameSessions(s, GiveSlot(s))
  {
    HandlingHolds(s, GiveSlot(s), |s.jobs|);
  }

  lemma RejectIsSame(s: State, late: bool)
    requires PlaceInv(s) && InStage(s, Deciding)
    ensures SameSessions(s, Reject(s, late))
  {
    HandlingHolds(s, Reject(s, late), |s.jobs|);
  }

  lemma ClaimIsSame(s: State)
    requires PlaceInv(s) && InStage(s, Deciding)
    ensures SameSessions(s, Claim(s))
  {
    HandlingHolds(s, Claim(s), |s.jobs|);
  }

  lemma DecidingIsSame(cfg: Config, s: State, step: Step)
    requires PlaceInv(s) && Enabled(s, step)
    requires step.DoGiveSlot? || step.DoReject? || step.DoWarmupFails? || step.DoClaim?
    ensures SameSessions(s, Next(cfg, s, step))
  {
    if step.DoGiveSlot? {
      SlotIsSame(s);
    } else if step.DoReject? {
      RejectIsSame(s, step.late && !s.worker.draining);
    } else if step.DoClaim? {
      ClaimIsSame(s);
    } else {
      HandlingHolds(s, Go(s, Over).(accepting := s.accepting && !step.refuses), |s.jobs|);
    }
  }

  lemma QuietKeepsSessions(cfg: Config, s: State, step: Step)
    requires PlaceInv(s) && SessionInv(cfg, s) && Enabled(s, step) && Quiet(step)
    ensures SessionInv(cfg, Next(cfg, s, step))
  {
    QuietIsSame(cfg, s, step);
    SameSessionsKept(cfg, s, Next(cfg, s, step));
  }

  predicate DecisionOrRelease(step: Step) {
    step.DoGiveSlot? || step.DoReject? || step.DoWarmupFails? || step.DoClaim? || step.DoLookForPoison?
    || step.DoGiveAudio? || step.DoFinish?
  }

  lemma SessionsKept(cfg: Config, s: State, step: Step)
    requires PlaceInv(s) && SessionInv(cfg, s) && Enabled(s, step)
    requires step.DoSubmit? ==> Refusal(cfg, s, step.request).Some? || !PutFails(cfg, s)
    ensures SessionInv(cfg, Next(cfg, s, step))
  {
    if Quiet(step) {
      QuietKeepsSessions(cfg, s, step);
    } else if step.DoSubmit? {
      if Refusal(cfg, s, step.request).None? {
        SubmitKeepsSessions(cfg, s, step.request);
      } else {
        RefusedSubmitChangesNothing(cfg, s, step.request);
      }
    } else if step.DoStop? {
      SameSessionsKept(cfg, s, s.(accepting := false));
      OtherKeepsSessions(cfg, s, s.(accepting := false, shutdownRequested := true), Shutdown);
    } else if step.DoRun? {
      RunKeepsSessions(cfg, s, step.ok);
    } else if step.DoCleanPoisoned? {
      CleanKeepsSessions(cfg, s);
    } else if step.DoGiveSession? {
      GiveSessionKeepsSessions(cfg, s);
    } else if step.DoGiveStream? {
      GiveStreamKeepsSessions(cfg, s);
    } else {
      ClearKeepsSessions(cfg, s);
    }
  }
}
