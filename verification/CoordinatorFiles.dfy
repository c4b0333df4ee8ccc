/** Who owns the model (app/asr_inference.py): a file that is transcribed as a whole, or
    streams; and the one way in which it can be both. */
module CoordinatorFiles {
  import opened Pcm
  import opened Coordinator
  import opened CoordinatorRuns
  import opened CoordinatorCounts
  import opened CoordinatorTheorems

  /** Callers of files that have not yet cleared the flag they set. */
  function Outstanding(b: Batch): nat {
    b.announced + |b.callers|
  }

  /** The owner thread has claimed a file. */
  predicate FileClaimed(s: State) {
    InStage(s, Running) && s.jobs[s.worker.id].request.WholeFile?
  }

  ghost predicate FileInv(s: State) {
    && (s.batch.running ==> FileClaimed(s))
    && (s.batch.pending ==> s.streams == {} && !s.batch.Deserted())
    && (forall i | i in s.batch.callers :: i < |s.jobs| && s.jobs[i].request.WholeFile?)
    && (!s.batch.late ==> Outstanding(s.batch) <= 1 && (s.batch.pending <==> Outstanding(s.batch) == 1))
  }

  // ----- every step keeps it ------------------------------------------------------------

  ghost predicate SameRequests(s: State, t: State) {
    |s.jobs| <= |t.jobs| && forall i | 0 <= i < |s.jobs| :: t.jobs[i].request == s.jobs[i].request
  }

  /** Steps that have nothing to do with files. */
  lemma SameFilesKept(s: State, t: State)
    requires FileInv(s) && SameRequests(s, t)
    requires t.batch == s.batch && t.streams <= s.streams
    requires s.batch.running ==> t.worker == s.worker
    ensures FileInv(t)
  {
  }

  lemma QuietBatch(cfg: Config, s: State, step: Step)
    requires FileInv(s) && Enabled(s, step) && Quiet(step)
    requires !step.DoAnnounceFile? && !step.DoFileOver? && !step.DoMarkBatch?
    ensures var t := Next(cfg, s, step); t.batch == s.batch && (s.batch.running ==> t.worker == s.worker)
  {
    if CallerStep(step) {
      CallerBatch(cfg, s, step);
    }
  }

  lemma CallerBatch(cfg: Config, s: State, step: Step)
    requires Enabled(s, step) && CallerStep(step)
    ensures var t := Next(cfg, s, step); t.batch == s.batch && t.worker == s.worker
  {
  }

  lemma AnnounceKeepsFiles(s: State)
    requires FileInv(s)
    ensures FileInv(AnnounceFile(s))
  {
  }

  lemma FileOverKeepsFiles(s: State, caller: Option<nat>)
    requires FileInv(s) && Enabled(s, DoFileOver(caller))
    ensures FileInv(FileOver(s, caller))
  {
    var b, after := s.batch, FileOver(s, caller).batch;
    if caller.Some? {
      assert |b.callers - {caller.value}| == |b.callers| - 1;
    }
    assert Outstanding(after) == Outstanding(b) - 1;
    assert after.callers == {} <==> |after.callers| == 0;
  }

  lemma ClearKeepsFiles(s: State)
    requires FileInv(s)
    ensures FileInv(Clear(s))
  {
  }

  lemma RunKeepsFiles(s: State, ok: bool)
    requires FileInv(s) && Enabled(s, DoRun(ok))
    ensures FileInv(Run(s, ok))
  {
    RunSets(s, ok);
    var t := Run(s, ok);
    assert t.batch == s.batch.(running := false);
    forall i | 0 <= i < |s.jobs| ensures t.jobs[i].request == s.jobs[i].request {
      assert i == s.worker.id || t.jobs[i] == s.jobs[i];
    }
  }

  /** A new stream is admitted only while no flag is set; a new file takes over from the
      announcement. */
  lemma ArrivalKeepsFiles(s: State, u: State, r: Request)
    requires FileInv(s) && u.jobs == s.jobs && u.worker == s.worker && u.batch == s.batch
    requires r.WholeFile? ==> s.batch.announced > 0
    requires if r.NewStream? then !s.batch.pending else u.streams == s.streams
    ensures FileInv(Enqueued(u, r))
  {
    var t := Enqueued(u, r);
    if r.WholeFile? {
      assert |s.jobs| !in s.batch.callers;
      assert Outstanding(t.batch) == Outstanding(s.batch);
    }
    assert SameRequests(s, t);
  }

  lemma PutBackKeepsFiles(s: State, r: Request)
    requires FileInv(s)
    ensures FileInv(Unmarked(Uncounted(Counted(Marked(s, r), r), r), r))
  {
    SameFilesKept(s, Unmarked(Uncounted(Counted(Marked(s, r), r), r), r));
  }

  lemma AdmitKeepsFiles(s: State, r: Request)
    requires FileInv(s) && (r.WholeFile? ==> s.batch.announced > 0) && (r.NewStream? ==> !s.batch.pending)
    ensures FileInv(Enqueued(Counted(Marked(s, r), r), r))
  {
    ArrivalKeepsFiles(s, Counted(Marked(s, r), r), r);
  }

  lemma SubmitKeepsFiles(cfg: Config, s: State, r: Request)
    requires PlaceInv(s) && SessionInv(cfg, s) && FileInv(s) && Enabled(s, DoSubmit(r))
    ensures FileInv(Submit(cfg, s, r))
  {
    if Refusal(cfg, s, r).Some? {
      RefusedSubmitChangesNothing(cfg, s, r);
    } else {
      PutBackKeepsFiles(s, r);
      AdmitKeepsFiles(s, r);
      AdmittedIsPlaced(cfg, s, r);
    }
  }

  lemma AdmittedIsPlaced(cfg: Config, s: State, r: Request)
    requires Refusal(cfg, s, r).None?
    ensures Submit(cfg, s, r) == if PutFails(cfg, s) then Unmarked(Uncounted(Counted(Marked(s, r), r), r), r)
                                 else Enqueued(Counted(Marked(s, r), r), r)
  {
  }

  lemma StopKeepsFiles(cfg: Config, s: State)
    requires FileInv(s)
    ensures FileInv(RequestStop(cfg, s))
  {
    var closed := s.(accepting := false);
    SameFilesKept(s, closed);
    ArrivalKeepsFiles(s, closed.(shutdownRequested := true), Shutdown);
  }

  lemma ReleaseKeepsFiles(cfg: Config, s: State, step: Step)
    requires FileInv(s) && Enabled(s, step)
    requires step.DoCleanPoisoned? || step.DoGiveSession? || step.DoGiveStream?
    ensures FileInv(Next(cfg, s, step))
  {
    SameFilesKept(s, Next(cfg, s, step));
  }

  lemma FilesKept(cfg: Config, s: State, step: Step)
    requires PlaceInv(s) && SessionInv(cfg, s) && FileInv(s) && Enabled(s, step)
    ensures FileInv(Next(cfg, s, step))
  {
    if step.DoAnnounceFile? {
      AnnounceKeepsFiles(s);
    } else if step.DoFileOver? {
      FileOverKeepsFiles(s, step.caller);
    } else if step.DoMarkBatch? {
    } else if Quiet(step) {
      QuietIsSame(cfg, s, step);
      QuietBatch(cfg, s, step);
      SameFilesKept(s, Next(cfg, s, step));
    } else if step.DoSubmit? {
      SubmitKeepsFiles(cfg, s, step.request);
    } else if step.DoStop? {
      StopKeepsFiles(cfg, s);
    } else if step.DoRun? {
      RunKeepsFiles(s, step.ok);
    } else if step.DoClear? {
      ClearKeepsFiles(s);
    } else {
      ReleaseKeepsFiles(cfg, s, step);
    }
  }

  lemma {:induction false} ReachableFiles(cfg: Config, steps: seq<Step>)
    ensures StateAfter(cfg, steps).Some? ==> FileInv(StateAfter(cfg, steps).value)
    decreases |steps|
  {
    if steps != [] {
      var front := steps[..|steps| - 1];
      ReachableFiles(cfg, front);
      ReachableInv(cfg, front);
      if StateAfter(cfg, front).Some? && Enabled(StateAfter(cfg, front).value, steps[|steps| - 1]) {
        FilesKept(cfg, StateAfter(cfg, front).value, steps[|steps| - 1]);
      }
    }
  }

  // ----- what it means ------------------------------------------------------------------

  /** While the caller of a file waits, there is no stream; the owner thread's own flag is set
      only while it transcribes a file. */
  lemma FileExcludesStreams(cfg: Config, steps: seq<Step>)
    requires StateAfter(cfg, steps).Some?
    ensures var s := StateAfter(cfg, steps).value;
            && (s.batch.pending ==> s.streams == {})
            && (!s.batch.Deserted() && !s.batch.late ==> s.streams == {})
            && (s.batch.running ==> FileClaimed(s))
  {
    ReachableFiles(cfg, steps);
  }

  /** A stream is let past a claimed file exactly when the file's caller has given up before
      the owner thread set its flag. Only callers left over from before a shutdown can bring
      that about while another file's caller waits. */
  lemma StreamPassesClaimedFile(cfg: Config, steps: seq<Step>, session: string)
    requires StateAfter(cfg, steps).Some? && FileClaimed(StateAfter(cfg, steps).value)
    requires StateAfter(cfg, steps).value.accepting
    ensures var s := StateAfter(cfg, steps).value;
            var passes := NotAdmissible(cfg, s, NewStream(session)) != Some(BatchConflict);
            && (!s.batch.late ==> (passes <==> !s.batch.running && s.batch.Deserted()))
            && (passes ==> !s.batch.running && (s.batch.Deserted() || s.batch.late))
            && (!s.batch.running && s.batch.Deserted() ==> passes)
  {
    ReachableFiles(cfg, steps);
  }

  /** So a file and streams own the model together only if the caller of the running file is
      gone, or there was a shutdown. */
  lemma TogetherMeansDeserted(cfg: Config, steps: seq<Step>)
    requires StateAfter(cfg, steps).Some?
    requires StateAfter(cfg, steps).value.batch.running && StateAfter(cfg, steps).value.streams != {}
    ensures var s := StateAfter(cfg, steps).value;
            && FileClaimed(s) && !s.batch.pending
            && (s.batch.late || (s.batch.Deserted() && s.worker.id !in s.batch.callers))
  {
    ReachableFiles(cfg, steps);
  }

  // ----- and it happens -----------------------------------------------------------------

  ghost predicate Reachable(cfg: Config, s: State) {
    exists steps :: StateAfter(cfg, steps) == Some(s)
  }

  lemma Follows(cfg: Config, s: State, step: Step) returns (t: State)
    requires Reachable(cfg, s) && Enabled(s, step)
    ensures Reachable(cfg, t) && t == Next(cfg, s, step)
  {
    var steps :| StateAfter(cfg, steps) == Some(s);
    assert (steps + [step])[..|steps|] == steps;
    t := Next(cfg, s, step);
    assert StateAfter(cfg, steps + [step]) == Some(t);
  }

  /** A file has been announced, submitted and claimed, and its caller waits. */
  lemma ClaimsFile(cfg: Config) returns (s: State)
    requires cfg.queueSize >= 1 && cfg.maxAudio >= 0.0
    ensures Reachable(cfg, s) && FileClaimed(s) && CallerWaits(s, 0) && s.jobs[0].future.Claimed? && s.accepting
    ensures s.batch == Batch(true, false, 0, {0}, false) && s.streams == s.used == s.busy == {}
    ensures s.queue == {} && s.businessJobs == 0 && s.queuedAudio == 0.0
  {
    assert StateAfter(cfg, []) == Some(INITIAL);
    s := Follows(cfg, INITIAL, DoStart);
    s := Follows(cfg, s, DoAnnounceFile);
    s := SubmitsFile(cfg, s);
    s := TakesFile(cfg, s);
    s := Follows(cfg, s, DoClaim);
  }

  lemma TakesFile(cfg: Config, s: State) returns (t: State)
    requires Reachable(cfg, s) && s.worker.Idle? && s.queue == {0} && s.businessJobs == 1
    requires s.jobs == [Job(WholeFile, false, Pending, false, Waiting)]
    ensures Reachable(cfg, t) && t == s.(worker := Working(0, Deciding, false), queue := {}, businessJobs := 0)
  {
    t := Follows(cfg, s, DoTake(0));
    t := Follows(cfg, t, DoGiveSlot);
  }

  lemma SubmitsFile(cfg: Config, s: State) returns (t: State)
    requires cfg.queueSize >= 1 && cfg.maxAudio >= 0.0
    requires Reachable(cfg, s) && s == INITIAL.(accepting := true, loopActive := true, worker := Idle, batch := Batch(true, false, 1, {}, false))
    ensures Reachable(cfg, t) && t == s.(businessJobs := 1, jobs := [Job(WholeFile, false, Pending, false, Waiting)], queue := {0},
                                        batch := Batch(true, false, 0, {0}, false))
  {
    t := Follows(cfg, s, DoSubmit(WholeFile));
  }

  /** The caller gives up between the owner thread's claim and its flag; a stream is admitted;
      the owner thread goes on, and both own the model. */
  lemma FileAndStreamTogether(cfg: Config, session: string) returns (s: State, t: State)
    requires cfg.queueSize >= 1 && cfg.maxAudio >= 0.0 && cfg.maxStreams >= 1 && session != ""
    ensures Reachable(cfg, s) && FileClaimed(s) && Enabled(s, DoSubmit(NewStream(session)))
    ensures Refusal(cfg, s, NewStream(session)).None?
    ensures Reachable(cfg, t) && t.batch.running && t.streams == {session}
  {
    s := ClaimsFile(cfg);
    s := GivesUp(cfg, s);
    t := Follows(cfg, s, DoSubmit(NewStream(session)));
    t := Follows(cfg, t, DoMarkBatch);
  }

  lemma GivesUp(cfg: Config, s: State) returns (t: State)
    requires Reachable(cfg, s) && FileClaimed(s) && CallerWaits(s, 0) && s.jobs[0].future.Claimed?
    requires s.batch == Batch(true, false, 0, {0}, false)
    ensures Reachable(cfg, t) && FileClaimed(t) && t.batch == NO_FILE
    ensures t.accepting == s.accepting && t.streams == s.streams && t.used == s.used && t.busy == s.busy
    ensures t.queue == s.queue && t.businessJobs == s.businessJobs && t.queuedAudio == s.queuedAudio
  {
    t := Abandons(cfg, s);
    t := Follows(cfg, t, DoFileOver(Some(0)));
  }

  lemma Abandons(cfg: Config, s: State) returns (t: State)
    requires Reachable(cfg, s) && FileClaimed(s) && CallerWaits(s, 0) && s.jobs[0].future.Claimed?
    ensures Reachable(cfg, t) && FileClaimed(t) && !t.jobs[0].outcome.Waiting?
    ensures t == s.(jobs := t.jobs, poisoned := t.poisoned)
  {
    t := Follows(cfg, s, DoAbandon(0));
  }
}
