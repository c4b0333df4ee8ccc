/** The coordinator as an object: the sections its methods run under the lock, each proved to
    be one step of the transition system. */
module CoordinatorObject {
  import opened Pcm
  import opened Coordinator

  class InferenceCoordinator {
    const cfg: Config
    var accepting: bool
    var loopActive: bool
    var shutdownRequested: bool
    var businessJobs: int
    var queuedAudio: real
    var active: set<string>
    var streams: set<string>
    var poisoned: set<string>
    var busy: set<string>
    var batchPending: bool
    var batchRunning: bool
    var jobs: seq<Job>
    var queue: set<nat>
    ghost var files: Batch
    ghost var used: set<string>
    ghost var worker: Worker

    ghost function View(): State
      reads this
    {
      State(accepting, loopActive, shutdownRequested, businessJobs, queuedAudio,
            active, streams, poisoned, busy,
            files.(pending := batchPending, running := batchRunning), used, jobs, queue, worker)
    }

    constructor (cfg: Config)
      ensures View() == INITIAL && this.cfg == cfg
    {
      this.cfg := cfg;
      accepting, loopActive, shutdownRequested, businessJobs, queuedAudio := false, false, false, 0, 0.0;
      active, streams, poisoned, busy := {}, {}, {}, {};
      batchPending, batchRunning, files := false, false, NO_FILE;
      jobs, queue, used, worker := [], {}, {}, Down;
    }

    method Put(r: Request) returns (id: nat)
      modifies this`jobs, this`queue, this`used, this`files
      ensures View() == Enqueued(old(View()), r) && id == old(|jobs|)
    {
      id := |jobs|;
      queue := queue + {id};
      jobs := jobs + [Job(r, r.NewStream?, Pending, false, Waiting)];
      used := if r.NewStream? then used + {r.session} else used;
      files := if r.WholeFile? then Handed(files, id) else files;
    }

    method TakeBack(r: Request)
      modifies this`busy, this`streams
      ensures View() == Unmarked(old(View()), r)
    {
      if r.NewStream? || r.SessionOp? {
        busy := busy - {r.session};
      }
      if r.NewStream? {
        streams := streams - {r.session};
      }
    }

    method Mark(r: Request) returns (reason: Option<Reason>)
      modifies this`streams, this`busy
      ensures reason == NotAdmissible(cfg, old(View()), r)
      ensures View() == if reason.Some? then old(View()) else Marked(old(View()), r)
    {
      if !accepting {
        return Some(CoordinatorNotReady);
      }
      if r.NewStream? {
        if batchPending || batchRunning {
          return Some(BatchConflict);
        }
        if |streams| >= cfg.maxStreams {
          return Some(SessionLimit);
        }
        streams := streams + {r.session};
      }
      if r.SessionOp? {
        if r.session == "" || r.session in poisoned || r.session !in active {
          return Some(SessionPoisoned);
        }
        if r.session in busy {
          return Some(SessionBusy);
        }
        busy := busy + {r.session};
      }
      return None;
    }

    method Count(r: Request)
      modifies this`queuedAudio, this`businessJobs
      ensures View() == Counted(old(View()), r)
    {
      queuedAudio := queuedAudio + AudioOf(r);
      businessJobs := businessJobs + 1;
    }

    method Uncount(r: Request)
      modifies this`queuedAudio, this`businessJobs
      ensures View() == Uncounted(old(View()), r)
    {
      var left := queuedAudio - AudioOf(r);
      queuedAudio := if left < 0.0 then 0.0 else left;
      businessJobs := businessJobs - 1;
    }

    /** The last two checks and the put, once the session and stream marks are made. */
    method PutMarked(r: Request) returns (result: Result<nat, Reason>)
      modifies this`queuedAudio, this`businessJobs, this`busy, this`streams, this`jobs, this`queue, this`used, this`files
      ensures View() == Place(cfg, old(View()), r)
      ensures result == if OverLimit(cfg, old(View()), r).Some? then Err(OverLimit(cfg, old(View()), r).value)
                        else if PutFails(cfg, old(View())) then Err(QueueFull)
                        else Ok(old(|jobs|))
    {
      if queuedAudio + AudioOf(r) > cfg.maxAudio {
        TakeBack(r);
        return Err(AudioLimit);
      }
      if businessJobs >= cfg.queueSize {
        TakeBack(r);
        return Err(QueueFull);
      }
      Count(r);
      if |queue| >= cfg.queueSize + 1 {
        Uncount(r);
        TakeBack(r);
        return Err(QueueFull);
      }
      var id := Put(r);
      return Ok(id);
    }

    /** The locked part of a submission. */
    method Admit(r: Request) returns (result: Result<nat, Reason>)
      modifies this
      ensures View() == Submit(cfg, old(View()), r)
      ensures result.Ok? <==> Refusal(cfg, old(View()), r).None? && !PutFails(cfg, old(View()))
      ensures result.Ok? ==> result.value == old(|jobs|)
      ensures result.Err? && Refusal(cfg, old(View()), r).Some? ==> result.error == Refusal(cfg, old(View()), r).value
    {
      var reason := Mark(r);
      if reason.Some? {
        return Err(reason.value);
      }
      result := PutMarked(r);
    }

    /** The locked beginning and end of a file transcription around its submission. */
    method Announce() returns (refused: Option<Reason>)
      modifies this`batchPending, this`files
      ensures View() == AnnounceFile(old(View()))
      ensures refused == if !accepting then Some(CoordinatorNotReady)
                         else if streams != {} || old(batchPending) || batchRunning then Some(BatchConflict)
                         else None
    {
      if !accepting {
        return Some(CoordinatorNotReady);
      }
      if streams != {} || batchPending || batchRunning {
        return Some(BatchConflict);
      }
      batchPending := true;
      files := files.(announced := files.announced + 1);
      return None;
    }

    method ClearPending(ghost caller: Option<nat>)
      modifies this`batchPending, this`files
      ensures View() == FileOver(old(View()), caller)
    {
      files := FileOver(View(), caller).batch;
      batchPending := false;
    }

    method RequestShutdown(alive: bool)
      requires alive <==> !worker.Down?
      modifies this
      ensures View() == RequestStop(cfg, old(View()))
    {
      accepting := false;
      if alive && loopActive && !shutdownRequested && |queue| < cfg.queueSize + 1 {
        shutdownRequested := true;
        var id := Put(Shutdown);
      }
    }

    method ReturnAudio(id: nat)
      requires worker.Working? && worker.id == id && id < |jobs|
      modifies this`queuedAudio, this`worker
      ensures View() == GiveAudio(old(View()))
    {
      var left := queuedAudio - AudioOf(jobs[id].request);
      queuedAudio := if left < 0.0 then 0.0 else left;
      worker := worker.(stage := GivingSession);
    }

    method ReturnSession(id: nat)
      requires worker.Working? && worker.id == id && id < |jobs|
      modifies this`busy, this`worker
      ensures View() == GiveSession(old(View()))
    {
      if jobs[id].request.SessionOp? {
        busy := busy - {jobs[id].request.session};
      }
      worker := worker.(stage := GivingStream);
    }

    method ReturnStream(id: nat)
      requires worker.Working? && worker.id == id && id < |jobs|
      modifies this`streams, this`jobs, this`worker
      ensures View() == GiveStream(old(View()))
    {
      var j := jobs[id];
      if j.keepsStream && j.request.NewStream? {
        streams := streams - {j.request.session};
        jobs := jobs[id := j.(keepsStream := false)];
      }
      worker := worker.(stage := Closing);
    }

    /** Hands back everything the job in hand still holds besides its queue slot. */
    method ReleaseReservations(id: nat)
      requires worker.Working? && worker.id == id && worker.stage == GivingAudio && id < |jobs|
      modifies this`queuedAudio, this`busy, this`streams, this`jobs, this`worker
      ensures View() == GiveStream(GiveSession(GiveAudio(old(View()))))
    {
      ReturnAudio(id);
      ReturnSession(id);
      ReturnStream(id);
    }

    method CleanupPoisonedSession(id: nat)
      requires worker.Working? && worker.id == id && worker.stage == Over && id < |jobs|
      modifies this`poisoned, this`busy, this`active, this`streams, this`worker
      ensures View() == var looked := LookForPoison(old(View()));
                        if looked.worker.stage == Poisonous then CleanPoisoned(looked) else looked
    {
      var session := SessionOf(jobs[id].request);
      if session.Some? && session.value in poisoned {
        worker := worker.(stage := Poisonous);
        Forget(session.value);
      } else {
        worker := worker.(stage := GivingAudio);
      }
    }

    method Forget(session: string)
      requires worker.Working? && worker.id < |jobs| && SessionOf(jobs[worker.id].request) == Some(session)
      modifies this`poisoned, this`busy, this`active, this`streams, this`worker
      ensures View() == CleanPoisoned(old(View()))
    {
      poisoned, busy := poisoned - {session}, busy - {session};
      active, streams := active - {session}, streams - {session};
      worker := worker.(stage := GivingAudio);
    }
  }
}
