/** Sessions and scheduler together, through the hooks of app/asr_gateway.py: a session
    reserves samples and enqueues a job for them; the scheduler's cleanup acknowledges the
    reservation and its rejection rolls it back. */
module Linkage {
  import opened Pcm
  import B = PcmBuffer
  import S = Sessions
  import opened Jobs
  import C = Scheduler
  import R = SchedulerRuns

  /** `holder` remembers the job each session last enqueued, `used` every session identifier
      ever opened, `histories` what each session's buffer was given and gave up. */
  datatype System = System(
    sched: C.Sched,
    sessions: map<string, S.Session>,
    histories: map<string, B.History>,
    holder: map<string, Job>,
    used: set<string>)

  /** A change of a session that concerns neither its reservation nor its generation. */
  datatype Change =
    | Append(audio: Audio, countAccepted: bool)
    | AcceptVad(audio: Audio)
    | DiscardVad(samples: int)
    | RequestFinish
    | Succeed

  datatype Action =
    | Open(id: string, maxSamples: nat)
    | Quietly(id: string, change: Change)
    | Schedule(id: string, samples: int, final: bool, form: Job, now: real)
    | Abort(id: string, failed: bool)
    | Release(id: string)
    | Turn(step: C.Step)

  // ----- the hooks -----------------------------------------------------------------------

  /** The job belongs to the reservation its session holds right now. */
  predicate Owns(sys: System, job: Job) {
    && job.session in sys.sessions
    && sys.sessions[job.session].generation == job.generation
    && S.MatchesReservation(sys.sessions[job.session], job.sequence, job.start, job.end)
  }

  predicate Current(sys: System, job: Job) {
    job.session in sys.sessions && sys.sessions[job.session].generation == job.generation
  }

  /** Cleanup acknowledges the reservation the job owns, and otherwise reports it stale. */
  function CleanupOutcome(sys: System, job: Job): C.Cleanup {
    if Owns(sys, job) then C.Clean else C.Stale
  }

  /** Rejecting succeeds unless the session, in the job's generation, holds another reservation. */
  predicate RejectSucceeds(sys: System, job: Job) {
    Current(sys, job) ==>
      && sys.sessions[job.session].reservation.Some?
      && sys.sessions[job.session].reservation.value.sequence == job.sequence
  }

  function SetSession(sys: System, id: string, s: S.Session, op: B.Op): System
    requires id in sys.sessions && id in sys.histories && sys.sessions[id].buffer.Inv()
  {
    sys.(sessions := sys.sessions[id := s],
         histories := sys.histories[id := B.Extended(sys.histories[id], sys.sessions[id].buffer, op)])
  }

  predicate Tracked(sys: System, id: string) {
    id in sys.sessions && id in sys.histories && sys.sessions[id].Inv()
  }

  function Rejected(sys: System, job: Job): System
    requires Current(sys, job) ==> Tracked(sys, job.session)
  {
    if Current(sys, job) && sys.sessions[job.session].reservation.Some? then
      var s := sys.sessions[job.session];
      var chunk := s.reservation.value.chunk;
      if s.reservation.value.sequence == job.sequence
      then SetSession(sys, job.session, S.Rollback(s, job.sequence).0, B.DoRollback(chunk.start, chunk.end))
      else sys
    else
      sys
  }

  function CleanedUp(sys: System, job: Job): System
    requires Current(sys, job) ==> Tracked(sys, job.session)
  {
    if Owns(sys, job) then
      SetSession(sys, job.session, S.Acknowledge(sys.sessions[job.session], job.sequence, job.generation).value,
                 B.DoAcknowledge(job.start, job.end))
    else
      sys
  }

  // ----- the actions ---------------------------------------------------------------------

  function Changed(s: S.Session, change: Change): Result<S.Session, B.Error> {
    match change
    case Append(audio, countAccepted) => S.AppendPcm(s, audio, countAccepted)
    case AcceptVad(audio) => S.AcceptVadInput(s, audio)
    case DiscardVad(samples) => S.RecordDiscarded(s, samples)
    case RequestFinish => if s.terminal == S.Open then Ok(S.RequestFinish(s)) else Err(B.SessionTerminal)
    case Succeed => if s.Live() then S.Succeed(s) else Err(B.SessionTerminal)
  }

  /** What the change does to the buffer, a refused change or one elsewhere being a rollback
      that names no reservation. */
  function BufferOp(s: S.Session, change: Change): B.Op {
    if change.Append? && s.Live() then B.DoAppend(change.audio) else B.DoRollback(0, 0)
  }

  /** The job for a reservation; what the session does not determine comes from `form`. */
  function JobFor(id: string, s: S.Session, form: Job, now: real): Job
    requires s.reservation.Some?
  {
    var r := s.reservation.value;
    C.Stamped(form.(session := id, generation := s.generation, sequence := r.sequence, start := r.chunk.start,
                    end := r.chunk.end, pcm := r.chunk.pcm, final := r.chunk.final), now)
  }

  predicate Enabled(cfg: C.Config, sys: System, action: Action) {
    match action
    case Open(id, _) => id !in sys.used
    case Quietly(id, change) => Tracked(sys, id) && Changed(sys.sessions[id], change).Ok?
    case Schedule(id, samples, final, _, _) => Tracked(sys, id) && S.Reserve(sys.sessions[id], samples, final).Ok?
    case Abort(id, _) => Tracked(sys, id) && sys.sessions[id].Live()
    case Release(id) => id in sys.sessions
    case Turn(step) =>
      && C.Enabled(cfg, sys.sched, step) && !step.Enqueue?
      && (TurnJob(sys.sched, step).Some? && Current(sys, TurnJob(sys.sched, step).value)
          ==> Tracked(sys, TurnJob(sys.sched, step).value.session))
      && (step.CleanOne? ==> step.outcome == CleanupOutcome(sys, sys.sched.run.jobs[0]))
      && (step.DrainOne? ==> (step.rejectOk <==> RejectSucceeds(sys, sys.sched.run.todo[0])))
  }

  /** The job whose hook a scheduler step calls, if any. */
  function TurnJob(s: C.Sched, step: C.Step): Option<Job> {
    if (step.ExpireOne? && s.run.Expiring? && s.run.todo != [])
       || (step.DropOne? && s.run.Dropping? && s.run.todo != [])
       || (step.DrainOne? && s.run.Draining? && s.run.todo != [])
    then Some(s.run.todo[0])
    else if step.CleanOne? && s.run.Settling? && s.run.jobs != [] then Some(s.run.jobs[0])
    else None
  }

  function Opened(sys: System, id: string, maxSamples: nat): System {
    sys.(sessions := sys.sessions[id := S.Fresh(maxSamples)],
         histories := sys.histories[id := B.History([], [])],
         used := sys.used + {id})
  }

  /** Reserve, then enqueue; a refused job gives its samples back. */
  function Scheduled(cfg: C.Config, sys: System, id: string, samples: int, final: bool, form: Job, now: real): System
    requires Tracked(sys, id) && S.Reserve(sys.sessions[id], samples, final).Ok?
  {
    var reserved := S.Reserve(sys.sessions[id], samples, final).value;
    var job := JobFor(id, reserved, form, now);
    if C.Refusal(cfg, sys.sched.core, job).Some? then
      sys.(sessions := sys.sessions[id := sys.sessions[id].(nextSequence := sys.sessions[id].nextSequence + 1)])
    else
      SetSession(sys, id, reserved, B.DoReserve(samples, final)).(
      sched := C.Enqueued(sys.sched, job),
      holder := sys.holder[id := job])
  }

  function Aborted(sys: System, id: string, failed: bool): System
    requires Tracked(sys, id)
  {
    var s := sys.sessions[id];
    var rolled := if s.reservation.Some?
                  then SetSession(sys, id, S.Rollback(s, s.reservation.value.sequence).0,
                                  B.DoRollback(s.buffer.reservation.value.start, s.buffer.reservation.value.end))
                  else sys;
    SetSession(rolled, id, if failed then S.Fail(s) else S.Abort(s),
               B.DoDiscard(rolled.sessions[id].buffer.Buffered()))
  }

  function Next(cfg: C.Config, sys: System, action: Action): System
    requires Enabled(cfg, sys, action)
  {
    match action
    case Open(id, maxSamples) => Opened(sys, id, maxSamples)
    case Quietly(id, change) =>
      SetSession(sys, id, Changed(sys.sessions[id], change).value, BufferOp(sys.sessions[id], change))
    case Schedule(id, samples, final, form, now) => Scheduled(cfg, sys, id, samples, final, form, now)
    case Abort(id, failed) => Aborted(sys, id, failed)
    case Release(id) => sys.(sessions := map other | other in sys.sessions && other != id :: sys.sessions[other])
    case Turn(step) =>
      var after := sys.(sched := C.Next(cfg, sys.sched, step));
      (match TurnJob(sys.sched, step)
       case None => after
       case Some(job) => if step.CleanOne? then CleanedUp(after, job) else Rejected(after, job))
  }

  // ----- the invariant -------------------------------------------------------------------

  /** How many copies of a job have been enqueued and neither rejected nor cleaned up. */
  function LiveCopies(s: C.Sched, x: Job): int {
    Count(s.ledger.enqueued, x) - Count(s.ledger.rejected, x) - Count(s.ledger.cleaned, x)
  }

  predicate Carries(s: S.Session, job: Job) {
    && s.reservation.Some?
    && job.generation == s.generation
    && job.sequence == s.reservation.value.sequence
    && job.start == s.reservation.value.chunk.start
    && job.end == s.reservation.value.chunk.end
    && job.pcm == s.reservation.value.chunk.pcm
  }

  /** A live job of a session's current generation is the one its reservation waits for; an
      older one can no longer touch the session. */
  ghost predicate JobLinked(sys: System, x: Job) {
    LiveCopies(sys.sched, x) > 0 ==>
      && x.session in sys.used
      && (x.session in sys.sessions ==> x.generation <= sys.sessions[x.session].generation)
      && (Current(sys, x) ==>
            sys.sessions[x.session].reservation.Some? && x.session in sys.holder && x == sys.holder[x.session])
  }

  predicate Dropped(s: S.Session) {
    s.terminal == S.Failed || s.terminal == S.Aborted
  }

  /** The history accounts for the session's buffer; nothing is ever lost, except by an abort
      and then only what had not been acknowledged. */
  ghost predicate Recorded(s: S.Session, h: B.History) {
    && s.Inv()
    && B.Accounts(h, s.buffer)
    && (if Dropped(s) then B.LostAtEnd(h, s.buffer)
        else s.buffer.discarded == 0 && forall i | 0 <= i < |h.gone| :: h.gone[i].Acked?)
  }

  /** A session with a reservation has exactly one live job, which carries its sequence
      number, its range and its samples. */
  ghost predicate SessionLinked(sys: System, id: string) {
    id in sys.sessions ==>
      && id in sys.used && id in sys.histories
      && Recorded(sys.sessions[id], sys.histories[id])
      && (sys.sessions[id].reservation.Some? ==>
            && id in sys.holder && sys.holder[id].session == id
            && LiveCopies(sys.sched, sys.holder[id]) == 1
            && Carries(sys.sessions[id], sys.holder[id]))
  }

  ghost predicate Inv(cfg: C.Config, sys: System) {
    && C.Inv(cfg, sys.sched)
    && (forall x :: JobLinked(sys, x))
    && (forall id :: SessionLinked(sys, id))
  }

  /** Live copies are exactly the copies the scheduler holds. */
  lemma LiveIsHeld(s: C.Sched, x: Job)
    requires C.LedgerAt(s, x)
    ensures LiveCopies(s, x) == Count(C.All(s.core.queues), x) + Count(C.Pulled(s.run), x) + Count(C.InFlight(s.run), x)
  {
  }

  /** How a scheduler step other than an arrival changes what is live. */
  lemma TurnChangesLive(cfg: C.Config, s: C.Sched, step: C.Step, x: Job)
    requires C.Enabled(cfg, s, step) && !step.Enqueue?
    ensures LiveCopies(C.Next(cfg, s, step), x) ==
            LiveCopies(s, x) - (if TurnJob(s, step) == Some(x) then 1 else 0)
  {
    match step
    case ExpireOne => CountSnoc(s.ledger.rejected, s.run.todo[0], x);
    case DropOne => CountSnoc(s.ledger.rejected, s.run.todo[0], x);
    case DrainOne(_) => CountSnoc(s.ledger.rejected, s.run.todo[0], x);
    case CleanOne(_) => CountSnoc(s.ledger.cleaned, s.run.jobs[0], x);
    case _ =>
  }

  lemma TurnJobIsLive(cfg: C.Config, s: C.Sched, step: C.Step)
    requires C.Inv(cfg, s) && C.Enabled(cfg, s, step) && TurnJob(s, step).Some?
    ensures LiveCopies(s, TurnJob(s, step).value) >= 1
  {
    var job := TurnJob(s, step).value;
    assert C.LedgerAt(s, job);
    LiveIsHeld(s, job);
    if step.CleanOne? {
      CountMember(s.run.jobs, job);
    } else if step.DrainOne? {
      CountMember(s.run.todo, job);
    } else {
      C.AllContains(s.core.queues, s.run.w, job);
      CountMember(C.All(s.core.queues), job);
    }
  }

  // ----- every action keeps it -----------------------------------------------------------

  lemma ReservedRecorded(s: S.Session, h: B.History, samples: int, final: bool)
    requires Recorded(s, h) && S.Reserve(s, samples, final).Ok?
    ensures Recorded(S.Reserve(s, samples, final).value, B.Extended(h, s.buffer, B.DoReserve(samples, final)))
  {
    B.OpAccounts(h, s.buffer, B.DoReserve(samples, final));
  }

  lemma ChangedRecorded(s: S.Session, h: B.History, change: Change)
    requires Recorded(s, h) && Changed(s, change).Ok?
    ensures Recorded(Changed(s, change).value, B.Extended(h, s.buffer, BufferOp(s, change)))
    ensures Changed(s, change).value.reservation == s.reservation
    ensures Changed(s, change).value.generation == s.generation
  {
    if change.Append? {
      AppendRecorded(s, h, change.audio, change.countAccepted);
    }
  }

  lemma AppendRecorded(s: S.Session, h: B.History, audio: Audio, countAccepted: bool)
    requires Recorded(s, h) && S.AppendPcm(s, audio, countAccepted).Ok?
    ensures var t := S.AppendPcm(s, audio, countAccepted).value;
            && Recorded(t, B.Extended(h, s.buffer, B.DoAppend(audio)))
            && t.reservation == s.reservation && t.generation == s.generation
  {
    B.OpAccounts(h, s.buffer, B.DoAppend(audio));
    S.AppendKeeps(s, audio, countAccepted);
  }

  lemma AcknowledgedRecorded(s: S.Session, h: B.History, sequence: int)
    requires Recorded(s, h) && S.Acknowledge(s, sequence, s.generation).Ok?
    ensures var chunk := s.reservation.value.chunk;
            Recorded(S.Acknowledge(s, sequence, s.generation).value,
                     B.Extended(h, s.buffer, B.DoAcknowledge(chunk.start, chunk.end)))
  {
    var chunk := s.reservation.value.chunk;
    B.OpAccounts(h, s.buffer, B.DoAcknowledge(chunk.start, chunk.end));
  }

  lemma RolledBackRecorded(s: S.Session, h: B.History, sequence: int)
    requires Recorded(s, h) && s.reservation.Some? && s.reservation.value.sequence == sequence
    ensures var chunk := s.reservation.value.chunk;
            && B.Extended(h, s.buffer, B.DoRollback(chunk.start, chunk.end)) == h
            && Recorded(S.Rollback(s, sequence).0, h)
  {
    var chunk := s.reservation.value.chunk;
    B.OpAccounts(h, s.buffer, B.DoRollback(chunk.start, chunk.end));
  }

  /** An abort loses what is buffered, once, and nothing that was acknowledged. */
  lemma AbortRecorded(s: S.Session, h: B.History, failed: bool)
    requires Recorded(s, h) && s.Live() && s.reservation.None?
    ensures Recorded(if failed then S.Fail(s) else S.Abort(s), B.Extended(h, s.buffer, B.DoDiscard(s.buffer.Buffered())))
  {
    var b := s.buffer;
    B.OpAccounts(h, b, B.DoDiscard(b.Buffered()));
    assert b.(reservation := None) == b;
    var after := B.Extended(h, b, B.DoDiscard(b.Buffered()));
    assert after.gone == h.gone + [B.Lost(b.base, b.base + b.Buffered())];
  }

  lemma OpenKeeps(cfg: C.Config, sys: System, id: string, maxSamples: nat)
    requires Inv(cfg, sys) && id !in sys.used
    ensures Inv(cfg, Opened(sys, id, maxSamples))
  {
    var after := Opened(sys, id, maxSamples);
    forall x ensures JobLinked(after, x) {
      assert JobLinked(sys, x);
    }
    forall other ensures SessionLinked(after, other) {
      assert SessionLinked(sys, other);
    }
  }

  lemma ReleaseKeeps(cfg: C.Config, sys: System, id: string)
    requires Inv(cfg, sys) && id in sys.sessions
    ensures Inv(cfg, Next(cfg, sys, Release(id)))
  {
    var after := Next(cfg, sys, Release(id));
    forall x ensures JobLinked(after, x) {
      assert JobLinked(sys, x);
    }
    forall other ensures SessionLinked(after, other) {
      assert SessionLinked(sys, other);
    }
  }

  lemma QuietlyKeepsSession(sys: System, id: string, change: Change)
    requires SessionLinked(sys, id) && Tracked(sys, id) && Changed(sys.sessions[id], change).Ok?
    ensures SessionLinked(SetSession(sys, id, Changed(sys.sessions[id], change).value, BufferOp(sys.sessions[id], change)), id)
  {
    ChangedRecorded(sys.sessions[id], sys.histories[id], change);
  }

  lemma QuietlyKeeps(cfg: C.Config, sys: System, id: string, change: Change)
    requires Inv(cfg, sys) && Enabled(cfg, sys, Quietly(id, change))
    ensures Inv(cfg, Next(cfg, sys, Quietly(id, change)))
  {
    assert SessionLinked(sys, id);
    QuietlyKeepsSession(sys, id, change);
    ChangedRecorded(sys.sessions[id], sys.histories[id], change);
    OneSessionKeeps(cfg, sys, Next(cfg, sys, Quietly(id, change)), id);
  }

  /** Of one session a reservation may be lost, with a new generation, and nothing else that
      links it to its job. */
  ghost predicate OneSessionChanges(sys: System, after: System, id: string) {
    && after.sched == sys.sched && after.holder == sys.holder && after.used == sys.used
    && id in sys.sessions && id in after.sessions && id in after.histories
    && after.sessions == sys.sessions[id := after.sessions[id]]
    && after.histories == sys.histories[id := after.histories[id]]
    && sys.sessions[id].generation <= after.sessions[id].generation
    && (after.sessions[id].generation == sys.sessions[id].generation ==>
          after.sessions[id].reservation == sys.sessions[id].reservation)
  }

  lemma OneSessionKeeps(cfg: C.Config, sys: System, after: System, id: string)
    requires Inv(cfg, sys) && OneSessionChanges(sys, after, id) && SessionLinked(after, id)
    ensures Inv(cfg, after)
  {
    forall x ensures JobLinked(after, x) {
      assert JobLinked(sys, x);
    }
    forall other ensures SessionLinked(after, other) {
      assert SessionLinked(sys, other);
    }
  }

  lemma EnqueueChangesLive(s: C.Sched, job: Job, x: Job)
    requires 0 <= job.worker < |s.core.queues|
    ensures LiveCopies(C.Enqueued(s, job), x) == LiveCopies(s, x) + (if x == job then 1 else 0)
  {
    CountSnoc(s.ledger.enqueued, job, x);
  }

  lemma EnqueueKeepsSched(cfg: C.Config, s: C.Sched, job: Job)
    requires C.Inv(cfg, s) && C.Refusal(cfg, s.core, job).None?
    ensures C.Inv(cfg, C.Enqueued(s, job))
  {
    var unstamped := C.Enqueue(job, job.enqueuedAt);
    assert C.Stamped(job, job.enqueuedAt) == job;
    C.NextKeeps(cfg, s, unstamped);
  }

  /** The freshly enqueued job is new: nothing live in this generation came before it. */
  lemma FreshJob(cfg: C.Config, sys: System, id: string, job: Job)
    requires Inv(cfg, sys) && Tracked(sys, id) && sys.sessions[id].reservation.None?
    requires job.session == id && job.generation == sys.sessions[id].generation
    requires 0 <= job.worker < |sys.sched.core.queues|
    ensures LiveCopies(C.Enqueued(sys.sched, job), job) == 1
  {
    assert JobLinked(sys, job);
    assert C.LedgerAt(sys.sched, job);
    LiveIsHeld(sys.sched, job);
    EnqueueChangesLive(sys.sched, job, job);
  }

  lemma ScheduledSession(cfg: C.Config, sys: System, id: string, samples: int, final: bool, form: Job, now: real)
    requires Inv(cfg, sys) && Enabled(cfg, sys, Schedule(id, samples, final, form, now))
    requires C.Refusal(cfg, sys.sched.core, JobFor(id, S.Reserve(sys.sessions[id], samples, final).value, form, now)).None?
    ensures SessionLinked(Scheduled(cfg, sys, id, samples, final, form, now), id)
  {
    assert SessionLinked(sys, id);
    FreshJob(cfg, sys, id, JobFor(id, S.Reserve(sys.sessions[id], samples, final).value, form, now));
    ReservedRecorded(sys.sessions[id], sys.histories[id], samples, final);
  }

  /** Sessions other than the one that reserved keep their holder and its single copy. */
  lemma ScheduledOther(cfg: C.Config, sys: System, id: string, samples: int, final: bool, form: Job, now: real, other: string)
    requires Inv(cfg, sys) && Enabled(cfg, sys, Schedule(id, samples, final, form, now))
    requires C.Refusal(cfg, sys.sched.core, JobFor(id, S.Reserve(sys.sessions[id], samples, final).value, form, now)).None?
    requires other != id
    ensures SessionLinked(Scheduled(cfg, sys, id, samples, final, form, now), other)
  {
    assert SessionLinked(sys, id) && SessionLinked(sys, other);
    if other in sys.holder {
      EnqueueChangesLive(sys.sched, JobFor(id, S.Reserve(sys.sessions[id], samples, final).value, form, now), sys.holder[other]);
    }
  }

  lemma AcceptedScheduleKeeps(cfg: C.Config, sys: System, id: string, samples: int, final: bool, form: Job, now: real)
    requires Inv(cfg, sys) && Enabled(cfg, sys, Schedule(id, samples, final, form, now))
    requires C.Refusal(cfg, sys.sched.core, JobFor(id, S.Reserve(sys.sessions[id], samples, final).value, form, now)).None?
    ensures Inv(cfg, Scheduled(cfg, sys, id, samples, final, form, now))
  {
    var job := JobFor(id, S.Reserve(sys.sessions[id], samples, final).value, form, now);
    var after := Scheduled(cfg, sys, id, samples, final, form, now);
    assert SessionLinked(sys, id);
    EnqueueKeepsSched(cfg, sys.sched, job);
    forall x ensures JobLinked(after, x) {
      assert JobLinked(sys, x);
      EnqueueChangesLive(sys.sched, job, x);
    }
    forall other ensures SessionLinked(after, other) {
      if other == id {
        ScheduledSession(cfg, sys, id, samples, final, form, now);
      } else {
        ScheduledOther(cfg, sys, id, samples, final, form, now, other);
      }
    }
  }

  lemma ScheduleKeeps(cfg: C.Config, sys: System, id: string, samples: int, final: bool, form: Job, now: real)
    requires Inv(cfg, sys) && Enabled(cfg, sys, Schedule(id, samples, final, form, now))
    ensures Inv(cfg, Scheduled(cfg, sys, id, samples, final, form, now))
  {
    var job := JobFor(id, S.Reserve(sys.sessions[id], samples, final).value, form, now);
    if C.Refusal(cfg, sys.sched.core, job).None? {
      AcceptedScheduleKeeps(cfg, sys, id, samples, final, form, now);
    } else {
      var after := Scheduled(cfg, sys, id, samples, final, form, now);
      forall x ensures JobLinked(after, x) {
        assert JobLinked(sys, x);
      }
      forall other ensures SessionLinked(after, other) {
        assert SessionLinked(sys, other);
      }
    }
  }

  lemma AbortKeepsSession(sys: System, id: string, failed: bool)
    requires SessionLinked(sys, id) && Tracked(sys, id) && sys.sessions[id].Live()
    ensures SessionLinked(Aborted(sys, id, failed), id)
  {
    var s, h := sys.sessions[id], sys.histories[id];
    if s.reservation.Some? {
      RolledBackRecorded(s, h, s.reservation.value.sequence);
      var rolled := S.Rollback(s, s.reservation.value.sequence).0;
      AbortRecorded(rolled, h, failed);
      assert S.Abort(rolled) == S.Abort(s);
    } else {
      AbortRecorded(s, h, failed);
    }
  }

  lemma AbortKeeps(cfg: C.Config, sys: System, id: string, failed: bool)
    requires Inv(cfg, sys) && Enabled(cfg, sys, Abort(id, failed))
    ensures Inv(cfg, Next(cfg, sys, Abort(id, failed)))
  {
    assert SessionLinked(sys, id);
    AbortKeepsSession(sys, id, failed);
    AbortChanges(sys, id, failed);
    OneSessionKeeps(cfg, sys, Aborted(sys, id, failed), id);
  }

  lemma AbortChanges(sys: System, id: string, failed: bool)
    requires Tracked(sys, id) && sys.sessions[id].Live()
    ensures OneSessionChanges(sys, Aborted(sys, id, failed), id)
  {
  }

  /** A hook that finds its job current finds it to be the one the reservation waits for. */
  lemma CurrentJobIsHolder(cfg: C.Config, sys: System, step: C.Step)
    requires Inv(cfg, sys) && C.Enabled(cfg, sys.sched, step) && TurnJob(sys.sched, step).Some?
    ensures var job := TurnJob(sys.sched, step).value;
            Current(sys, job) ==>
              && job.session in sys.holder && job == sys.holder[job.session]
              && LiveCopies(sys.sched, job) == 1
              && Carries(sys.sessions[job.session], job)
              && Owns(sys, job) && RejectSucceeds(sys, job)
  {
    var job := TurnJob(sys.sched, step).value;
    TurnJobIsLive(cfg, sys.sched, step);
    assert JobLinked(sys, job) && SessionLinked(sys, job.session);
  }

  /** A step that settles nothing changes no link. */
  lemma PlainTurnKeeps(cfg: C.Config, sys: System, step: C.Step)
    requires Inv(cfg, sys) && Enabled(cfg, sys, Turn(step)) && TurnJob(sys.sched, step).None?
    ensures Inv(cfg, Next(cfg, sys, Turn(step)))
  {
    var after := Next(cfg, sys, Turn(step));
    C.NextKeeps(cfg, sys.sched, step);
    forall x ensures JobLinked(after, x) {
      assert JobLinked(sys, x);
      TurnChangesLive(cfg, sys.sched, step, x);
    }
    forall id ensures SessionLinked(after, id) {
      assert SessionLinked(sys, id);
      if id in sys.holder {
        TurnChangesLive(cfg, sys.sched, step, sys.holder[id]);
      }
    }
  }

  /** The session of a settled job, in its current generation, no longer has a reservation. */
  lemma SettledSession(sys: System, job: Job, clean: bool)
    requires Current(sys, job) && Tracked(sys, job.session) && SessionLinked(sys, job.session)
    requires Owns(sys, job) && RejectSucceeds(sys, job)
    ensures var after := if clean then CleanedUp(sys, job) else Rejected(sys, job);
            && after.sessions.Keys == sys.sessions.Keys
            && after.sessions[job.session].reservation.None?
            && after.sessions[job.session].generation == sys.sessions[job.session].generation
            && SessionLinked(after, job.session)
            && after.sched == sys.sched && after.holder == sys.holder && after.used == sys.used
            && (forall id | id in sys.sessions && id != job.session ::
                  after.sessions[id] == sys.sessions[id]
                  && (id in sys.histories ==> id in after.histories && after.histories[id] == sys.histories[id]))
  {
    var s, h := sys.sessions[job.session], sys.histories[job.session];
    if clean {
      AcknowledgedRecorded(s, h, job.sequence);
    } else {
      RolledBackRecorded(s, h, job.sequence);
    }
  }

  /** What a hook leaves: its own session without a reservation if the job was current,
      everything else as it was. */
  ghost predicate Settles(sys: System, after: System, job: Job) {
    && after.holder == sys.holder && after.used == sys.used
    && after.sessions.Keys == sys.sessions.Keys
    && (forall id | id in sys.sessions && !(Current(sys, job) && id == job.session) ::
          after.sessions[id] == sys.sessions[id]
          && (id in sys.histories ==> id in after.histories && after.histories[id] == sys.histories[id]))
    && (Current(sys, job) ==>
          && after.sessions[job.session].reservation.None?
          && after.sessions[job.session].generation == sys.sessions[job.session].generation
          && SessionLinked(after, job.session))
  }

  lemma TurnSettles(cfg: C.Config, sys: System, step: C.Step)
    requires Inv(cfg, sys) && Enabled(cfg, sys, Turn(step)) && TurnJob(sys.sched, step).Some?
    ensures Settles(sys, Next(cfg, sys, Turn(step)), TurnJob(sys.sched, step).value)
  {
    var job := TurnJob(sys.sched, step).value;
    var turned := sys.(sched := C.Next(cfg, sys.sched, step));
    CurrentJobIsHolder(cfg, sys, step);
    assert SessionLinked(sys, job.session);
    if Current(sys, job) {
      SettledSession(sys, job, step.CleanOne?);
      SettledWithSched(sys, turned, job, step.CleanOne?);
    }
  }

  lemma TurnKeeps(cfg: C.Config, sys: System, step: C.Step)
    requires Inv(cfg, sys) && Enabled(cfg, sys, Turn(step)) && TurnJob(sys.sched, step).Some?
    ensures Inv(cfg, Next(cfg, sys, Turn(step)))
  {
    var job := TurnJob(sys.sched, step).value;
    var after := Next(cfg, sys, Turn(step));
    C.NextKeeps(cfg, sys.sched, step);
    CurrentJobIsHolder(cfg, sys, step);
    TurnSettles(cfg, sys, step);
    forall x ensures JobLinked(after, x) {
      TurnKeepsJob(cfg, sys, step, x);
    }
    forall id ensures SessionLinked(after, id) {
      TurnKeepsOther(cfg, sys, step, id);
    }
  }

  lemma TurnKeepsJob(cfg: C.Config, sys: System, step: C.Step, x: Job)
    requires Inv(cfg, sys) && Enabled(cfg, sys, Turn(step)) && TurnJob(sys.sched, step).Some?
    requires Settles(sys, Next(cfg, sys, Turn(step)), TurnJob(sys.sched, step).value)
    requires var job := TurnJob(sys.sched, step).value;
             Current(sys, job) ==> job.session in sys.holder && job == sys.holder[job.session] && LiveCopies(sys.sched, job) == 1
    ensures JobLinked(Next(cfg, sys, Turn(step)), x)
  {
    assert JobLinked(sys, x);
    TurnChangesLive(cfg, sys.sched, step, x);
    assert Next(cfg, sys, Turn(step)).sched == C.Next(cfg, sys.sched, step);
  }

  lemma TurnKeepsOther(cfg: C.Config, sys: System, step: C.Step, id: string)
    requires Inv(cfg, sys) && Enabled(cfg, sys, Turn(step)) && TurnJob(sys.sched, step).Some?
    requires Settles(sys, Next(cfg, sys, Turn(step)), TurnJob(sys.sched, step).value)
    ensures SessionLinked(Next(cfg, sys, Turn(step)), id)
  {
    assert SessionLinked(sys, id);
    var job := TurnJob(sys.sched, step).value;
    assert Next(cfg, sys, Turn(step)).sched == C.Next(cfg, sys.sched, step);
    if id in sys.holder {
      TurnChangesLive(cfg, sys.sched, step, sys.holder[id]);
    }
  }

  /** The hooks do not look at the scheduler. */
  lemma SettledWithSched(sys: System, turned: System, job: Job, clean: bool)
    requires turned == sys.(sched := turned.sched)
    requires Current(sys, job) ==> Tracked(sys, job.session)
    ensures Rejected(turned, job) == Rejected(sys, job).(sched := turned.sched)
    ensures CleanedUp(turned, job) == CleanedUp(sys, job).(sched := turned.sched)
  {
  }

  /** Every action keeps sessions and jobs linked. */
  lemma NextKeeps(cfg: C.Config, sys: System, action: Action)
    requires Inv(cfg, sys) && Enabled(cfg, sys, action)
    ensures Inv(cfg, Next(cfg, sys, action))
  {
    match action
    case Open(id, maxSamples) => OpenKeeps(cfg, sys, id, maxSamples);
    case Quietly(id, change) => QuietlyKeeps(cfg, sys, id, change);
    case Schedule(id, samples, final, form, now) => ScheduleKeeps(cfg, sys, id, samples, final, form, now);
    case Abort(id, failed) => AbortKeeps(cfg, sys, id, failed);
    case Release(id) => ReleaseKeeps(cfg, sys, id);
    case Turn(step) =>
      if TurnJob(sys.sched, step).Some? {
        TurnKeeps(cfg, sys, step);
      } else {
        PlainTurnKeeps(cfg, sys, step);
      }
  }

  // ----- over every run ------------------------------------------------------------------

  function RunOf(cfg: C.Config, start: System, actions: seq<Action>): System {
    if actions == [] then start
    else
      var sys := RunOf(cfg, start, actions[..|actions| - 1]);
      var action := actions[|actions| - 1];
      if Enabled(cfg, sys, action) then Next(cfg, sys, action) else sys
  }

  lemma {:induction false} RunKeeps(cfg: C.Config, start: System, actions: seq<Action>)
    requires Inv(cfg, start)
    ensures Inv(cfg, RunOf(cfg, start, actions))
  {
    if actions != [] {
      RunKeeps(cfg, start, actions[..|actions| - 1]);
      var sys := RunOf(cfg, start, actions[..|actions| - 1]);
      if Enabled(cfg, sys, actions[|actions| - 1]) {
        NextKeeps(cfg, sys, actions[|actions| - 1]);
      }
    }
  }

  function Start(cfg: C.Config): System {
    System(R.Initial(cfg), map[], map[], map[], {})
  }

  lemma StartInv(cfg: C.Config)
    requires 0 <= cfg.maxQueuedSamples
    ensures Inv(cfg, Start(cfg))
  {
    R.InitialInv(cfg);
    forall x ensures JobLinked(Start(cfg), x) {
      CountNone(x);
    }
  }

  ghost predicate Reachable(cfg: C.Config, sys: System) {
    exists actions :: sys == RunOf(cfg, Start(cfg), actions)
  }

  lemma ReachableInv(cfg: C.Config, sys: System)
    requires 0 <= cfg.maxQueuedSamples && Reachable(cfg, sys)
    ensures Inv(cfg, sys)
  {
    var actions :| sys == RunOf(cfg, Start(cfg), actions);
    StartInv(cfg);
    RunKeeps(cfg, Start(cfg), actions);
  }

  /** In every reachable state a session with a reservation has exactly one copy of exactly
      one job of its generation in the scheduler, carrying the reserved samples. */
  lemma ReservationHasOneJob(cfg: C.Config, sys: System, id: string)
    requires 0 <= cfg.maxQueuedSamples && Reachable(cfg, sys)
    requires id in sys.sessions && sys.sessions[id].reservation.Some?
    ensures exists job: Job ::
              && job.session == id && Carries(sys.sessions[id], job)
              && Count(C.All(sys.sched.core.queues), job) + Count(C.Pulled(sys.sched.run), job)
                 + Count(C.InFlight(sys.sched.run), job) == 1
              && forall other: Job | other.session == id && other.generation == sys.sessions[id].generation
                                     && (other in C.All(sys.sched.core.queues) || other in C.Pulled(sys.sched.run)
                                         || other in C.InFlight(sys.sched.run)) ::
                   other == job
  {
    ReachableInv(cfg, sys);
    assert SessionLinked(sys, id);
    var job := sys.holder[id];
    assert C.LedgerAt(sys.sched, job);
    LiveIsHeld(sys.sched, job);
    forall other: Job | other.session == id && other.generation == sys.sessions[id].generation
                        && (other in C.All(sys.sched.core.queues) || other in C.Pulled(sys.sched.run)
                            || other in C.InFlight(sys.sched.run))
      ensures other == job
    {
      assert C.LedgerAt(sys.sched, other) && JobLinked(sys, other);
      LiveIsHeld(sys.sched, other);
      CountMember(C.All(sys.sched.core.queues), other);
      CountMember(C.Pulled(sys.sched.run), other);
      CountMember(C.InFlight(sys.sched.run), other);
    }
  }

  /** No hook of a job of the session's own generation ever fails: cleanup acknowledges and
      rejection gives back. A job from before an abort acknowledges nothing. */
  lemma HooksNeverConflict(cfg: C.Config, sys: System, step: C.Step)
    requires 0 <= cfg.maxQueuedSamples && Reachable(cfg, sys)
    requires C.Enabled(cfg, sys.sched, step) && TurnJob(sys.sched, step).Some?
    ensures var job := TurnJob(sys.sched, step).value;
            && RejectSucceeds(sys, job)
            && (CleanupOutcome(sys, job) == C.Clean <==> Current(sys, job))
            && (job.session in sys.sessions && !Current(sys, job) ==>
                  job.generation < sys.sessions[job.session].generation && CleanedUp(sys, job) == sys)
  {
    ReachableInv(cfg, sys);
    CurrentJobIsHolder(cfg, sys, step);
    TurnJobIsLive(cfg, sys.sched, step);
    assert JobLinked(sys, TurnJob(sys.sched, step).value);
  }

  /** Through any reservations, rollbacks, retries, aborts and interleavings, what a session
      has acknowledged is exactly a prefix of what it was given; unless it was aborted, the
      rest is what it still buffers. */
  lemma AcknowledgedInOrderExactlyOnce(cfg: C.Config, sys: System, id: string)
    requires 0 <= cfg.maxQueuedSamples && Reachable(cfg, sys) && id in sys.sessions
    ensures id in sys.histories
    ensures var h, b := sys.histories[id], sys.sessions[id].buffer;
            && b.acknowledged <= |h.stream|
            && B.AckedAudio(h.gone) == h.stream[..b.acknowledged]
            && (!Dropped(sys.sessions[id]) ==> h.stream[b.acknowledged..] == b.data)
  {
    assert SessionLinked(sys, id) by { ReachableInv(cfg, sys); }
    if Dropped(sys.sessions[id]) {
      B.AckedThenLost(sys.histories[id], sys.sessions[id].buffer);
    } else {
      B.AckedThenBuffered(sys.histories[id], sys.sessions[id].buffer);
    }
  }
}
