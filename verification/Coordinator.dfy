/** The coordinator of the thread that owns the model (app/asr_inference.py), as a transition
    system: callers submit jobs, time out and give up; the owner thread takes one job after
    the other, claims it, runs it and hands its reservations back. Every step is one section
    the code runs under its lock, or one operation on a job's `started` future. */
module Coordinator {
  import opened Pcm

  datatype Config = Config(queueSize: nat, maxStreams: nat, maxAudio: real)

  datatype Request =
    | NewStream(session: string)
    | SessionOp(session: string, closes: bool, audio: real)
    | WholeFile
    | Shutdown

  /** A job's `started` future. Cancelling succeeds only while nobody has claimed it. */
  datatype Future = Pending | Cancelled | Claimed | Rejected(late: bool) | Settled

  datatype Outcome = Waiting | QueueTimedOut | NotReady | InferenceTimedOut | Answered | Abandoned

  /** `keepsStream`: the job still owns the stream reservation it made. */
  datatype Job = Job(request: Request, keepsStream: bool, future: Future, executed: bool, outcome: Outcome)

  /** How far the owner thread is with the job it took from the queue. */
  datatype Stage = Taken | Deciding | Running | Over | Poisonous | GivingAudio | GivingSession | GivingStream | Closing

  datatype Worker =
    | Down
    | Idle
    | Working(id: nat, stage: Stage, draining: bool)
    | Leaving
    | Draining

  /** The two flags of a file that is to be transcribed, and who is still to clear the first:
      callers that have announced a file and not yet submitted it, and the jobs of those that
      have. `late`: some of them may be left over from before a shutdown. */
  datatype Batch = Batch(pending: bool, running: bool, announced: nat, callers: set<nat>, late: bool)
  {
    predicate Deserted() {
      announced == 0 && callers == {}
    }
  }

  const NO_FILE := Batch(false, false, 0, {}, false)

  datatype State = State(
    accepting: bool,
    loopActive: bool,
    shutdownRequested: bool,
    businessJobs: int,
    queuedAudio: real,
    active: set<string>,
    streams: set<string>,
    poisoned: set<string>,
    busy: set<string>,
    batch: Batch,
    used: set<string>,
    jobs: seq<Job>,
    queue: set<nat>,
    worker: Worker)

  const INITIAL := State(false, false, false, 0, 0.0, {}, {}, {}, {}, NO_FILE, {}, [], {}, Down)

  function AudioOf(r: Request): real {
    if r.SessionOp? then r.audio else 0.0
  }

  function SessionOf(r: Request): Option<string> {
    match r
    case NewStream(session) => Some(session)
    case SessionOp(session, _, _) => Some(session)
    case _ => None
  }

  function With(s: State, id: nat, j: Job): State
    requires id < |s.jobs|
  {
    s.(jobs := s.jobs[id := j])
  }

  // ----- what a job still holds ---------------------------------------------------------

  predicate At(s: State, id: nat, stages: set<Stage>) {
    s.worker.Working? && s.worker.id == id && s.worker.stage in stages
  }

  predicate Business(j: Job) {
    !j.request.Shutdown?
  }

  const BEFORE_AUDIO: set<Stage> := {Taken, Deciding, Running, Over, Poisonous, GivingAudio}
  const BEFORE_SESSION: set<Stage> := BEFORE_AUDIO + {GivingSession}
  const BEFORE_STREAM: set<Stage> := BEFORE_SESSION + {GivingStream}
  const ALL_STAGES: set<Stage> := BEFORE_STREAM + {Closing}

  predicate HoldsSlot(s: State, id: nat) {
    id < |s.jobs| && Business(s.jobs[id]) && (id in s.queue || At(s, id, {Taken}))
  }

  predicate HoldsAudio(s: State, id: nat) {
    id < |s.jobs| && (id in s.queue || At(s, id, BEFORE_AUDIO))
  }

  predicate HoldsSession(s: State, id: nat) {
    id < |s.jobs| && s.jobs[id].request.SessionOp? && (id in s.queue || At(s, id, BEFORE_SESSION))
  }

  /** Neither waiting nor in the owner thread's hands. */
  predicate Gone(s: State, id: nat) {
    id < |s.jobs| && id !in s.queue && !At(s, id, ALL_STAGES)
  }

  // ----- callers ------------------------------------------------------------------------

  datatype Reason = CoordinatorNotReady | BatchConflict | SessionLimit | SessionPoisoned | SessionBusy | AudioLimit | QueueFull

  /** Why a submission is turned away before it marks anything, in the order of the checks. */
  function NotAdmissible(cfg: Config, s: State, r: Request): Option<Reason> {
    if !s.accepting then Some(CoordinatorNotReady)
    else if r.NewStream? && (s.batch.pending || s.batch.running) then Some(BatchConflict)
    else if r.NewStream? && |s.streams| >= cfg.maxStreams then Some(SessionLimit)
    else if r.SessionOp? && (r.session == "" || r.session in s.poisoned || r.session !in s.active) then Some(SessionPoisoned)
    else if r.SessionOp? && r.session in s.busy then Some(SessionBusy)
    else None
  }

  function OverLimit(cfg: Config, s: State, r: Request): Option<Reason> {
    if s.queuedAudio + AudioOf(r) > cfg.maxAudio then Some(AudioLimit)
    else if s.businessJobs >= cfg.queueSize then Some(QueueFull)
    else None
  }

  function Refusal(cfg: Config, s: State, r: Request): Option<Reason> {
    if NotAdmissible(cfg, s, r).Some? then NotAdmissible(cfg, s, r) else OverLimit(cfg, s, r)
  }

  /** The queue has one slot more than it has business jobs, for the shutdown job. */
  predicate PutFails(cfg: Config, s: State) {
    |s.queue| >= cfg.queueSize + 1
  }

  /** The session and stream marks a submission makes before the last two checks. */
  function Marked(s: State, r: Request): State {
    s.(streams := if r.NewStream? then s.streams + {r.session} else s.streams,
       busy := if r.SessionOp? then s.busy + {r.session} else s.busy)
  }

  function Unmarked(s: State, r: Request): State {
    s.(streams := if r.NewStream? then s.streams - {r.session} else s.streams,
       busy := if SessionOf(r).Some? then s.busy - {SessionOf(r).value} else s.busy)
  }

  function Counted(s: State, r: Request): State {
    s.(queuedAudio := s.queuedAudio + AudioOf(r), businessJobs := s.businessJobs + 1)
  }

  function Uncounted(s: State, r: Request): State {
    s.(queuedAudio := if s.queuedAudio - AudioOf(r) < 0.0 then 0.0 else s.queuedAudio - AudioOf(r),
       businessJobs := s.businessJobs - 1)
  }

  function Enqueued(s: State, r: Request): State {
    s.(jobs := s.jobs + [Job(r, r.NewStream?, Pending, false, Waiting)],
       queue := s.queue + {|s.jobs|},
       used := if r.NewStream? then s.used + {r.session} else s.used,
       batch := if r.WholeFile? then Handed(s.batch, |s.jobs|) else s.batch)
  }

  /** The caller of a file waits for its job from now on. */
  function Handed(b: Batch, id: nat): Batch {
    b.(announced := if b.announced > 0 then b.announced - 1 else 0, callers := b.callers + {id})
  }

  /** The locked part of a submission; every mark it made is taken back when a later check
      or the put itself turns the job away. */
  function Submit(cfg: Config, s: State, r: Request): State {
    if NotAdmissible(cfg, s, r).Some? then s else Place(cfg, Marked(s, r), r)
  }

  function Place(cfg: Config, s: State, r: Request): State {
    if OverLimit(cfg, s, r).Some? then Unmarked(s, r)
    else if PutFails(cfg, s) then Unmarked(Uncounted(Counted(s, r), r), r)
    else Enqueued(Counted(s, r), r)
  }

  function RequestStop(cfg: Config, s: State): State {
    var closed := s.(accepting := false);
    if s.worker.Down? || !s.loopActive || s.shutdownRequested || PutFails(cfg, s) then closed
    else Enqueued(closed.(shutdownRequested := true), Shutdown)
  }

  /** `started.cancel()` for a caller that stops waiting with the given outcome. */
  function CancelStarted(s: State, id: nat, outcome: Outcome): State
    requires id < |s.jobs|
  {
    With(s, id, s.jobs[id].(future := Cancelled, outcome := outcome))
  }

  function QueueTimeout(s: State, id: nat): State
    requires id < |s.jobs|
  {
    if s.jobs[id].future.Pending? || s.jobs[id].future.Cancelled? then CancelStarted(s, id, QueueTimedOut) else s
  }

  function HearRejection(s: State, id: nat): State
    requires id < |s.jobs| && s.jobs[id].future.Rejected?
  {
    With(s, id, s.jobs[id].(outcome := if s.jobs[id].future.late then QueueTimedOut else NotReady))
  }

  function Poison(s: State, r: Request): State {
    if SessionOf(r).Some? then s.(poisoned := s.poisoned + {SessionOf(r).value}) else s
  }

  function InferenceTimeout(s: State, id: nat): State
    requires id < |s.jobs|
  {
    With(Poison(s, s.jobs[id].request), id, s.jobs[id].(outcome := InferenceTimedOut))
  }

  function Abandon(s: State, id: nat): State
    requires id < |s.jobs|
  {
    if s.jobs[id].future.Pending? || s.jobs[id].future.Cancelled? then CancelStarted(s, id, Abandoned)
    else With(Poison(s, s.jobs[id].request), id, s.jobs[id].(outcome := Abandoned))
  }

  // ----- the owner thread ---------------------------------------------------------------

  function Go(s: State, stage: Stage): State
    requires s.worker.Working?
  {
    s.(worker := s.worker.(stage := stage))
  }

  /** The owner thread leaves its job's record as `j` and goes on to `stage`. */
  function Handle(s: State, stage: Stage, j: Job): State
    requires s.worker.Working? && s.worker.id < |s.jobs|
  {
    s.(worker := s.worker.(stage := stage), jobs := s.jobs[s.worker.id := j])
  }

  function GiveSlot(s: State): State
    requires s.worker.Working? && s.worker.id < |s.jobs|
  {
    if s.jobs[s.worker.id].request.Shutdown? then
      if s.worker.draining then Go(s, Deciding)
      else Handle(s, Over, s.jobs[s.worker.id].(future := Settled))
    else Go(s.(businessJobs := Max(0, s.businessJobs - 1)), Deciding)
  }

  /** Turns an unclaimed job away; a job its caller cancelled stays cancelled. */
  function Reject(s: State, late: bool): State
    requires s.worker.Working? && s.worker.id < |s.jobs|
  {
    var j := s.jobs[s.worker.id];
    Handle(s, if s.worker.draining then GivingAudio else Over, if j.future.Pending? then j.(future := Rejected(late)) else j)
  }

  function Claim(s: State): State
    requires s.worker.Working? && s.worker.id < |s.jobs|
  {
    var j := s.jobs[s.worker.id];
    if j.future.Pending? then Handle(s, Running, j.(future := Claimed)) else Go(s, Over)
  }

  /** The model call, successful or not, with its effect on the session sets. */
  function Run(s: State, ok: bool): State
    requires s.worker.Working? && s.worker.id < |s.jobs|
  {
    var j := s.jobs[s.worker.id];
    var opens := if j.request.NewStream? && ok then {j.request.session} else {};
    var closes := if j.request.SessionOp? && j.request.closes then {j.request.session} else {};
    Handle(s, Over, j.(executed := true, keepsStream := j.keepsStream && !(j.request.NewStream? && ok)))
      .(active := s.active + opens - closes, streams := s.streams - closes,
        batch := if j.request.WholeFile? then s.batch.(running := false) else s.batch)
  }

  /** A whole file takes the model for itself while it is transcribed. */
  function MarkBatch(s: State): State {
    s.(batch := s.batch.(running := true))
  }

  /** A caller announces a file before it submits it, unless streams or another file own the
      model. */
  function AnnounceFile(s: State): State {
    if s.accepting && s.streams == {} && !s.batch.pending && !s.batch.running
    then s.(batch := s.batch.(pending := true, announced := s.batch.announced + 1))
    else s
  }

  /** A caller that announced a file is through, with or without a job of it. */
  function FileOver(s: State, caller: Option<nat>): State {
    var announced: nat := if caller.None? && s.batch.announced > 0 then s.batch.announced - 1 else s.batch.announced;
    var callers := if caller.Some? then s.batch.callers - {caller.value} else s.batch.callers;
    s.(batch := Batch(false, s.batch.running, announced, callers, s.batch.late && !(announced == 0 && callers == {})))
  }

  function LookForPoison(s: State): State
    requires s.worker.Working? && s.worker.id < |s.jobs|
  {
    var session := SessionOf(s.jobs[s.worker.id].request);
    Go(s, if session.Some? && session.value in s.poisoned then Poisonous else GivingAudio)
  }

  function CleanPoisoned(s: State): State
    requires s.worker.Working? && s.worker.id < |s.jobs|
  {
    var session := SessionOf(s.jobs[s.worker.id].request);
    if session.None? then Go(s, GivingAudio)
    else
      Go(s, GivingAudio).(poisoned := s.poisoned - {session.value}, busy := s.busy - {session.value},
                          active := s.active - {session.value}, streams := s.streams - {session.value})
  }

  function GiveAudio(s: State): State
    requires s.worker.Working? && s.worker.id < |s.jobs|
  {
    var left := s.queuedAudio - AudioOf(s.jobs[s.worker.id].request);
    Go(s, GivingSession).(queuedAudio := if left < 0.0 then 0.0 else left)
  }

  function GiveSession(s: State): State
    requires s.worker.Working? && s.worker.id < |s.jobs|
  {
    var r := s.jobs[s.worker.id].request;
    Go(s, GivingStream).(busy := if r.SessionOp? then s.busy - {r.session} else s.busy)
  }

  function GiveStream(s: State): State
    requires s.worker.Working? && s.worker.id < |s.jobs|
  {
    var j := s.jobs[s.worker.id];
    if j.keepsStream && j.request.NewStream? then
      Handle(s, Closing, j.(keepsStream := false)).(streams := s.streams - {j.request.session})
    else Go(s, Closing)
  }

  /** The end of a job: a job that failed before it was claimed is settled. The thread goes
      on, or leaves its loop after the shutdown job or an unexpected error. */
  function Finish(s: State, crash: bool): State
    requires s.worker.Working? && s.worker.id < |s.jobs|
  {
    var j := s.jobs[s.worker.id];
    With(s, s.worker.id, if j.future.Pending? then j.(future := Settled) else j)
      .(worker := if s.worker.draining then Draining else if crash || j.request.Shutdown? then Leaving else Idle)
  }

  function Clear(s: State): State {
    s.(active := {}, streams := {}, poisoned := {}, busy := {}, batch := s.batch.(pending := false, running := false, late := !s.batch.Deserted()),
       queuedAudio := 0.0, businessJobs := 0, shutdownRequested := false, worker := Down)
  }

  // ----- the steps ----------------------------------------------------------------------

  datatype Step =
    | DoStart
    | DoSubmit(request: Request)
    | DoStop
    | DoQueueTimeout(id: nat)
    | DoHearRejection(id: nat)
    | DoInferenceTimeout(id: nat)
    | DoAnswer(id: nat)
    | DoAbandon(id: nat)
    | DoPoison(session: string)
    | DoForgive(session: string)
    | DoAnnounceFile
    | DoFileOver(caller: Option<nat>)
    | DoLoadFails
    | DoTake(id: nat)
    | DoGiveSlot
    | DoReject(late: bool)
    | DoWarmupFails(refuses: bool)
    | DoClaim
    | DoMarkBatch
    | DoRun(ok: bool)
    | DoLookForPoison
    | DoCleanPoisoned
    | DoGiveAudio
    | DoGiveSession
    | DoGiveStream
    | DoFinish(crash: bool)
    | DoLeave
    | DoClear

  /** The queue hands out the shutdown job first, then streaming work, then files, each in
      order of submission. */
  function Priority(r: Request): int {
    if r.Shutdown? then -100 else if r.WholeFile? then 10 else 0
  }

  predicate FirstInLine(s: State, id: nat)
    requires id < |s.jobs|
  {
    forall other | other in s.queue && other < |s.jobs| ::
      || Priority(s.jobs[id].request) < Priority(s.jobs[other].request)
      || (Priority(s.jobs[id].request) == Priority(s.jobs[other].request) && id <= other)
  }

  predicate InStage(s: State, stage: Stage) {
    s.worker.Working? && s.worker.id < |s.jobs| && s.worker.stage == stage
  }

  predicate CallerWaits(s: State, id: nat) {
    id < |s.jobs| && Business(s.jobs[id]) && s.jobs[id].outcome.Waiting?
  }

  predicate Enabled(s: State, step: Step) {
    match step
    case DoStart => s.worker.Down?
    case DoSubmit(r) =>
      && !r.Shutdown? && AudioOf(r) >= 0.0
      && (r.NewStream? ==> r.session != "" && r.session !in s.used)
      && (r.WholeFile? ==> s.batch.announced > 0)
    case DoQueueTimeout(id) => CallerWaits(s, id)
    case DoHearRejection(id) => CallerWaits(s, id) && s.jobs[id].future.Rejected?
    case DoInferenceTimeout(id) => CallerWaits(s, id) && s.jobs[id].future in {Claimed, Settled}
    case DoAnswer(id) => CallerWaits(s, id) && s.jobs[id].future in {Claimed, Settled} && Gone(s, id)
    case DoAbandon(id) => CallerWaits(s, id)
    case DoForgive(session) => session in s.active
    case DoFileOver(caller) =>
      if caller.None? then s.batch.announced > 0
      else caller.value in s.batch.callers && caller.value < |s.jobs| && !s.jobs[caller.value].outcome.Waiting?
    case DoLoadFails => s.worker.Idle?
    case DoTake(id) => (s.worker.Idle? || s.worker.Draining?) && id in s.queue && id < |s.jobs| && FirstInLine(s, id)
    case DoGiveSlot => InStage(s, Taken)
    case DoReject(late) =>
      InStage(s, Deciding) && (s.worker.draining || !s.accepting || late || s.jobs[s.worker.id].future.Cancelled?)
    case DoWarmupFails(_) => InStage(s, Deciding) && !s.worker.draining
    case DoClaim => InStage(s, Deciding) && !s.worker.draining
    case DoMarkBatch => InStage(s, Running) && s.jobs[s.worker.id].request.WholeFile? && !s.batch.running
    case DoRun(_) => InStage(s, Running) && (s.jobs[s.worker.id].request.WholeFile? ==> s.batch.running)
    case DoLookForPoison => InStage(s, Over)
    case DoCleanPoisoned => InStage(s, Poisonous)
    case DoGiveAudio => InStage(s, GivingAudio)
    case DoGiveSession => InStage(s, GivingSession)
    case DoGiveStream => InStage(s, GivingStream)
    case DoFinish(_) => InStage(s, Closing)
    case DoLeave => s.worker.Leaving?
    case DoClear => s.worker.Draining? && s.queue == {}
    case _ => true
  }

  function Next(cfg: Config, s: State, step: Step): State
    requires Enabled(s, step)
  {
    match step
    case DoStart => s.(accepting := true, loopActive := true, shutdownRequested := false, worker := Idle)
    case DoSubmit(r) => Submit(cfg, s, r)
    case DoStop => RequestStop(cfg, s)
    case DoQueueTimeout(id) => QueueTimeout(s, id)
    case DoHearRejection(id) => HearRejection(s, id)
    case DoInferenceTimeout(id) => InferenceTimeout(s, id)
    case DoAnswer(id) => With(s, id, s.jobs[id].(outcome := Answered))
    case DoAbandon(id) => Abandon(s, id)
    case DoPoison(session) => s.(poisoned := s.poisoned + {session})
    case DoForgive(session) => s.(poisoned := s.poisoned - {session})
    case DoAnnounceFile => AnnounceFile(s)
    case DoFileOver(caller) => FileOver(s, caller)
    case DoLoadFails => s.(accepting := false)
    case DoTake(id) => s.(queue := s.queue - {id}, worker := Working(id, Taken, s.worker.Draining?))
    case DoGiveSlot => GiveSlot(s)
    case DoReject(late) => Reject(s, late && !s.worker.draining)
    case DoWarmupFails(refuses) => Go(s, Over).(accepting := s.accepting && !refuses)
    case DoClaim => Claim(s)
    case DoMarkBatch => MarkBatch(s)
    case DoRun(ok) => Run(s, ok)
    case DoLookForPoison => LookForPoison(s)
    case DoCleanPoisoned => CleanPoisoned(s)
    case DoGiveAudio => GiveAudio(s)
    case DoGiveSession => GiveSession(s)
    case DoGiveStream => GiveStream(s)
    case DoFinish(crash) => Finish(s, crash)
    case DoLeave => s.(accepting := false, loopActive := false, worker := Draining)
    case DoClear => Clear(s)
  }
}
