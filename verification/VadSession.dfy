/** The endpoint detector in front of a session, as app/asr_gateway.py joins them: audio is
    admitted once, and everything the detector later lets go of must find room. */
module VadSession {
  import opened Pcm
  import V = Vad
  import VS = VadStream
  import S = Sessions
  import B = PcmBuffer

  datatype Context = Context(vad: V.State, session: S.Session)

  datatype Step =
    | Ingest(audio: Audio)                // a client frame
    | Continue                            // the endpoint was finalized
    | FinishInput                         // the client finished: flush the detector
    | Reserve(samples: int, final: bool)
    | Acknowledge(sequence: int, generation: int)
    | Rollback(sequence: int)
    | Abort
    | Fail
    | Succeed

  /** Appends what a decision emits and records what it drops. */
  function Deliver(s: S.Session, d: V.Decision): (S.Session, Option<B.Error>) {
    match if d.audio == [] then Ok(s) else S.AppendPcm(s, d.audio, false)
    case Err(e) => (s, Some(e))
    case Ok(appended) =>
      if d.discarded == 0 then
        (appended, None)
      else
        match S.RecordDiscarded(appended, d.discarded)
        case Err(e) => (appended, Some(e))
        case Ok(recorded) => (recorded, None)
  }

  function Drive(c: V.Config, x: Context, command: VS.Command): (Context, Option<B.Error>) {
    var (vad, d) := VS.Apply(c, x.vad, command);
    var (session, error) := Deliver(x.session, d);
    (Context(vad, session), error)
  }

  /** No audio follows a finish, and a session finishes and succeeds once. */
  predicate Enabled(x: Context, step: Step) {
    match step
    case Ingest(_) => !x.session.finishRequested
    case FinishInput => x.session.terminal == S.Open
    case Succeed => x.session.Live() && x.session.finishRequested
    case _ => true
  }

  function Replaced(x: Context, r: Result<S.Session, B.Error>): (Context, Option<B.Error>) {
    match r
    case Ok(s) => (x.(session := s), None)
    case Err(e) => (x, Some(e))
  }

  function Next(c: V.Config, x: Context, step: Step): (Context, Option<B.Error>)
    requires x.session.Inv()
  {
    match step
    case Ingest(audio) =>
      (match S.AcceptVadInput(x.session, audio)
       case Err(e) => (x, Some(e))
       case Ok(s) => Drive(c, x.(session := s), VS.Add(audio)))
    case Continue => Drive(c, x, VS.Finalize)
    case FinishInput =>
      var (y, error) := Drive(c, x, VS.Finish);
      if error.Some? then (y, error) else (y.(session := S.RequestFinish(y.session)), None)
    case Reserve(samples, final) => Replaced(x, S.Reserve(x.session, samples, final))
    case Acknowledge(sequence, generation) => Replaced(x, S.Acknowledge(x.session, sequence, generation))
    case Rollback(sequence) => (x.(session := S.Rollback(x.session, sequence).0), None)
    case Abort => (Context(V.INITIAL, S.Abort(x.session)), None)
    case Fail => (x.(session := S.Fail(x.session)), None)
    case Succeed => Replaced(x, S.Succeed(x.session))
  }

  /** While the session is live the samples it counts as pending are exactly those inside
      the detector, and together with its buffer they fit. */
  predicate Inv(c: V.Config, x: Context) {
    && VS.Inv(c, x.vad)
    && x.session.Inv()
    && (x.session.terminal == S.Finishing ==> x.session.finishRequested)
    && (x.session.Live() ==>
          && x.session.Unsettled() == |VS.Held(x.vad)|
          && |x.session.buffer.data| + |VS.Held(x.vad)| <= x.session.buffer.maxSamples
          && (x.session.finishRequested ==> VS.Held(x.vad) == []))
  }

  /** What the detector lets go of always finds room: samples it held are admitted samples. */
  lemma DeliverFits(s: S.Session, d: V.Decision, held: nat)
    requires s.Inv() && s.Live()
    requires s.Unsettled() == |d.audio| + d.discarded + held
    requires |s.buffer.data| + s.Unsettled() <= s.buffer.maxSamples
    ensures var (t, error) := Deliver(s, d);
            && error.None? && t.Inv()
            && t.Unsettled() == held
            && |t.buffer.data| + held <= t.buffer.maxSamples
            && t.buffer.maxSamples == s.buffer.maxSamples
            && t.terminal == s.terminal && t.finishRequested == s.finishRequested
  {
    if d.audio != [] {
      S.AppendKeeps(s, d.audio, false);
    }
  }

  /** The detector's part of a step of a live session. */
  lemma DriveKeeps(c: V.Config, x: Context, command: VS.Command)
    requires VS.Inv(c, x.vad) && x.session.Inv() && x.session.Live()
    requires x.session.Unsettled() == |VS.Held(x.vad)| + |VS.Fed(command)|
    requires |x.session.buffer.data| + x.session.Unsettled() <= x.session.buffer.maxSamples
    ensures var (y, error) := Drive(c, x, command);
            && error.None?
            && VS.Inv(c, y.vad) && y.session.Inv()
            && y.session.Unsettled() == |VS.Held(y.vad)|
            && |y.session.buffer.data| + |VS.Held(y.vad)| <= y.session.buffer.maxSamples
            && y.session.terminal == x.session.terminal && y.session.finishRequested == x.session.finishRequested
            && (command.Finish? ==> VS.Held(y.vad) == [])
            && |VS.Held(y.vad)| <= |VS.Held(x.vad)| + |VS.Fed(command)|
  {
    VS.SamplesConserved(c, x.vad, command);
    var (vad, d) := VS.Apply(c, x.vad, command);
    DeliverFits(x.session, d, |VS.Held(vad)|);
  }

  lemma DeadDeliver(s: S.Session, d: V.Decision)
    requires s.Inv() && !s.Live()
    ensures var (t, error) := Deliver(s, d);
            t.Inv() && !t.Live() && t.terminal == s.terminal && t.finishRequested == s.finishRequested
  {
  }

  lemma IngestKeeps(c: V.Config, x: Context, audio: Audio)
    requires Inv(c, x) && Enabled(x, Ingest(audio))
    ensures var (y, error) := Next(c, x, Ingest(audio));
            Inv(c, y) && (x.session.Live() && error.Some? ==> y == x && error.value.PcmLimit?)
  {
    if S.AcceptVadInput(x.session, audio).Ok? {
      var accepted := x.(session := S.AcceptVadInput(x.session, audio).value);
      if x.session.Live() {
        DriveKeeps(c, accepted, VS.Add(audio));
      } else {
        VS.SamplesConserved(c, x.vad, VS.Add(audio));
        DeadDeliver(accepted.session, VS.Apply(c, x.vad, VS.Add(audio)).1);
      }
    }
  }

  lemma ContinueKeeps(c: V.Config, x: Context)
    requires Inv(c, x)
    ensures Inv(c, Next(c, x, Continue).0)
    ensures x.session.Live() ==> Next(c, x, Continue).1.None?
  {
    if x.session.Live() {
      DriveKeeps(c, x, VS.Finalize);
    } else {
      VS.SamplesConserved(c, x.vad, VS.Finalize);
      DeadDeliver(x.session, VS.Apply(c, x.vad, VS.Finalize).1);
    }
  }

  lemma FinishKeeps(c: V.Config, x: Context)
    requires Inv(c, x) && Enabled(x, FinishInput)
    ensures Inv(c, Next(c, x, FinishInput).0) && Next(c, x, FinishInput).1.None?
  {
    DriveKeeps(c, x, VS.Finish);
  }

  /** The detector is not told of what happens between the session and its jobs. */
  lemma JobStepKeeps(c: V.Config, x: Context, step: Step)
    requires Inv(c, x) && (step.Reserve? || step.Acknowledge? || step.Rollback?)
    ensures Inv(c, Next(c, x, step).0)
  {
  }

  lemma EndStepKeeps(c: V.Config, x: Context, step: Step)
    requires Inv(c, x) && (step.Abort? || step.Fail? || step.Succeed?)
    ensures Inv(c, Next(c, x, step).0)
  {
  }

  /** Every step keeps the invariant, and in a live session the only audio ever refused for
      want of room is a client frame at the door, before anything has changed. */
  lemma NextKeeps(c: V.Config, x: Context, step: Step)
    requires Inv(c, x) && Enabled(x, step)
    ensures var (y, error) := Next(c, x, step);
            && Inv(c, y)
            && (x.session.Live() && (step.Continue? || step.FinishInput?) ==> error.None?)
            && (x.session.Live() && step.Ingest? && error.Some? ==> y == x && error.value.PcmLimit?)
  {
    if step.Ingest? {
      IngestKeeps(c, x, step.audio);
    } else if step.Continue? {
      ContinueKeeps(c, x);
    } else if step.FinishInput? {
      FinishKeeps(c, x);
    } else if step.Reserve? || step.Acknowledge? || step.Rollback? {
      JobStepKeeps(c, x, step);
    } else {
      EndStepKeeps(c, x, step);
    }
  }

  /** A context after a sequence of steps; a step that is not enabled does not happen. */
  function RunOf(c: V.Config, maxSamples: nat, steps: seq<Step>): (x: Context)
    ensures Inv(c, x)
  {
    if steps == [] then
      Context(V.INITIAL, S.Fresh(maxSamples))
    else
      var x := RunOf(c, maxSamples, steps[..|steps| - 1]);
      var step := steps[|steps| - 1];
      if Enabled(x, step) then NextKeeps(c, x, step); Next(c, x, step).0 else x
  }

  /** Over any run, when a session succeeds every accepted sample was acknowledged or
      reported as discarded. */
  lemma SuccessAccountsForEverySample(c: V.Config, maxSamples: nat, steps: seq<Step>)
    requires Enabled(RunOf(c, maxSamples, steps), Succeed)
    requires Next(c, RunOf(c, maxSamples, steps), Succeed).1.None?
    ensures var s := RunOf(c, maxSamples, steps + [Succeed]).session;
            s.terminal == S.Succeeded && s.accepted == s.buffer.acknowledged + s.Discarded()
  {
    var x := RunOf(c, maxSamples, steps);
    assert (steps + [Succeed])[..|steps|] == steps;
    S.EverySampleHasOnePlace(x.session);
  }

  /** Over any run, when a live session is aborted likewise. */
  lemma AbortAccountsForEverySample(c: V.Config, maxSamples: nat, steps: seq<Step>)
    requires RunOf(c, maxSamples, steps).session.Live()
    ensures var s := RunOf(c, maxSamples, steps + [Abort]).session;
            s.terminal == S.Aborted && s.accepted == s.buffer.acknowledged + s.Discarded()
  {
    var x := RunOf(c, maxSamples, steps);
    assert (steps + [Abort])[..|steps|] == steps;
    S.AbortSettles(x.session);
  }

  /** Over any run, a client frame is admitted if and only if it fits beside the samples in the
      session's buffer and those inside its detector. */
  lemma AdmittedExactly(c: V.Config, maxSamples: nat, steps: seq<Step>, audio: Audio)
    requires RunOf(c, maxSamples, steps).session.Live()
    ensures var x := RunOf(c, maxSamples, steps);
            && x.session.buffer.maxSamples == maxSamples
            && (S.AcceptVadInput(x.session, audio).Ok? <==>
                  |x.session.buffer.data| + |VS.Held(x.vad)| + |audio| <= maxSamples)
            && (S.AcceptVadInput(x.session, audio).Ok? ==>
                  S.AcceptVadInput(x.session, audio).value.Unsettled() == |VS.Held(x.vad)| + |audio|)
  {
    LimitStays(c, maxSamples, steps);
  }

  lemma DeliverKeepsLimit(s: S.Session, d: V.Decision)
    ensures Deliver(s, d).0.buffer.maxSamples == s.buffer.maxSamples
  {
  }

  lemma StepKeepsLimit(c: V.Config, x: Context, step: Step)
    requires x.session.Inv()
    ensures Next(c, x, step).0.session.buffer.maxSamples == x.session.buffer.maxSamples
  {
    if step.Ingest? {
      if S.AcceptVadInput(x.session, step.audio).Ok? {
        DeliverKeepsLimit(S.AcceptVadInput(x.session, step.audio).value, VS.Apply(c, x.vad, VS.Add(step.audio)).1);
      }
    } else if step.Continue? {
      DeliverKeepsLimit(x.session, VS.Apply(c, x.vad, VS.Finalize).1);
    } else if step.FinishInput? {
      DeliverKeepsLimit(x.session, VS.Apply(c, x.vad, VS.Finish).1);
    }
  }

  lemma {:induction false} LimitStays(c: V.Config, maxSamples: nat, steps: seq<Step>)
    ensures RunOf(c, maxSamples, steps).session.buffer.maxSamples == maxSamples
    decreases |steps|
  {
    if steps != [] {
      LimitStays(c, maxSamples, steps[..|steps| - 1]);
      StepKeepsLimit(c, RunOf(c, maxSamples, steps[..|steps| - 1]), steps[|steps| - 1]);
    }
  }

  /** Over any run, admission is the only refusal: audio the detector emits while the
      session is live, at ingest, continuation or finish, is never refused. */
  lemma AdmissionSuffices(c: V.Config, maxSamples: nat, steps: seq<Step>, step: Step)
    requires RunOf(c, maxSamples, steps).session.Live()
    requires Enabled(RunOf(c, maxSamples, steps), step)
    requires step.Continue? || step.FinishInput?
             || (step.Ingest? && S.AcceptVadInput(RunOf(c, maxSamples, steps).session, step.audio).Ok?)
    ensures Next(c, RunOf(c, maxSamples, steps), step).1.None?
  {
    var x := RunOf(c, maxSamples, steps);
    NextKeeps(c, x, step);
    if step.Ingest? {
      DriveKeeps(c, x.(session := S.AcceptVadInput(x.session, step.audio).value), VS.Add(step.audio));
    }
  }
}
