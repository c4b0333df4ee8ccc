/** Detector, session and scheduler together, as app/asr_gateway.py runs them: client audio is
    admitted and goes through the session's endpoint detector, what the detector lets go of
    reaches the session's buffer, jobs take it from there, and their cleanup acknowledges it. */
module Pipeline {
  import opened Pcm
  import opened Jobs
  import V = Vad
  import VS = VadStream
  import VX = VadSession
  import S = Sessions
  import B = PcmBuffer
  import C = Scheduler
  import L = Linkage

  /** A session's detector, with all it was fed, passed on and dropped. */
  datatype Line = Line(vad: V.State, fed: Audio, emitted: Audio, dropped: nat)

  const FRESH := Line(V.INITIAL, [], [], 0)

  datatype Pipe = Pipe(sys: L.System, lines: map<string, Line>)

  datatype Action =
    | Drive(id: string, command: VS.Command)   // a client frame, a finalized endpoint, the finish
    | Other(action: L.Action)                  // everything that passes the detector by

  // ----- what the detector lets go of ----------------------------------------------------

  /** One change of a session; one that is refused changes nothing. */
  function Apply(cfg: C.Config, sys: L.System, id: string, change: L.Change): L.System {
    if L.Enabled(cfg, sys, L.Quietly(id, change)) then L.Next(cfg, sys, L.Quietly(id, change)) else sys
  }

  /** Append what is passed on, record what is dropped. */
  function Passed(cfg: C.Config, sys: L.System, id: string, d: V.Decision): L.System {
    var appended := if d.audio != [] then Apply(cfg, sys, id, L.Append(d.audio, false)) else sys;
    if d.discarded != 0 then Apply(cfg, appended, id, L.DiscardVad(d.discarded)) else appended
  }

  /** Admit the audio fed, pass on the decision, and request the finish after the flush. */
  function Driven(cfg: C.Config, sys: L.System, id: string, command: VS.Command, d: V.Decision): L.System {
    var admitted := if command.Add? then Apply(cfg, sys, id, L.AcceptVad(command.audio)) else sys;
    var passed := Passed(cfg, admitted, id, d);
    if command.Finish? then Apply(cfg, passed, id, L.RequestFinish) else passed
  }

  function Advanced(line: Line, command: VS.Command, vad: V.State, d: V.Decision): Line {
    Line(vad, line.fed + VS.Fed(command), line.emitted + d.audio, line.dropped + d.discarded)
  }

  /** An abort resets the detector; what it held counts as dropped. */
  function Reset(line: Line): Line {
    line.(vad := V.INITIAL, dropped := line.dropped + |VS.Held(line.vad)|)
  }

  predicate Enabled(cfg: C.Config, p: Pipe, action: Action) {
    match action
    case Drive(id, command) =>
      && id in p.lines && L.Tracked(p.sys, id) && p.sys.sessions[id].Live()
      && (command.Add? ==>
            !p.sys.sessions[id].finishRequested && S.AcceptVadInput(p.sys.sessions[id], command.audio).Ok?)
      && (command.Finish? ==> p.sys.sessions[id].terminal == S.Open)
    case Other(a) =>
      && L.Enabled(cfg, p.sys, a)
      && (a.Quietly? ==> a.change.Succeed? && p.sys.sessions[a.id].finishRequested)
  }

  function Next(c: V.Config, cfg: C.Config, p: Pipe, action: Action): Pipe
    requires Enabled(cfg, p, action)
  {
    match action
    case Drive(id, command) =>
      var (vad, d) := VS.Apply(c, p.lines[id].vad, command);
      Pipe(Driven(cfg, p.sys, id, command, d), p.lines[id := Advanced(p.lines[id], command, vad, d)])
    case Other(a) =>
      Pipe(L.Next(cfg, p.sys, a),
           if a.Open? then p.lines[a.id := FRESH]
           else if a.Abort? && a.id in p.lines then p.lines[a.id := Reset(p.lines[a.id])]
           else p.lines)
  }

  // ----- one session ---------------------------------------------------------------------

  /** The session was given exactly what its detector passed on, and counts as pending exactly
      what the detector holds; both fit, and a finished detector is empty. */
  ghost predicate Fits(c: V.Config, line: Line, s: S.Session, stream: Audio) {
    && VS.Inv(c, line.vad) && s.Inv()
    && stream == line.emitted
    && VS.Tiles(line.fed, line.emitted, line.dropped, VS.Held(line.vad))
    && s.accepted == |line.fed| && s.externalDiscarded == line.dropped
    && s.Unsettled() == |VS.Held(line.vad)|
    && (s.Live() ==> |s.buffer.data| + |VS.Held(line.vad)| <= s.buffer.maxSamples)
    && (s.finishRequested || !s.Live() ==> VS.Held(line.vad) == [])
    && (s.terminal == S.Finishing ==> s.finishRequested)
    && (s.terminal == S.Succeeded ==> s.buffer.data == [])
  }

  /** What jobs and their hooks may do to a session, as its detector sees it: nothing but make
      room. */
  predicate Beside(s: S.Session, t: S.Session) {
    && t.Inv() && t.terminal == s.terminal && t.finishRequested == s.finishRequested
    && t.accepted == s.accepted && t.externalDiscarded == s.externalDiscarded
    && t.buffer.accepted == s.buffer.accepted && t.buffer.maxSamples == s.buffer.maxSamples
    && |t.buffer.data| <= |s.buffer.data|
  }

  lemma BesideFits(c: V.Config, line: Line, s: S.Session, t: S.Session, stream: Audio)
    requires Fits(c, line, s, stream) && Beside(s, t)
    ensures Fits(c, line, t, stream)
  {
  }

  lemma FreshFits(c: V.Config, maxSamples: nat)
    ensures Fits(c, FRESH, S.Fresh(maxSamples), [])
  {
    VS.TilesRefl([]);
  }

  lemma SucceedFits(c: V.Config, line: Line, s: S.Session, stream: Audio)
    requires Fits(c, line, s, stream) && s.Live() && s.finishRequested && S.Succeed(s).Ok?
    ensures Fits(c, line, S.Succeed(s).value, stream)
  {
  }

  /** What the detector held is one more dropped piece. */
  lemma ResetTiles(line: Line)
    requires VS.Tiles(line.fed, line.emitted, line.dropped, VS.Held(line.vad))
    ensures VS.Tiles(line.fed, line.emitted, Reset(line).dropped, [])
  {
    var held := VS.Held(line.vad);
    VS.TilesSplit(held, 0, |held|);
    assert held[..0] == [] && held[|held|..] == [];
    assert held + [] == held && line.fed + [] == line.fed && line.emitted + [] == line.emitted;
    VS.TilesThen(line.fed, line.emitted, line.dropped, held, [], [], |held|, []);
  }

  lemma AbortFits(c: V.Config, line: Line, s: S.Session, stream: Audio, failed: bool)
    requires Fits(c, line, s, stream) && s.Live()
    ensures Fits(c, Reset(line), if failed then S.Fail(s) else S.Abort(s), stream)
  {
    ResetTiles(line);
    S.AbortSettles(s);
    assert VS.Held(V.INITIAL) == [];
  }

  // ----- driving the detector ------------------------------------------------------------

  /** From `sys` to `t` the session `id` becomes `s` and its buffer is given `audio`; nothing
      else about sessions changes. */
  ghost predicate Delivers(cfg: C.Config, sys: L.System, t: L.System, id: string, s: S.Session, audio: Audio) {
    && L.Inv(cfg, t) && L.Tracked(t, id) && L.Tracked(sys, id)
    && t.sessions == sys.sessions[id := s]
    && t.histories == sys.histories[id := t.histories[id]]
    && t.histories[id].stream == sys.histories[id].stream + audio
  }

  lemma DeliversNothing(cfg: C.Config, sys: L.System, id: string)
    requires L.Inv(cfg, sys) && L.Tracked(sys, id)
    ensures Delivers(cfg, sys, sys, id, sys.sessions[id], [])
  {
  }

  lemma DeliversThen(cfg: C.Config, sys: L.System, t: L.System, u: L.System, id: string,
                     s: S.Session, audio: Audio, s': S.Session, more: Audio)
    requires Delivers(cfg, sys, t, id, s, audio) && Delivers(cfg, t, u, id, s', more)
    ensures Delivers(cfg, sys, u, id, s', audio + more)
  {
    UpdatedTwice(sys.sessions, id, s, s');
    UpdatedTwice(sys.histories, id, t.histories[id], u.histories[id]);
    var stream := sys.histories[id].stream;
    assert stream + (audio + more) == stream + audio + more;
  }

  lemma UpdatedTwice<T>(m: map<string, T>, id: string, first: T, second: T)
    ensures m[id := first][id := second] == m[id := second]
  {
  }

  /** A change that is possible happens to this session only, and gives its buffer what it
      appends. */
  lemma ApplyDoes(cfg: C.Config, sys: L.System, id: string, change: L.Change) returns (t: L.System)
    requires L.Inv(cfg, sys) && L.Tracked(sys, id) && L.Changed(sys.sessions[id], change).Ok?
    ensures t == Apply(cfg, sys, id, change)
    ensures Delivers(cfg, sys, t, id, L.Changed(sys.sessions[id], change).value, if change.Append? then change.audio else [])
  {
    t := L.Next(cfg, sys, L.Quietly(id, change));
    L.NextKeeps(cfg, sys, L.Quietly(id, change));
    assert L.SessionLinked(t, id);
    assert change.Append? ==> sys.sessions[id].Live();
  }

  lemma Appends(cfg: C.Config, sys: L.System, id: string, audio: Audio) returns (t: L.System)
    requires L.Inv(cfg, sys) && L.Tracked(sys, id) && (audio == [] || S.AppendPcm(sys.sessions[id], audio, false).Ok?)
    ensures t == if audio != [] then Apply(cfg, sys, id, L.Append(audio, false)) else sys
    ensures Delivers(cfg, sys, t, id, if audio == [] then sys.sessions[id] else S.AppendPcm(sys.sessions[id], audio, false).value, audio)
  {
    if audio == [] {
      t := sys;
      DeliversNothing(cfg, sys, id);
    } else {
      t := ApplyDoes(cfg, sys, id, L.Append(audio, false));
    }
  }

  /** Appending and recording through the system is delivering to the session. */
  lemma DeliversDecision(cfg: C.Config, sys: L.System, id: string, d: V.Decision) returns (t: L.System)
    requires L.Inv(cfg, sys) && L.Tracked(sys, id) && VX.Deliver(sys.sessions[id], d).1.None?
    ensures t == Passed(cfg, sys, id, d)
    ensures Delivers(cfg, sys, t, id, VX.Deliver(sys.sessions[id], d).0, d.audio)
  {
    var appended := Appends(cfg, sys, id, d.audio);
    t := appended;
    if d.discarded != 0 {
      t := ApplyDoes(cfg, appended, id, L.DiscardVad(d.discarded));
      DeliversThen(cfg, sys, appended, t, id, appended.sessions[id], d.audio, t.sessions[id], []);
      assert d.audio + [] == d.audio;
    }
  }

  lemma DeliverCounts(s: S.Session, d: V.Decision)
    requires VX.Deliver(s, d).1.None?
    ensures var t := VX.Deliver(s, d).0;
            t.accepted == s.accepted && t.externalDiscarded == s.externalDiscarded + d.discarded
  {
  }

  /** The session once the audio fed has been admitted. */
  function Admitted(s: S.Session, command: VS.Command): S.Session {
    s.(accepted := s.accepted + |VS.Fed(command)|)
  }

  function Flushed(s: S.Session, command: VS.Command): S.Session {
    if command.Finish? then S.RequestFinish(s) else s
  }

  lemma Admits(cfg: C.Config, sys: L.System, id: string, command: VS.Command) returns (t: L.System)
    requires L.Inv(cfg, sys) && L.Tracked(sys, id)
    requires command.Add? ==> S.AcceptVadInput(sys.sessions[id], command.audio).Ok?
    ensures t == if command.Add? then Apply(cfg, sys, id, L.AcceptVad(command.audio)) else sys
    ensures Delivers(cfg, sys, t, id, Admitted(sys.sessions[id], command), [])
  {
    if command.Add? {
      t := ApplyDoes(cfg, sys, id, L.AcceptVad(command.audio));
    } else {
      t := sys;
      DeliversNothing(cfg, sys, id);
    }
  }

  lemma Finishes(cfg: C.Config, sys: L.System, id: string, command: VS.Command) returns (t: L.System)
    requires L.Inv(cfg, sys) && L.Tracked(sys, id)
    requires command.Finish? ==> sys.sessions[id].terminal == S.Open
    ensures t == if command.Finish? then Apply(cfg, sys, id, L.RequestFinish) else sys
    ensures Delivers(cfg, sys, t, id, Flushed(sys.sessions[id], command), [])
  {
    if command.Finish? {
      t := ApplyDoes(cfg, sys, id, L.RequestFinish);
    } else {
      t := sys;
      DeliversNothing(cfg, sys, id);
    }
  }

  lemma DrivesSession(cfg: C.Config, sys: L.System, id: string, command: VS.Command, d: V.Decision) returns (t: L.System)
    requires L.Inv(cfg, sys) && L.Tracked(sys, id)
    requires command.Add? ==> S.AcceptVadInput(sys.sessions[id], command.audio).Ok?
    requires VX.Deliver(Admitted(sys.sessions[id], command), d).1.None?
    requires command.Finish? ==> VX.Deliver(Admitted(sys.sessions[id], command), d).0.terminal == S.Open
    ensures t == Driven(cfg, sys, id, command, d)
    ensures Delivers(cfg, sys, t, id, Flushed(VX.Deliver(Admitted(sys.sessions[id], command), d).0, command), d.audio)
  {
    var admitted := Admits(cfg, sys, id, command);
    var passed := DeliversDecision(cfg, admitted, id, d);
    DeliversThen(cfg, sys, admitted, passed, id, admitted.sessions[id], [], passed.sessions[id], d.audio);
    assert [] + d.audio == d.audio;
    t := Finishes(cfg, passed, id, command);
    DeliversThen(cfg, sys, passed, t, id, passed.sessions[id], d.audio, t.sessions[id], []);
    assert d.audio + [] == d.audio;
  }

  /** Whatever the detector lets go of finds room, and detector and session keep in step. */
  lemma DriveFits(c: V.Config, line: Line, s: S.Session, stream: Audio, command: VS.Command)
    requires Fits(c, line, s, stream) && s.Live()
    requires command.Add? ==> !s.finishRequested && S.AcceptVadInput(s, command.audio).Ok?
    requires command.Finish? ==> s.terminal == S.Open
    ensures var (vad, d) := VS.Apply(c, line.vad, command);
            var (delivered, error) := VX.Deliver(Admitted(s, command), d);
            && error.None? && delivered.terminal == s.terminal
            && Fits(c, Advanced(line, command, vad, d), Flushed(delivered, command), stream + d.audio)
  {
    var (vad, d) := VS.Apply(c, line.vad, command);
    VS.ApplyTiles(c, line.vad, command);
    VS.SamplesConserved(c, line.vad, command);
    VS.TilesThen(line.fed, line.emitted, line.dropped, VS.Held(line.vad), VS.Fed(command), d.audio, d.discarded, VS.Held(vad));
    VX.DeliverFits(Admitted(s, command), d, |VS.Held(vad)|);
    DeliverCounts(Admitted(s, command), d);
  }

  // ----- the invariant -------------------------------------------------------------------

  ghost predicate LineFits(c: V.Config, p: Pipe, id: string) {
    id in p.sys.sessions ==>
      && id in p.lines && id in p.sys.histories
      && Fits(c, p.lines[id], p.sys.sessions[id], p.sys.histories[id].stream)
  }

  ghost predicate Inv(c: V.Config, cfg: C.Config, p: Pipe) {
    L.Inv(cfg, p.sys) && forall id :: LineFits(c, p, id)
  }

  /** Only the session `id` and its line become different. */
  lemma OneLineKeeps(c: V.Config, cfg: C.Config, p: Pipe, t: L.System, id: string, line: Line, s: S.Session)
    requires Inv(c, cfg, p) && L.Inv(cfg, t)
    requires t.sessions == p.sys.sessions[id := s]
    requires id in t.histories && t.histories == p.sys.histories[id := t.histories[id]]
    requires Fits(c, line, s, t.histories[id].stream)
    ensures Inv(c, cfg, Pipe(t, p.lines[id := line]))
  {
    var q := Pipe(t, p.lines[id := line]);
    forall other ensures LineFits(c, q, other) {
      assert LineFits(c, p, other);
    }
  }

  lemma DriveKeeps(c: V.Config, cfg: C.Config, p: Pipe, id: string, command: VS.Command)
    requires Inv(c, cfg, p) && Enabled(cfg, p, Drive(id, command))
    ensures Inv(c, cfg, Next(c, cfg, p, Drive(id, command)))
  {
    assert LineFits(c, p, id);
    var line := p.lines[id];
    var (vad, d) := VS.Apply(c, line.vad, command);
    DriveFits(c, line, p.sys.sessions[id], p.sys.histories[id].stream, command);
    var t := DrivesSession(cfg, p.sys, id, command, d);
    OneLineKeeps(c, cfg, p, t, id, Advanced(line, command, vad, d), t.sessions[id]);
  }

  // ----- beside the detector -------------------------------------------------------------

  lemma ReserveBeside(s: S.Session, samples: int, final: bool)
    requires s.Inv() && S.Reserve(s, samples, final).Ok?
    ensures Beside(s, S.Reserve(s, samples, final).value)
    ensures Beside(s, s.(nextSequence := s.nextSequence + 1))
  {
  }

  lemma AcknowledgeBeside(s: S.Session, sequence: int)
    requires s.Inv() && S.Acknowledge(s, sequence, s.generation).Ok?
    ensures Beside(s, S.Acknowledge(s, sequence, s.generation).value)
  {
  }

  lemma RollbackBeside(s: S.Session, sequence: int)
    requires s.Inv()
    ensures Beside(s, S.Rollback(s, sequence).0)
  {
  }

  /** Every session is left beside what it was, its buffer given nothing. */
  ghost predicate LeavesLines(sys: L.System, t: L.System) {
    && t.sessions.Keys == sys.sessions.Keys
    && forall id | id in sys.sessions && id in sys.histories && sys.sessions[id].Inv() ::
         && Beside(sys.sessions[id], t.sessions[id])
         && id in t.histories && t.histories[id].stream == sys.histories[id].stream
  }

  lemma ScheduleLeavesLines(cfg: C.Config, sys: L.System, a: L.Action)
    requires L.Enabled(cfg, sys, a) && a.Schedule?
    ensures LeavesLines(sys, L.Next(cfg, sys, a))
  {
    ReserveBeside(sys.sessions[a.id], a.samples, a.final);
  }

  lemma HookLeavesLines(sys: L.System, job: Job)
    requires L.Current(sys, job) ==> L.Tracked(sys, job.session)
    ensures LeavesLines(sys, L.CleanedUp(sys, job)) && LeavesLines(sys, L.Rejected(sys, job))
  {
    if L.Current(sys, job) {
      RollbackBeside(sys.sessions[job.session], job.sequence);
      if L.Owns(sys, job) {
        AcknowledgeBeside(sys.sessions[job.session], job.sequence);
      }
    }
  }

  lemma TurnLeavesLines(cfg: C.Config, sys: L.System, step: C.Step)
    requires L.Enabled(cfg, sys, L.Turn(step))
    ensures LeavesLines(sys, L.Next(cfg, sys, L.Turn(step)))
  {
    var turned := sys.(sched := C.Next(cfg, sys.sched, step));
    if L.TurnJob(sys.sched, step).Some? {
      HookLeavesLines(turned, L.TurnJob(sys.sched, step).value);
    }
  }

  lemma BesideKeeps(c: V.Config, cfg: C.Config, p: Pipe, q: Pipe)
    requires Inv(c, cfg, p) && L.Inv(cfg, q.sys) && LeavesLines(p.sys, q.sys) && q.lines == p.lines
    ensures Inv(c, cfg, q)
  {
    forall id ensures LineFits(c, q, id) {
      assert LineFits(c, p, id);
      if id in p.sys.sessions {
        BesideFits(c, p.lines[id], p.sys.sessions[id], q.sys.sessions[id], p.sys.histories[id].stream);
      }
    }
  }

  // ----- opening and ending a session ----------------------------------------------------

  lemma OpenKeeps(c: V.Config, cfg: C.Config, p: Pipe, id: string, maxSamples: nat)
    requires Inv(c, cfg, p) && Enabled(cfg, p, Other(L.Open(id, maxSamples)))
    requires L.Inv(cfg, L.Opened(p.sys, id, maxSamples))
    ensures Inv(c, cfg, Next(c, cfg, p, Other(L.Open(id, maxSamples))))
  {
    FreshFits(c, maxSamples);
    OneLineKeeps(c, cfg, p, L.Opened(p.sys, id, maxSamples), id, FRESH, S.Fresh(maxSamples));
  }

  lemma Succeeds(cfg: C.Config, sys: L.System, id: string) returns (t: L.System)
    requires L.Inv(cfg, sys) && L.Enabled(cfg, sys, L.Quietly(id, L.Succeed))
    ensures t == L.Next(cfg, sys, L.Quietly(id, L.Succeed)) && L.Inv(cfg, t)
    ensures t.sessions == sys.sessions[id := S.Succeed(sys.sessions[id]).value] && t.histories == sys.histories
  {
    t := L.Next(cfg, sys, L.Quietly(id, L.Succeed));
    L.NextKeeps(cfg, sys, L.Quietly(id, L.Succeed));
    assert t.histories[id] == sys.histories[id];
  }

  lemma SucceededKeeps(c: V.Config, cfg: C.Config, p: Pipe, t: L.System, id: string)
    requires Inv(c, cfg, p) && L.Inv(cfg, t) && id in p.sys.sessions
    requires p.sys.sessions[id].Live() && p.sys.sessions[id].finishRequested && S.Succeed(p.sys.sessions[id]).Ok?
    requires t.sessions == p.sys.sessions[id := S.Succeed(p.sys.sessions[id]).value] && t.histories == p.sys.histories
    ensures Inv(c, cfg, Pipe(t, p.lines))
  {
    forall other ensures LineFits(c, Pipe(t, p.lines), other) {
      assert LineFits(c, p, other);
      if other == id {
        SucceedFits(c, p.lines[id], p.sys.sessions[id], p.sys.histories[id].stream);
      }
    }
  }

  lemma SucceedKeeps(c: V.Config, cfg: C.Config, p: Pipe, id: string)
    requires Inv(c, cfg, p) && Enabled(cfg, p, Other(L.Quietly(id, L.Succeed)))
    ensures Inv(c, cfg, Next(c, cfg, p, Other(L.Quietly(id, L.Succeed))))
  {
    var t := Succeeds(cfg, p.sys, id);
    SucceededKeeps(c, cfg, p, t, id);
  }

  lemma AbortDoes(sys: L.System, id: string, failed: bool)
    requires L.Tracked(sys, id) && sys.sessions[id].Live()
    ensures var t, s := L.Aborted(sys, id, failed), sys.sessions[id];
            && t.sessions == sys.sessions[id := if failed then S.Fail(s) else S.Abort(s)]
            && id in t.histories && t.histories == sys.histories[id := t.histories[id]]
            && t.histories[id].stream == sys.histories[id].stream
  {
  }

  lemma AbortKeeps(c: V.Config, cfg: C.Config, p: Pipe, id: string, failed: bool)
    requires Inv(c, cfg, p) && Enabled(cfg, p, Other(L.Abort(id, failed)))
    requires L.Inv(cfg, L.Aborted(p.sys, id, failed))
    ensures Inv(c, cfg, Next(c, cfg, p, Other(L.Abort(id, failed))))
  {
    assert LineFits(c, p, id);
    var line, s := p.lines[id], p.sys.sessions[id];
    AbortFits(c, line, s, p.sys.histories[id].stream, failed);
    AbortDoes(p.sys, id, failed);
    OneLineKeeps(c, cfg, p, L.Aborted(p.sys, id, failed), id, Reset(line), if failed then S.Fail(s) else S.Abort(s));
  }

  lemma ReleaseKeeps(c: V.Config, cfg: C.Config, p: Pipe, id: string)
    requires Inv(c, cfg, p) && Enabled(cfg, p, Other(L.Release(id)))
    requires L.Inv(cfg, Next(c, cfg, p, Other(L.Release(id))).sys)
    ensures Inv(c, cfg, Next(c, cfg, p, Other(L.Release(id))))
  {
    ReleaseForgets(cfg, p.sys, id);
    FewerLinesKeep(c, cfg, p, Pipe(L.Next(cfg, p.sys, L.Release(id)), p.lines));
  }

  lemma ReleaseForgets(cfg: C.Config, sys: L.System, id: string)
    requires L.Enabled(cfg, sys, L.Release(id))
    ensures var t := L.Next(cfg, sys, L.Release(id));
            && t.histories == sys.histories
            && forall other | other in t.sessions :: other in sys.sessions && t.sessions[other] == sys.sessions[other]
  {
  }

  lemma FewerLinesKeep(c: V.Config, cfg: C.Config, p: Pipe, q: Pipe)
    requires Inv(c, cfg, p) && L.Inv(cfg, q.sys)
    requires q.lines == p.lines && q.sys.histories == p.sys.histories
    requires forall id | id in q.sys.sessions :: id in p.sys.sessions && q.sys.sessions[id] == p.sys.sessions[id]
    ensures Inv(c, cfg, q)
  {
    forall other ensures LineFits(c, q, other) {
      assert LineFits(c, p, other);
    }
  }

  /** Every action of detector, session or scheduler keeps the three in step. */
  lemma NextKeeps(c: V.Config, cfg: C.Config, p: Pipe, action: Action)
    requires Inv(c, cfg, p) && Enabled(cfg, p, action)
    ensures Inv(c, cfg, Next(c, cfg, p, action))
  {
    if action.Drive? {
      DriveKeeps(c, cfg, p, action.id, action.command);
    } else {
      OtherKeeps(c, cfg, p, action.action);
    }
  }

  lemma OtherKeeps(c: V.Config, cfg: C.Config, p: Pipe, a: L.Action)
    requires Inv(c, cfg, p) && Enabled(cfg, p, Other(a))
    ensures Inv(c, cfg, Next(c, cfg, p, Other(a)))
  {
    L.NextKeeps(cfg, p.sys, a);
    if a.Open? {
      OpenKeeps(c, cfg, p, a.id, a.maxSamples);
    } else if a.Quietly? {
      SucceedKeeps(c, cfg, p, a.id);
    } else if a.Abort? {
      AbortKeeps(c, cfg, p, a.id, a.failed);
    } else if a.Release? {
      ReleaseKeeps(c, cfg, p, a.id);
    } else {
      if a.Schedule? {
        ScheduleLeavesLines(cfg, p.sys, a);
      } else {
        TurnLeavesLines(cfg, p.sys, a.step);
      }
      BesideKeeps(c, cfg, p, Next(c, cfg, p, Other(a)));
    }
  }

  // ----- over every run ------------------------------------------------------------------

  /** The pipeline after a sequence of actions; one that is not enabled does not happen. */
  function RunOf(c: V.Config, cfg: C.Config, actions: seq<Action>): Pipe {
    if actions == [] then Pipe(L.Start(cfg), map[])
    else
      var p := RunOf(c, cfg, actions[..|actions| - 1]);
      var action := actions[|actions| - 1];
      if Enabled(cfg, p, action) then Next(c, cfg, p, action) else p
  }

  lemma {:induction false} RunKeeps(c: V.Config, cfg: C.Config, actions: seq<Action>)
    requires 0 <= cfg.maxQueuedSamples
    ensures Inv(c, cfg, RunOf(c, cfg, actions))
    decreases |actions|
  {
    if actions == [] {
      L.StartInv(cfg);
    } else {
      RunKeeps(c, cfg, actions[..|actions| - 1]);
      var p := RunOf(c, cfg, actions[..|actions| - 1]);
      if Enabled(cfg, p, actions[|actions| - 1]) {
        NextKeeps(c, cfg, p, actions[|actions| - 1]);
      }
    }
  }

  /** In every run: what the client sent is, in order, the pieces the detector passed on and
      dropped, followed by what it holds; and what a session's jobs have acknowledged is a
      prefix of what was passed on, the rest being buffered, or lost by an abort. */
  lemma ClientAudioIsAccountedFor(c: V.Config, cfg: C.Config, actions: seq<Action>, id: string)
    requires 0 <= cfg.maxQueuedSamples && id in RunOf(c, cfg, actions).sys.sessions
    ensures var p := RunOf(c, cfg, actions);
            id in p.lines && id in p.sys.histories
    ensures var p := RunOf(c, cfg, actions);
            var line, s, gone := p.lines[id], p.sys.sessions[id], p.sys.histories[id].gone;
            && VS.Tiles(line.fed, line.emitted, s.externalDiscarded, VS.Held(line.vad))
            && s.buffer.acknowledged <= |line.emitted|
            && B.AckedAudio(gone) == line.emitted[..s.buffer.acknowledged]
            && (if L.Dropped(s) then |line.emitted| == s.buffer.acknowledged + s.buffer.discarded
                else line.emitted == B.AckedAudio(gone) + s.buffer.data)
  {
    RunKeeps(c, cfg, actions);
    var p := RunOf(c, cfg, actions);
    assert L.SessionLinked(p.sys, id) && LineFits(c, p, id);
    AccountedLine(c, p.lines[id], p.sys.sessions[id], p.sys.histories[id]);
  }

  lemma AccountedLine(c: V.Config, line: Line, s: S.Session, h: B.History)
    requires Fits(c, line, s, h.stream) && L.Recorded(s, h)
    ensures s.buffer.acknowledged <= |line.emitted|
    ensures B.AckedAudio(h.gone) == line.emitted[..s.buffer.acknowledged]
    ensures if L.Dropped(s) then |line.emitted| == s.buffer.acknowledged + s.buffer.discarded
            else line.emitted == B.AckedAudio(h.gone) + s.buffer.data
  {
    if L.Dropped(s) {
      B.AckedThenLost(h, s.buffer);
    } else {
      B.AckedThenBuffered(h, s.buffer);
      Rejoin(h.stream, s.buffer.acknowledged);
    }
  }

  lemma Rejoin(audio: Audio, n: nat)
    requires n <= |audio|
    ensures audio == audio[..n] + audio[n..]
  {
  }

  /** So when a session has succeeded, the audio its jobs acknowledged is exactly what its
      detector passed on, and with the dropped pieces that is all the client sent, in order. */
  lemma SuccessfulSessionHeardEverything(c: V.Config, cfg: C.Config, actions: seq<Action>, id: string)
    requires 0 <= cfg.maxQueuedSamples && id in RunOf(c, cfg, actions).sys.sessions
    requires RunOf(c, cfg, actions).sys.sessions[id].terminal == S.Succeeded
    ensures var p := RunOf(c, cfg, actions);
            && id in p.lines && id in p.sys.histories
            && B.AckedAudio(p.sys.histories[id].gone) == p.lines[id].emitted
            && VS.Tiles(p.lines[id].fed, p.lines[id].emitted, p.sys.sessions[id].Discarded(), [])
  {
    RunKeeps(c, cfg, actions);
    var p := RunOf(c, cfg, actions);
    assert L.SessionLinked(p.sys, id) && LineFits(c, p, id);
    SucceededLine(c, p.lines[id], p.sys.sessions[id], p.sys.histories[id]);
  }

  lemma SucceededLine(c: V.Config, line: Line, s: S.Session, h: B.History)
    requires Fits(c, line, s, h.stream) && L.Recorded(s, h) && s.terminal == S.Succeeded
    ensures B.AckedAudio(h.gone) == line.emitted
    ensures VS.Tiles(line.fed, line.emitted, s.Discarded(), [])
  {
    B.AckedThenBuffered(h, s.buffer);
    assert h.stream[..s.buffer.acknowledged] + [] == h.stream;
  }
}
