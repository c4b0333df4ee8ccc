/** What a protocol session (app/asr_gateway_protocol.py) is to make of the results it is
    given, without events and numbers, and that the client sees just that. */
module ProtocolMeaning {
  import opened Pcm
  import opened Sentences
  import opened Transcript
  import opened Protocol
  import opened Client
  import R = ProtocolRuns
  import T = TranscriptText
  import A = CommitAgreement

  /** The confirmed text, the tail, the segment the tail belongs to, and whether it is over. */
  datatype Text = Text(confirmed: string, tail: string, segment: Option<int>, over: bool)

  const BLANK_PAGE := Text("", "", None, false)

  function Read(p: Session): Text {
    Text(p.state.confirmed, p.state.partial, p.state.segment, p.terminal)
  }

  /** Text without a visible character is never confirmed. */
  function Visible(cfg: Config, text: string): (r: string)
    ensures r == "" || r == text
  {
    if A.Blank(cfg.rules, text) then "" else text
  }

  /** A command that is refused changes nothing. */
  predicate Refused(cfg: Config, m: Text, c: Command) {
    || m.over
    || (c.ApplyResult? && c.mode == CumulativeSnapshot && !(m.confirmed <= c.text))
    || (c.ApplyResult? && c.mode == ReplaceableSegment
        && (!cfg.segmentLocal || (m.segment.Some? && m.segment.value != c.segmentId && m.tail != "")))
  }

  /** What a command means: a cumulative result restates everything, a segment replaces the
      tail, a confirmed result appends to the confirmed text and sets the tail, a closed
      segment confirms the tail. */
  function Means(cfg: Config, m: Text, c: Command): Text {
    if Refused(cfg, m, c) then m
    else
      match c
      case SendReady => m
      case ApplyResult(mode, text, confirmedText, tailText, samples, segmentId) =>
        (match mode
         case CumulativeSnapshot => m.(tail := text[|m.confirmed|..])
         case ReplaceableSegment => m.(tail := text, segment := Some(segmentId))
         case ConfirmedPlusTail =>
           if confirmedText == "" then m.(tail := tailText)
           else Text(m.confirmed + Visible(cfg, confirmedText), tailText, None, false))
      case CloseSegment => Text(m.confirmed + Visible(cfg, m.tail), "", None, false)
      case SendFinal(tail) => m.(tail := if tail.Some? then tail.value else m.tail, over := true)
      case SendError => m.(over := true)
  }

  // ----- one command --------------------------------------------------------------------

  /** With early commits off an update of the tail only sets it. */
  lemma TailIsSet(cfg: Config, s: State, tail: string, samples: int)
    requires Configured(cfg)
    ensures var o := ApplyModelUpdate(cfg, s, s.confirmed + tail, samples);
            && !o.conflict && o.state.confirmed == s.confirmed && o.state.partial == tail && o.state.segment == s.segment
  {
    PlainUpdate(cfg, s, tail, samples);
    assert (s.confirmed + tail)[|s.confirmed|..] == tail;
  }

  lemma CumulativeMeans(cfg: Config, s: State, text: string, samples: int)
    requires Configured(cfg)
    ensures var o := ApplyModelUpdate(cfg, s, text, samples);
            && (o.conflict <==> !(s.confirmed <= text))
            && o.state.confirmed == s.confirmed && o.state.segment == s.segment
            && o.state.partial == if s.confirmed <= text then text[|s.confirmed|..] else s.partial
  {
    if s.confirmed <= text {
      assert s.confirmed + text[|s.confirmed|..] == text;
      TailIsSet(cfg, s, text[|s.confirmed|..], samples);
    }
  }

  lemma ConfirmedMeans(cfg: Config, s: State, confirmedText: string, tailText: string, samples: int)
    requires Configured(cfg)
    ensures var o := ApplyConfirmedPlusTail(cfg, s, confirmedText, tailText, samples);
            && !o.conflict && o.state.confirmed == s.confirmed + Visible(cfg, confirmedText) && o.state.partial == tailText
            && o.state.segment == if confirmedText == "" then s.segment else None
  {
    TailIsSet(cfg, s, tailText, samples);
    TailIsSet(cfg, s, confirmedText, samples);
    var shown := ApplyModelUpdate(cfg, s, s.confirmed + confirmedText, samples).state;
    T.CloseMoves(cfg, shown);
    TailIsSet(cfg, CommitPending(cfg, shown).state, tailText, 0);
    assert s.confirmed + "" == s.confirmed;
  }

  lemma ResultMeans(cfg: Config, p: Session, c: Command)
    requires Configured(cfg) && c.ApplyResult? && !p.terminal
    ensures Read(Handle(cfg, p, c).session) == Means(cfg, Read(p), c)
    ensures Handle(cfg, p, c).raised <==> Refused(cfg, Read(p), c)
  {
    if c.mode == CumulativeSnapshot {
      CumulativeMeans(cfg, p.state, c.text, c.samples);
    } else if c.mode == ReplaceableSegment {
      T.SnapshotMoves(cfg, p.state, c.segmentId, c.text, c.samples);
      assert p.state.confirmed + "" == p.state.confirmed;
    } else {
      ConfirmedMeans(cfg, p.state, c.confirmedText, c.tailText, c.samples);
    }
  }

  /** Every command does to the text exactly what it means, and raises exactly if it is
      refused. */
  lemma HandleMeans(cfg: Config, p: Session, c: Command)
    requires Configured(cfg)
    ensures Read(Handle(cfg, p, c).session) == Means(cfg, Read(p), c)
    ensures Handle(cfg, p, c).raised <==> Refused(cfg, Read(p), c)
  {
    if !p.terminal {
      if c.ApplyResult? {
        ResultMeans(cfg, p, c);
      } else if c.CloseSegment? {
        T.CloseMoves(cfg, p.state);
      } else if c.SendFinal? && c.tail.Some? {
        TailIsSet(cfg, p.state, c.tail.value, 0);
      }
    }
  }

  /** Every result counts the samples it was made from, once; only a snapshot of the wrong
      segment, or one after the end, does not. */
  lemma HandleHears(cfg: Config, p: Session, c: Command)
    requires Configured(cfg)
    ensures Handle(cfg, p, c).session.state.processed ==
            p.state.processed +
            if !c.ApplyResult? || p.terminal || (c.mode == ReplaceableSegment && Refused(cfg, Read(p), c)) then 0 else c.samples
  {
    if !p.terminal {
      if c.ApplyResult? && c.mode == ReplaceableSegment {
        T.SnapshotMoves(cfg, p.state, c.segmentId, c.text, c.samples);
      }
    }
  }

  // ----- one event per occasion ---------------------------------------------------------

  /** A session that is not over answers ready, final and error with exactly that event. */
  lemma MilestonesAreSent(cfg: Config, p: Session)
    requires Configured(cfg) && !p.terminal
    ensures var r := Handle(cfg, p, SendReady);
            |r.events| == 1 && r.events[0].kind == Ready && !r.session.terminal
    ensures var r := Handle(cfg, p, SendError);
            |r.events| == 1 && r.events[0].kind == Error && r.session.terminal
    ensures forall tail :: var r := Handle(cfg, p, SendFinal(tail));
            |r.events| == 1 && r.events[0].kind == Final && r.session.terminal
            && r.events[0].text == if tail.Some? then tail.value else p.state.partial
  {
    forall tail
      ensures var r := Handle(cfg, p, SendFinal(tail));
              |r.events| == 1 && r.events[0].kind == Final && r.session.terminal
              && r.events[0].text == if tail.Some? then tail.value else p.state.partial
    {
      if tail.Some? {
        TailIsSet(cfg, p.state, tail.value, 0);
      }
    }
  }

  // ----- whole runs ---------------------------------------------------------------------

  /** Commands until one is refused. */
  function MeansAll(cfg: Config, m: Text, cs: seq<Command>): (Text, bool) {
    if cs == [] then (m, false)
    else
      var before := MeansAll(cfg, m, cs[..|cs| - 1]);
      if before.1 then before
      else (Means(cfg, before.0, cs[|cs| - 1]), Refused(cfg, before.0, cs[|cs| - 1]))
  }

  /** A result applies as a whole or not at all. */
  function MeansStep(cfg: Config, m: Text, step: R.Step): Text {
    match step
    case Direct(c) => Means(cfg, m, c)
    case Guarded(cs, fails) => if fails || MeansAll(cfg, m, cs).1 then m else MeansAll(cfg, m, cs).0
  }

  function MeansRun(cfg: Config, steps: seq<R.Step>): Text {
    if steps == [] then BLANK_PAGE else MeansStep(cfg, MeansRun(cfg, steps[..|steps| - 1]), steps[|steps| - 1])
  }

  lemma {:induction false} HandleAllMeans(cfg: Config, p: Session, cs: seq<Command>)
    requires Configured(cfg)
    ensures (Read(R.HandleAll(cfg, p, cs).session), R.HandleAll(cfg, p, cs).raised) == MeansAll(cfg, Read(p), cs)
    decreases |cs|
  {
    if cs != [] {
      var front := cs[..|cs| - 1];
      HandleAllMeans(cfg, p, front);
      HandleMeans(cfg, R.HandleAll(cfg, p, front).session, cs[|cs| - 1]);
    }
  }

  lemma {:induction false} RunMeans(cfg: Config, steps: seq<R.Step>)
    requires Configured(cfg)
    ensures Read(R.RunOf(cfg, steps).0) == MeansRun(cfg, steps)
    decreases |steps|
  {
    if steps != [] {
      var front, step := steps[..|steps| - 1], steps[|steps| - 1];
      RunMeans(cfg, front);
      var p := R.RunOf(cfg, front).0;
      if step.Direct? {
        HandleMeans(cfg, p, step.command);
      } else {
        HandleAllMeans(cfg, p, step.commands);
      }
    }
  }

  /** After every run, in all modes and through every failed application, the client shows
      exactly the text the run means. */
  lemma ClientShowsMeaning(cfg: Config, steps: seq<R.Step>)
    requires Configured(cfg)
    ensures var d, m := ShowAll(R.RunOf(cfg, steps).1), MeansRun(cfg, steps);
            && Joined(d.confirmed) == m.confirmed && d.tail == m.tail
            && Rendered(d) == m.confirmed + m.tail
  {
    R.ClientAgrees(cfg, steps);
    RunMeans(cfg, steps);
  }
}
