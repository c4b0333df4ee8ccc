/** The gateway's protocol session (app/asr_gateway_protocol.py): three ways a backend reports
    text, a terminal latch, and the gateway's rule that a failed application of a result puts
    the saved protocol state back (app/asr_gateway.py). */
module Protocol {
  import opened Pcm
  import opened Sentences
  import opened Transcript

  datatype Mode = CumulativeSnapshot | ReplaceableSegment | ConfirmedPlusTail

  datatype Command =
    | SendReady
    | ApplyResult(mode: Mode, text: string, confirmedText: string, tailText: string, samples: int, segmentId: int)
    | CloseSegment
    | SendFinal(tail: Option<string>)
    | SendError

  datatype Session = Session(state: State, terminal: bool)

  const OPENED := Session(NEW, false)

  /** Early commits are off in a protocol session. */
  predicate Configured(cfg: Config) {
    cfg.sampleRate > 0 && !cfg.stableCommit && !cfg.commitOnPunctuation
  }

  datatype Reply = Reply(session: Session, events: seq<Event>, raised: bool)

  function Answer(o: Outcome, terminal: bool): Reply {
    Reply(Session(o.state, terminal), o.events, o.conflict)
  }

  /** Confirms a new stretch and then replaces the tail. The update that first shows the new
      stretch as a tail takes a number, but its event is dropped. */
  function ApplyConfirmedPlusTail(cfg: Config, s: State, confirmedText: string, tailText: string, samples: int): Outcome
    requires Configured(cfg)
  {
    if confirmedText == "" then
      ApplyModelUpdate(cfg, s, s.confirmed + tailText, samples)
    else
      var shown := ApplyModelUpdate(cfg, s, s.confirmed + confirmedText, samples);
      var committed := CommitPending(cfg, shown.state);
      var tail := ApplyModelUpdate(cfg, committed.state, committed.state.confirmed + tailText, 0);
      Outcome(tail.state, committed.events + tail.events, false)
  }

  function Handle(cfg: Config, p: Session, c: Command): Reply
    requires Configured(cfg)
  {
    if p.terminal then Reply(p, [], true)
    else
      match c
      case SendReady => Answer(Done(p.state, Ready, ""), false)
      case ApplyResult(mode, text, confirmedText, tailText, samples, segmentId) =>
        (match mode
         case CumulativeSnapshot => Answer(ApplyModelUpdate(cfg, p.state, text, samples), false)
         case ReplaceableSegment => Answer(ApplySegmentSnapshot(cfg, p.state, segmentId, text, samples), false)
         case ConfirmedPlusTail => Answer(ApplyConfirmedPlusTail(cfg, p.state, confirmedText, tailText, samples), false))
      case CloseSegment => Answer(CommitPending(cfg, p.state), false)
      case SendFinal(None) => Answer(FinalEvent(p.state), true)
      case SendFinal(Some(tail)) =>
        Answer(FinalEvent(ApplyModelUpdate(cfg, p.state, p.state.confirmed + tail, 0).state), true)
      case SendError => Answer(Done(p.state, Error, ""), true)
  }

  /** The text the gateway hands on: a cumulative snapshot that does not repeat the confirmed
      text is taken to follow it. */
  function GatewayText(s: State, mode: Mode, text: string): (r: string)
    ensures mode == CumulativeSnapshot ==> s.confirmed <= r
    ensures mode != CumulativeSnapshot || s.confirmed <= text ==> r == text
    ensures mode == CumulativeSnapshot && !(s.confirmed <= text) ==> r[|s.confirmed|..] == text
  {
    if mode == CumulativeSnapshot && !(s.confirmed <= text) then s.confirmed + text else text
  }

  // ----- numbering ----------------------------------------------------------------------

  /** How many numbers a command takes without sending an event. */
  function Skips(p: Session, c: Command): nat {
    if p.terminal then 0
    else
      match c
      case ApplyResult(ConfirmedPlusTail, _, confirmedText, _, _, _) =>
        if confirmedText != "" && confirmedText != p.state.partial then 1 else 0
      case SendFinal(Some(tail)) => if tail != p.state.partial then 1 else 0
      case _ => 0
  }

  /** The client learns exactly what changed; `skips` numbers are missing before the first
      event, and then none. */
  ghost predicate Tells(p: Session, skips: nat, r: Reply) {
    && r.session.state.confirmed == p.state.confirmed + Confirmed(r.events)
    && r.session.state.partial == Displayed(p.state.partial, r.events)
    && Numbered(r.events, p.state.sequence + skips + 1)
    && r.session.state.sequence == p.state.sequence + skips + |r.events|
    && (skips > 0 ==> r.events != [])
    && (r.raised ==> r.events == [])
  }

  lemma ReportsTell(p: Session, o: Outcome, terminal: bool)
    requires Reports(p.state, o)
    ensures Tells(p, 0, Answer(o, terminal))
  {
  }

  /** With early commits off, an accepted update only replaces the tail. */
  lemma PlainUpdate(cfg: Config, s: State, tail: string, samples: int)
    requires Configured(cfg)
    ensures var o := ApplyModelUpdate(cfg, s, s.confirmed + tail, samples);
            && !o.conflict && Reports(s, o)
            && o.state.confirmed == s.confirmed && o.state.partial == tail
            && |o.events| == (if tail != s.partial then 1 else 0)
            && o.state.sequence == s.sequence + |o.events|
  {
    UpdateReports(cfg, s, s.confirmed + tail, samples);
    assert (s.confirmed + tail)[|s.confirmed|..] == tail;
  }

  /** A display that a commit or a final overwrites does not depend on what it showed. */
  lemma OverwrittenDisplay(events: seq<Event>, a: string, b: string)
    requires events != [] && events[|events| - 1].kind in {SentenceFinal, Partial, Final}
    ensures Displayed(a, events) == Displayed(b, events)
  {
  }

  lemma DroppedThenTold(p: Session, shown: State, first: Outcome, second: Outcome)
    requires shown.confirmed == p.state.confirmed && shown.sequence >= p.state.sequence
    requires Reports(shown, first) && Reports(first.state, second)
    requires first.events != [] && first.events[|first.events| - 1].kind in {SentenceFinal, Partial, Final}
    ensures Tells(p, shown.sequence - p.state.sequence,
                  Reply(Session(second.state, false), first.events + second.events, false))
  {
    ReportsThen(shown, first, second);
    DisplayedConcat(p.state.partial, first.events, second.events);
    OverwrittenDisplay(first.events, p.state.partial, shown.partial);
    DisplayedConcat(shown.partial, first.events, second.events);
  }

  lemma ConfirmedPlusTailTells(cfg: Config, p: Session, confirmedText: string, tailText: string, samples: int)
    requires Configured(cfg) && confirmedText != ""
    ensures Tells(p, if confirmedText != p.state.partial then 1 else 0,
                  Answer(ApplyConfirmedPlusTail(cfg, p.state, confirmedText, tailText, samples), false))
  {
    var s := p.state;
    PlainUpdate(cfg, s, confirmedText, samples);
    var shown := ApplyModelUpdate(cfg, s, s.confirmed + confirmedText, samples).state;
    CommitPendingReports(cfg, shown);
    var committed := CommitPending(cfg, shown);
    PlainUpdate(cfg, committed.state, tailText, 0);
    var tail := ApplyModelUpdate(cfg, committed.state, committed.state.confirmed + tailText, 0);
    DroppedThenTold(p, shown, committed, tail);
  }

  lemma FinalTells(cfg: Config, p: Session, tail: string)
    requires Configured(cfg)
    ensures Tells(p, if tail != p.state.partial then 1 else 0,
                  Answer(FinalEvent(ApplyModelUpdate(cfg, p.state, p.state.confirmed + tail, 0).state), true))
  {
    PlainUpdate(cfg, p.state, tail, 0);
    var shown := ApplyModelUpdate(cfg, p.state, p.state.confirmed + tail, 0).state;
    OneEventReports(shown, shown, Final, tail);
    OverwrittenDisplay(FinalEvent(shown).events, p.state.partial, shown.partial);
  }

  lemma ResultTells(cfg: Config, p: Session, c: Command)
    requires Configured(cfg) && c.ApplyResult?
    ensures Tells(p, Skips(p, c), Handle(cfg, p, c))
  {
    if p.terminal {
      ReportsTellNothing(p);
    } else {
      match c.mode
      case CumulativeSnapshot =>
        UpdateReports(cfg, p.state, c.text, c.samples);
        ReportsTell(p, ApplyModelUpdate(cfg, p.state, c.text, c.samples), false);
      case ReplaceableSegment =>
        SnapshotReports(cfg, p.state, c.segmentId, c.text, c.samples);
        ReportsTell(p, ApplySegmentSnapshot(cfg, p.state, c.segmentId, c.text, c.samples), false);
      case ConfirmedPlusTail =>
        if c.confirmedText == "" {
          PlainUpdate(cfg, p.state, c.tailText, c.samples);
          ReportsTell(p, ApplyConfirmedPlusTail(cfg, p.state, "", c.tailText, c.samples), false);
        } else {
          ConfirmedPlusTailTells(cfg, p, c.confirmedText, c.tailText, c.samples);
        }
    }
  }

  lemma ReportsTellNothing(p: Session)
    ensures Tells(p, 0, Reply(p, [], true))
  {
    assert p.state.confirmed + "" == p.state.confirmed;
  }

  /** Every command, in every mode and state. */
  lemma HandleTells(cfg: Config, p: Session, c: Command)
    requires Configured(cfg)
    ensures Tells(p, Skips(p, c), Handle(cfg, p, c))
  {
    if p.terminal {
      ReportsTellNothing(p);
    } else {
      match c
      case SendReady =>
        SilentEventReports(p.state, Ready, "");
        ReportsTell(p, Done(p.state, Ready, ""), false);
      case ApplyResult(_, _, _, _, _, _) => ResultTells(cfg, p, c);
      case CloseSegment =>
        CommitPendingReports(cfg, p.state);
        ReportsTell(p, CommitPending(cfg, p.state), false);
      case SendFinal(None) =>
        OneEventReports(p.state, p.state, Final, p.state.partial);
        ReportsTell(p, FinalEvent(p.state), true);
      case SendFinal(Some(tail)) => FinalTells(cfg, p, tail);
      case SendError =>
        SilentEventReports(p.state, Error, "");
        ReportsTell(p, Done(p.state, Error, ""), true);
    }
  }
}
