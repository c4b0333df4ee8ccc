/** The transcript a streaming session keeps (app/asr_streaming.py): an immutable confirmed
    prefix, a replaceable tail, and the numbered events that tell the client about both. */
module Transcript {
  import opened Pcm
  import opened Sentences

  datatype Kind = Ready | Partial | SentenceFinal | Final | Error

  datatype Event = Event(kind: Kind, text: string, sequence: int)

  datatype Config = Config(
    rules: Rules,
    sampleRate: int,
    stableCommit: bool,
    stableSeconds: real,
    minChars: int,
    minUpdates: int,
    commitOnPunctuation: bool,
    segmentLocal: bool)

  /** Segment-local transcripts switch both kinds of early commit off. */
  predicate Stable(cfg: Config) {
    cfg.stableCommit && !cfg.segmentLocal
  }

  predicate Immediate(cfg: Config) {
    cfg.commitOnPunctuation && !cfg.segmentLocal
  }

  // ----- the stable punctuation tracker -------------------------------------------------

  datatype Tracker = Tracker(candidate: string, since: real, updates: nat)

  const IDLE := Tracker("", 0.0, 0)

  /** One look at the tail; a candidate that has been stable for long enough comes out. */
  function Observe(cfg: Config, k: Tracker, text: string, now: real): (r: (Tracker, Option<string>))
    ensures r.1.Some? ==> r.1.value != "" && r.1.value <= text
  {
    var next := if Stable(cfg) then Candidate(cfg.rules, text, cfg.minChars) else "";
    if next == "" then (IDLE, None)
    else if next != k.candidate then (Tracker(next, now, 1), None)
    else if k.updates + 1 < cfg.minUpdates || now - k.since < cfg.stableSeconds then
      (k.(updates := k.updates + 1), None)
    else (IDLE, Some(next))
  }

  // ----- the state ----------------------------------------------------------------------

  datatype State = State(
    confirmed: string,
    partial: string,
    processed: int,
    sequence: nat,
    segment: Option<int>,
    tracker: Tracker)

  const NEW := State("", "", 0, 0, None, IDLE)

  /** What an operation leaves behind: a conflict is an error that reports no event. */
  datatype Outcome = Outcome(state: State, events: seq<Event>, conflict: bool)

  function Emit(s: State, kind: Kind, text: string): (State, Event) {
    (s.(sequence := s.sequence + 1), Event(kind, text, s.sequence + 1))
  }

  function Done(s: State, kind: Kind, text: string): Outcome {
    Outcome(Emit(s, kind, text).0, [Emit(s, kind, text).1], false)
  }

  /** The sentences, in order, and then the tail. */
  function Announce(s: State, sentences: seq<string>): (r: Outcome)
    ensures r.state == s.(sequence := s.sequence + |sentences| + 1)
  {
    Outcome(s.(sequence := s.sequence + |sentences| + 1),
            seq(|sentences|, i requires 0 <= i < |sentences| => Event(SentenceFinal, sentences[i], s.sequence + 1 + i))
            + [Event(Partial, s.partial, s.sequence + |sentences| + 1)],
            false)
  }

  function Seconds(cfg: Config, s: State): real
    requires cfg.sampleRate > 0
  {
    s.processed as real / cfg.sampleRate as real
  }

  /** Confirms a prefix of the tail that has been stable. */
  function CommitPrefix(s: State, prefix: string): Outcome {
    if prefix == "" || !(prefix <= s.partial) then Outcome(s, [], false)
    else
      Announce(s.(confirmed := s.confirmed + prefix, partial := s.partial[|prefix|..], tracker := IDLE), [prefix])
  }

  /** Confirms every complete sentence of the tail at once, or nothing at all. */
  function CommitSentences(cfg: Config, s: State): Outcome {
    var n := |CompleteSentences(cfg.rules, s.partial, 0, 0)|;
    var tail := Tail(cfg.rules, s.partial, 0, 0);
    var prefix := s.partial[..|s.partial| - |tail|];
    var exact := ExactSentences(cfg.rules, prefix, n);
    if n == 0 || exact.None? then Outcome(s, [], false)
    else Announce(s.(confirmed := s.confirmed + prefix, partial := tail, tracker := IDLE), exact.value)
  }

  /** Commits at once where the configuration asks for it, and reports the tail otherwise. */
  function CommitOrReport(cfg: Config, s: State, report: bool): Outcome {
    var now := if Immediate(cfg) then CommitSentences(cfg, s) else Outcome(s, [], false);
    if now.events != [] then now
    else if report then Done(s, Partial, s.partial)
    else Outcome(s, [], false)
  }

  function Settle(cfg: Config, s: State, stable: Option<string>, report: bool): Outcome {
    if stable.Some? then CommitPrefix(s, stable.value) else CommitOrReport(cfg, s, report)
  }

  // ----- the operations -----------------------------------------------------------------

  /** A model update restates the whole transcript; it may not take back confirmed text. */
  function ApplyModelUpdate(cfg: Config, s: State, text: string, samples: int): Outcome
    requires cfg.sampleRate > 0
  {
    var heard := s.(processed := s.processed + samples);
    if !(s.confirmed <= text) then
      Outcome(heard, [], true)
    else
      var updated := heard.(partial := text[|s.confirmed|..]);
      var (tracker, stable) := Observe(cfg, s.tracker, updated.partial, Seconds(cfg, updated));
      var looked := updated.(tracker := tracker);
      Settle(cfg, looked, stable, looked.partial != s.partial)
  }

  /** A segment snapshot replaces the tail; segments may not change while one is pending. */
  function ApplySegmentSnapshot(cfg: Config, s: State, id: int, text: string, samples: int): Outcome {
    if !cfg.segmentLocal || (s.segment.Some? && s.segment.value != id && s.partial != "") then
      Outcome(s, [], true)
    else
      var updated := s.(segment := Some(id), processed := s.processed + samples, partial := text);
      if text != s.partial then Done(updated, Partial, text) else Outcome(updated, [], false)
  }

  /** Confirms the tail, unless it is nothing but white space. */
  function CommitPending(cfg: Config, s: State): Outcome {
    var closed := s.(partial := "", tracker := IDLE, segment := None);
    if s.partial == "" then Outcome(closed, [], false)
    else if Strip(cfg.rules, s.partial) == "" then Done(closed, Partial, "")
    else Announce(closed.(confirmed := s.confirmed + s.partial), [s.partial])
  }

  function AppendIndependentSegment(cfg: Config, s: State, text: string): Outcome {
    if text == "" then Outcome(s, [], false)
    else CommitOrReport(cfg, s.(partial := s.partial + text), true)
  }

  function FinalEvent(s: State): Outcome {
    Done(s, Final, s.partial)
  }

  function Finish(cfg: Config, s: State, text: string): Outcome
    requires cfg.sampleRate > 0
  {
    var updated := ApplyModelUpdate(cfg, s, text, 0);
    if updated.conflict then updated
    else
      var last := FinalEvent(updated.state);
      Outcome(last.state, updated.events + last.events, false)
  }

  function ResetSegment(s: State): Outcome {
    Outcome(s.(tracker := IDLE, segment := None), [], false)
  }

  // ----- what an event stream says ------------------------------------------------------

  /** All the text of the sentences an event stream confirms. */
  function Confirmed(events: seq<Event>): (text: string) {
    if events == [] then ""
    else
      var last := events[|events| - 1];
      Confirmed(events[..|events| - 1]) + if last.kind == SentenceFinal then last.text else ""
  }

  /** The tail an event stream leaves on display, starting from `tail`. */
  function Displayed(tail: string, events: seq<Event>): (text: string) {
    if events == [] then tail
    else
      match events[|events| - 1].kind
      case SentenceFinal => ""
      case Partial => events[|events| - 1].text
      case Final => events[|events| - 1].text
      case _ => Displayed(tail, events[..|events| - 1])
  }

  /** Numbered one after the other from `first`. */
  predicate Numbered(events: seq<Event>, first: int) {
    forall i | 0 <= i < |events| :: events[i].sequence == first + i
  }

  /** An outcome reports exactly the change from `s`: the confirmed sentences are what was
      added to the confirmed text, the display ends on the new tail, no number is skipped. */
  ghost predicate Reports(s: State, o: Outcome) {
    && o.state.confirmed == s.confirmed + Confirmed(o.events)
    && o.state.partial == Displayed(s.partial, o.events)
    && Numbered(o.events, s.sequence + 1)
    && o.state.sequence == s.sequence + |o.events|
    && (o.conflict ==> o.events == [])
  }

  lemma {:induction false} ConfirmedConcat(a: seq<Event>, b: seq<Event>)
    ensures Confirmed(a + b) == Confirmed(a) + Confirmed(b)
    decreases |b|
  {
    if b == [] {
      assert a + b == a;
    } else {
      var front := b[..|b| - 1];
      assert (a + b)[..|a + b| - 1] == a + front;
      ConfirmedConcat(a, front);
      var last := if b[|b| - 1].kind == SentenceFinal then b[|b| - 1].text else "";
      assert Confirmed(a) + Confirmed(front) + last == Confirmed(a) + (Confirmed(front) + last);
    }
  }

  lemma {:induction false} DisplayedConcat(tail: string, a: seq<Event>, b: seq<Event>)
    ensures Displayed(tail, a + b) == Displayed(Displayed(tail, a), b)
    decreases |b|
  {
    if b == [] {
      assert a + b == a;
    } else {
      assert (a + b)[..|a + b| - 1] == a + b[..|b| - 1];
      DisplayedConcat(tail, a, b[..|b| - 1]);
    }
  }

  /** Reports compose. */
  lemma ReportsThen(s: State, first: Outcome, second: Outcome)
    requires Reports(s, first) && Reports(first.state, second)
    ensures Reports(s, Outcome(second.state, first.events + second.events, false))
  {
    ConfirmedConcat(first.events, second.events);
    DisplayedConcat(s.partial, first.events, second.events);
    assert s.confirmed + Confirmed(first.events) + Confirmed(second.events)
        == s.confirmed + (Confirmed(first.events) + Confirmed(second.events));
  }

  lemma OneEventReports(s: State, before: State, kind: Kind, text: string)
    requires s.confirmed == before.confirmed && s.sequence == before.sequence && s.partial == text
    requires kind == Partial || kind == Final
    ensures Reports(before, Done(s, kind, text))
  {
    var e := [Emit(s, kind, text).1];
    assert e[..0] == [];
    assert Confirmed(e) == Confirmed(e[..0]) + "";
  }

  /** The events of `sentences`, numbered from `first`, confirm their concatenation. */
  lemma {:induction false} SentencesConfirm(sentences: seq<string>, first: int)
    ensures Confirmed(seq(|sentences|, i requires 0 <= i < |sentences| => Event(SentenceFinal, sentences[i], first + i)))
         == Joined(sentences)
    decreases |sentences|
  {
    if sentences != [] {
      var front := sentences[..|sentences| - 1];
      var events := seq(|sentences|, i requires 0 <= i < |sentences| => Event(SentenceFinal, sentences[i], first + i));
      SentencesConfirm(front, first);
      assert events[..|sentences| - 1] == seq(|front|, i requires 0 <= i < |front| => Event(SentenceFinal, front[i], first + i));
    }
  }

  /** Announcing sentences reports moving them from the tail to the confirmed text. */
  lemma AnnounceReports(s: State, before: State, sentences: seq<string>)
    requires s.confirmed == before.confirmed + Joined(sentences) && s.sequence == before.sequence
    ensures Reports(before, Announce(s, sentences))
  {
    var said := seq(|sentences|, i requires 0 <= i < |sentences| => Event(SentenceFinal, sentences[i], s.sequence + 1 + i));
    var last := [Event(Partial, s.partial, s.sequence + |sentences| + 1)];
    SentencesConfirm(sentences, s.sequence + 1);
    ConfirmedConcat(said, last);
    assert last[..0] == [];
    assert Confirmed(last) == "";
    assert Joined(sentences) + "" == Joined(sentences);
    assert Announce(s, sentences).events == said + last;
  }

  lemma NothingReports(s: State, before: State, conflict: bool)
    requires s.confirmed == before.confirmed && s.partial == before.partial && s.sequence == before.sequence
    ensures Reports(before, Outcome(s, [], conflict))
  {
    assert before.confirmed + "" == before.confirmed;
  }

  // ----- every operation reports what it did --------------------------------------------

  /** An immediate commit changes nothing, or cuts the old tail into nonempty sentences and a
      new tail without losing a character. */
  lemma CommitSplitsTail(cfg: Config, s: State)
    ensures var o := CommitSentences(cfg, s);
            o == Outcome(s, [], false) || exists sentences: seq<string> :: Splits(s, o, sentences)
  {
    var n := |CompleteSentences(cfg.rules, s.partial, 0, 0)|;
    var tail := Tail(cfg.rules, s.partial, 0, 0);
    var prefix := s.partial[..|s.partial| - |tail|];
    var exact := ExactSentences(cfg.rules, prefix, n);
    if n > 0 && exact.Some? {
      ExactSentencesTile(cfg.rules, prefix, n);
      PiecesTile(cfg.rules, s.partial, 0, 0);
      AnnounceSplits(s, prefix, tail, exact.value);
    }
  }

  /** The old tail is cut into nonempty sentences, which are confirmed, and a new tail. */
  ghost predicate Splits(s: State, o: Outcome, sentences: seq<string>) {
    && sentences != [] && (forall i | 0 <= i < |sentences| :: sentences[i] != "")
    && o == Announce(o.state.(sequence := s.sequence), sentences)
    && Joined(sentences) + o.state.partial == s.partial
    && o.state.confirmed == s.confirmed + Joined(sentences)
  }

  lemma AnnounceSplits(s: State, prefix: string, tail: string, sentences: seq<string>)
    requires prefix + tail == s.partial && Joined(sentences) == prefix
    requires sentences != [] && forall i | 0 <= i < |sentences| :: sentences[i] != ""
    ensures Splits(s, Announce(s.(confirmed := s.confirmed + prefix, partial := tail, tracker := IDLE), sentences), sentences)
  {
    var moved := s.(confirmed := s.confirmed + prefix, partial := tail, tracker := IDLE);
    assert Announce(moved, sentences).state.(sequence := s.sequence) == moved;
  }

  lemma CommitPrefixReports(s: State, before: State, prefix: string)
    requires s.confirmed == before.confirmed && s.sequence == before.sequence
    requires prefix != "" && prefix <= s.partial
    ensures Reports(before, CommitPrefix(s, prefix))
  {
    assert [prefix][..0] == [];
    assert Joined([prefix]) == prefix;
    AnnounceReports(s.(confirmed := s.confirmed + prefix, partial := s.partial[|prefix|..], tracker := IDLE), before, [prefix]);
  }

  lemma CommitOrReportReports(cfg: Config, s: State, before: State, report: bool)
    requires s.confirmed == before.confirmed && s.sequence == before.sequence
    requires !report ==> s.partial == before.partial
    ensures Reports(before, CommitOrReport(cfg, s, report))
  {
    if Immediate(cfg) && CommitSentences(cfg, s).events != [] {
      CommitSplitsTail(cfg, s);
      var o := CommitSentences(cfg, s);
      var sentences: seq<string> :| Splits(s, o, sentences);
      AnnounceReports(o.state.(sequence := s.sequence), before, sentences);
    } else if report {
      OneEventReports(s, before, Partial, s.partial);
    } else {
      NothingReports(s, before, false);
    }
  }

  lemma SettleReports(cfg: Config, s: State, before: State, stable: Option<string>, report: bool)
    requires s.confirmed == before.confirmed && s.sequence == before.sequence
    requires stable.Some? ==> stable.value != "" && stable.value <= s.partial
    requires !report ==> s.partial == before.partial
    ensures Reports(before, Settle(cfg, s, stable, report))
    ensures !Settle(cfg, s, stable, report).conflict
  {
    if stable.Some? {
      CommitPrefixReports(s, before, stable.value);
    } else {
      CommitOrReportReports(cfg, s, before, report);
    }
  }

  /** A conflicting update raises and leaves the confirmed text, the tail and the numbering
      as they were. */
  lemma ConflictChangesNoText(cfg: Config, s: State, text: string, samples: int)
    requires cfg.sampleRate > 0
    ensures ApplyModelUpdate(cfg, s, text, samples).conflict <==> !(s.confirmed <= text)
    ensures !(s.confirmed <= text) ==>
              ApplyModelUpdate(cfg, s, text, samples) == Outcome(s.(processed := s.processed + samples), [], true)
  {
    if s.confirmed <= text {
      AcceptedUpdate(cfg, s, text, samples);
    }
  }

  /** An accepted update, in parts: what is new has been looked at and is to be settled. */
  lemma UpdateSettles(cfg: Config, s: State, text: string, samples: int) returns (looked: State, stable: Option<string>)
    requires cfg.sampleRate > 0 && s.confirmed <= text
    ensures ApplyModelUpdate(cfg, s, text, samples) == Settle(cfg, looked, stable, looked.partial != s.partial)
    ensures looked.confirmed == s.confirmed && looked.sequence == s.sequence && looked.partial == text[|s.confirmed|..]
    ensures stable.Some? ==> stable.value != "" && stable.value <= looked.partial
    ensures stable == Observe(cfg, s.tracker, looked.partial, (s.processed + samples) as real / cfg.sampleRate as real).1
    ensures looked.processed == s.processed + samples
  {
    var updated := s.(processed := s.processed + samples, partial := text[|s.confirmed|..]);
    var seen := Observe(cfg, s.tracker, updated.partial, Seconds(cfg, updated));
    looked, stable := updated.(tracker := seen.0), seen.1;
  }

  lemma AcceptedUpdate(cfg: Config, s: State, text: string, samples: int)
    requires cfg.sampleRate > 0 && s.confirmed <= text
    ensures Reports(s, ApplyModelUpdate(cfg, s, text, samples)) && !ApplyModelUpdate(cfg, s, text, samples).conflict
  {
    var looked, stable := UpdateSettles(cfg, s, text, samples);
    SettleReports(cfg, looked, s, stable, looked.partial != s.partial);
  }

  lemma UpdateReports(cfg: Config, s: State, text: string, samples: int)
    requires cfg.sampleRate > 0
    ensures Reports(s, ApplyModelUpdate(cfg, s, text, samples))
  {
    ConflictChangesNoText(cfg, s, text, samples);
    if s.confirmed <= text {
      AcceptedUpdate(cfg, s, text, samples);
    } else {
      NothingReports(s.(processed := s.processed + samples), s, true);
    }
  }

  /** A model update that is accepted makes the transcript say exactly what the model said. */
  lemma UpdateShowsModelText(cfg: Config, s: State, text: string, samples: int)
    requires cfg.sampleRate > 0 && s.confirmed <= text
    ensures var after := ApplyModelUpdate(cfg, s, text, samples).state;
            after.confirmed + after.partial == text && s.confirmed <= after.confirmed
  {
    var looked, stable := UpdateSettles(cfg, s, text, samples);
    assert looked.confirmed + looked.partial == text;
    SettleKeepsText(cfg, looked, stable, looked.partial != s.partial);
  }

  /** Whatever is confirmed is taken from the front of the tail. */
  ghost predicate SameText(s: State, after: State) {
    after.confirmed + after.partial == s.confirmed + s.partial && s.confirmed <= after.confirmed
  }

  lemma SettleKeepsText(cfg: Config, s: State, stable: Option<string>, report: bool)
    ensures SameText(s, Settle(cfg, s, stable, report).state)
  {
    if stable.Some? {
      PrefixKeepsText(s, stable.value);
    } else {
      CommitKeepsText(cfg, s);
    }
  }

  lemma PrefixKeepsText(s: State, prefix: string)
    ensures SameText(s, CommitPrefix(s, prefix).state)
  {
    if prefix <= s.partial {
      assert s.confirmed + prefix + s.partial[|prefix|..] == s.confirmed + s.partial;
    }
  }

  lemma CommitKeepsText(cfg: Config, s: State)
    ensures SameText(s, CommitSentences(cfg, s).state)
  {
    var tail := Tail(cfg.rules, s.partial, 0, 0);
    var prefix := s.partial[..|s.partial| - |tail|];
    PiecesTile(cfg.rules, s.partial, 0, 0);
    assert s.confirmed + prefix + tail == s.confirmed + s.partial;
  }

  lemma SnapshotReports(cfg: Config, s: State, id: int, text: string, samples: int)
    ensures Reports(s, ApplySegmentSnapshot(cfg, s, id, text, samples))
  {
    var o := ApplySegmentSnapshot(cfg, s, id, text, samples);
    if o.events == [] {
      NothingReports(o.state, s, o.conflict);
    } else {
      OneEventReports(o.state.(sequence := s.sequence), s, Partial, text);
    }
  }

  lemma CommitPendingReports(cfg: Config, s: State)
    ensures Reports(s, CommitPending(cfg, s))
    ensures CommitPending(cfg, s).state.partial == ""
  {
    var closed := s.(partial := "", tracker := IDLE, segment := None);
    if s.partial == "" {
      NothingReports(closed, s, false);
    } else if Strip(cfg.rules, s.partial) == "" {
      OneEventReports(closed, s, Partial, "");
    } else {
      assert [s.partial][..0] == [];
      assert Joined([s.partial]) == s.partial;
      AnnounceReports(closed.(confirmed := s.confirmed + s.partial), s, [s.partial]);
    }
  }

  // ----- whole runs ---------------------------------------------------------------------

  datatype Op =
    | Update(text: string, samples: int)
    | Snapshot(id: int, text: string, samples: int)
    | Commit
    | Append(text: string)
    | FinishWith(text: string)
    | SayFinal
    | SayReady
    | SayError
    | Reset

  function Perform(cfg: Config, s: State, op: Op): Outcome
    requires cfg.sampleRate > 0
  {
    match op
    case Update(text, samples) => ApplyModelUpdate(cfg, s, text, samples)
    case Snapshot(id, text, samples) => ApplySegmentSnapshot(cfg, s, id, text, samples)
    case Commit => CommitPending(cfg, s)
    case Append(text) => AppendIndependentSegment(cfg, s, text)
    case FinishWith(text) => Finish(cfg, s, text)
    case SayFinal => FinalEvent(s)
    case SayReady => Done(s, Ready, "")
    case SayError => Done(s, Error, "")
    case Reset => ResetSegment(s)
  }

  lemma SilentEventReports(s: State, kind: Kind, text: string)
    requires kind == Ready || kind == Error
    ensures Reports(s, Done(s, kind, text))
  {
    var e := [Emit(s, kind, text).1];
    assert e[..0] == [];
    assert Confirmed(e) == Confirmed(e[..0]) + "";
    assert Displayed(s.partial, e) == Displayed(s.partial, e[..0]);
  }

  lemma PerformReports(cfg: Config, s: State, op: Op)
    requires cfg.sampleRate > 0
    ensures Reports(s, Perform(cfg, s, op))
  {
    match op
    case Update(text, samples) => UpdateReports(cfg, s, text, samples);
    case Snapshot(id, text, samples) => SnapshotReports(cfg, s, id, text, samples);
    case Commit => CommitPendingReports(cfg, s);
    case Append(text) =>
      if text == "" {
        NothingReports(s, s, false);
      } else {
        CommitOrReportReports(cfg, s.(partial := s.partial + text), s, true);
      }
    case FinishWith(text) =>
      UpdateReports(cfg, s, text, 0);
      var updated := ApplyModelUpdate(cfg, s, text, 0);
      if !updated.conflict {
        OneEventReports(updated.state, updated.state, Final, updated.state.partial);
        ReportsThen(s, updated, FinalEvent(updated.state));
      }
    case SayFinal => OneEventReports(s, s, Final, s.partial);
    case SayReady => SilentEventReports(s, Ready, "");
    case SayError => SilentEventReports(s, Error, "");
    case Reset => NothingReports(ResetSegment(s).state, s, false);
  }

  /** A run of operations from a new transcript, with everything it emitted. */
  function RunOf(cfg: Config, ops: seq<Op>): (State, seq<Event>)
    requires cfg.sampleRate > 0
  {
    if ops == [] then (NEW, [])
    else
      var (s, events) := RunOf(cfg, ops[..|ops| - 1]);
      var o := Perform(cfg, s, ops[|ops| - 1]);
      (o.state, events + o.events)
  }

  lemma ReportsFromNew(s: State, events: seq<Event>, o: Outcome)
    requires s.confirmed == Confirmed(events) && s.partial == Displayed("", events)
    requires Numbered(events, 1) && s.sequence == |events|
    requires Reports(s, o)
    ensures o.state.confirmed == Confirmed(events + o.events)
    ensures o.state.partial == Displayed("", events + o.events)
    ensures Numbered(events + o.events, 1) && o.state.sequence == |events + o.events|
  {
    assert "" + Confirmed(events) == Confirmed(events);
    ReportsThen(NEW, Outcome(s, events, false), o);
  }

  /** Over every run, conflicts included: the confirmed text is the concatenation of all
      confirmed sentences, the tail is what the events leave on display, and the events are
      numbered one, two, three and so on. */
  lemma {:induction false} RunReports(cfg: Config, ops: seq<Op>)
    requires cfg.sampleRate > 0
    ensures var (s, events) := RunOf(cfg, ops);
            && s.confirmed == Confirmed(events)
            && s.partial == Displayed("", events)
            && Numbered(events, 1)
            && s.sequence == |events|
  {
    if ops != [] {
      RunReports(cfg, ops[..|ops| - 1]);
      var before := RunOf(cfg, ops[..|ops| - 1]);
      PerformReports(cfg, before.0, ops[|ops| - 1]);
      ReportsFromNew(before.0, before.1, Perform(cfg, before.0, ops[|ops| - 1]));
    }
  }

  lemma PerformExtends(cfg: Config, s: State, op: Op)
    requires cfg.sampleRate > 0
    ensures s.confirmed <= Perform(cfg, s, op).state.confirmed
  {
    PerformReports(cfg, s, op);
  }

  /** Confirmed text is append-only: no continuation of a run takes any of it back. */
  lemma {:induction false} ConfirmedOnlyGrows(cfg: Config, ops: seq<Op>, more: seq<Op>)
    requires cfg.sampleRate > 0
    ensures RunOf(cfg, ops).0.confirmed <= RunOf(cfg, ops + more).0.confirmed
    decreases |more|
  {
    if more == [] {
      assert ops + more == ops;
    } else {
      assert (ops + more)[..|ops + more| - 1] == ops + more[..|more| - 1];
      ConfirmedOnlyGrows(cfg, ops, more[..|more| - 1]);
      PerformExtends(cfg, RunOf(cfg, ops + more[..|more| - 1]).0, more[|more| - 1]);
    }
  }
}
