/** What every operation of the transcript (app/asr_streaming.py) makes of its text: which part
    of the tail becomes confirmed, and what the tail is then. */
module TranscriptText {
  import opened Pcm
  import opened Sentences
  import opened Transcript
  import opened ImmediateCommit
  import A = CommitAgreement

  /** The tail loses `moved` at its front to the confirmed text, and becomes `tail`. */
  ghost predicate Moves(s: State, o: Outcome, moved: string, tail: string) {
    && o.state.confirmed == s.confirmed + moved && Confirmed(o.events) == moved
    && o.state.partial == tail && !o.conflict
  }

  lemma {:induction false} BlankStrips(p: Rules, s: string)
    ensures Strip(p, s) == "" <==> A.Blank(p, s)
    decreases |s|
  {
    if i :| 0 <= i < |s| && !p.isSpace(s[i]) {
      StripKeepsVisible(p, s, i);
    } else if s != "" {
      BlankStrips(p, s[1..]);
    }
  }

  lemma ReportsMoves(s: State, o: Outcome, moved: string, tail: string)
    requires Reports(s, o) && !o.conflict && o.state.confirmed == s.confirmed + moved && o.state.partial == tail
    ensures Moves(s, o, moved, tail)
  {
    assert o.state.confirmed[|s.confirmed|..] == moved;
    assert o.state.confirmed[|s.confirmed|..] == Confirmed(o.events);
  }

  /** Closing a segment confirms exactly the tail if a character of it is visible, and
      otherwise nothing; the tail is empty afterwards and no segment is open. */
  lemma CloseMoves(cfg: Config, s: State)
    ensures var o := CommitPending(cfg, s);
            && Moves(s, o, if A.Blank(cfg.rules, s.partial) then "" else s.partial, "")
            && o.state.segment == None && o.state.tracker == IDLE
            && (s.partial == "" ==> o.events == [])
  {
    var o := CommitPending(cfg, s);
    CommitPendingReports(cfg, s);
    BlankStrips(cfg.rules, s.partial);
    assert s.confirmed + "" == s.confirmed;
    ReportsMoves(s, o, if A.Blank(cfg.rules, s.partial) then "" else s.partial, "");
  }

  /** A snapshot replaces the tail unless another segment is still pending. */
  lemma SnapshotMoves(cfg: Config, s: State, id: int, text: string, samples: int)
    ensures var o := ApplySegmentSnapshot(cfg, s, id, text, samples);
            && (o.conflict <==> !cfg.segmentLocal || (s.segment.Some? && s.segment.value != id && s.partial != ""))
            && (o.conflict ==> o == Outcome(s, [], true))
            && (!o.conflict ==>
                  && Moves(s, o, "", text) && o.state.segment == Some(id)
                  && o.state.processed == s.processed + samples && |o.events| == (if text != s.partial then 1 else 0))
  {
    var o := ApplySegmentSnapshot(cfg, s, id, text, samples);
    SnapshotReports(cfg, s, id, text, samples);
    assert s.confirmed + "" == s.confirmed;
    if !o.conflict {
      ReportsMoves(s, o, "", text);
    }
  }

  /** The stable prefix that is confirmed is the one asked for, if the tail begins with it. */
  lemma PrefixMoves(s: State, prefix: string)
    ensures var o := CommitPrefix(s, prefix);
            if prefix != "" && prefix <= s.partial then Moves(s, o, prefix, s.partial[|prefix|..]) && o.state.tracker == IDLE
            else o == Outcome(s, [], false)
  {
    if prefix != "" && prefix <= s.partial {
      CommitPrefixReports(s, s, prefix);
      ReportsMoves(s, CommitPrefix(s, prefix), prefix, s.partial[|prefix|..]);
    }
  }

  /** An immediate commit confirms all complete sentences of the tail and keeps the splitter's
      rest, unless there is none or it is refused. */
  lemma SentencesMove(cfg: Config, s: State)
    ensures var o, sentences := CommitSentences(cfg, s), CompleteSentences(cfg.rules, s.partial, 0, 0);
            if sentences == [] || Refuses(cfg.rules, s.partial) then o == Outcome(s, [], false)
            else Moves(s, o, Prefix(cfg.rules, s.partial), Tail(cfg.rules, s.partial, 0, 0))
                 && |o.events| == |sentences| + 1
  {
    var sentences := CompleteSentences(cfg.rules, s.partial, 0, 0);
    if sentences != [] && !Refuses(cfg.rules, s.partial) {
      var prefix, tail := Prefix(cfg.rules, s.partial), Tail(cfg.rules, s.partial, 0, 0);
      var exact := ExactSentences(cfg.rules, prefix, |sentences|).value;
      ExactSentencesTile(cfg.rules, prefix, |sentences|);
      var moved := s.(confirmed := s.confirmed + prefix, partial := tail, tracker := IDLE);
      AnnounceReports(moved, s, exact);
      ReportsMoves(s, Announce(moved, exact), prefix, tail);
    }
  }

  /** What committing at once would confirm of a tail. */
  function AtOnce(cfg: Config, tail: string): string {
    if !Immediate(cfg) || CompleteSentences(cfg.rules, tail, 0, 0) == [] || Refuses(cfg.rules, tail) then ""
    else Prefix(cfg.rules, tail)
  }

  lemma AtOnceIsPrefix(cfg: Config, tail: string)
    ensures AtOnce(cfg, tail) <= tail
    ensures AtOnce(cfg, tail) != "" ==> tail[|AtOnce(cfg, tail)|..] == Tail(cfg.rules, tail, 0, 0)
    ensures Immediate(cfg) && CompleteSentences(cfg.rules, tail, 0, 0) != [] && !Refuses(cfg.rules, tail) ==> AtOnce(cfg, tail) != ""
  {
    PiecesTile(cfg.rules, tail, 0, 0);
    var n := |CompleteSentences(cfg.rules, tail, 0, 0)|;
    if Immediate(cfg) && n > 0 && !Refuses(cfg.rules, tail) {
      var exact := ExactSentences(cfg.rules, Prefix(cfg.rules, tail), n).value;
      ExactSentencesTile(cfg.rules, Prefix(cfg.rules, tail), n);
      assert exact[0] != "";
      assert exact == [exact[0]] + exact[1..];
      JoinedCons(exact[0], exact[1..]);
    }
  }

  lemma CommitOrReportMoves(cfg: Config, s: State, report: bool)
    ensures var o, now := CommitOrReport(cfg, s, report), AtOnce(cfg, s.partial);
            && Moves(s, o, now, s.partial[|now|..])
            && (report ==> o.events != []) && (now == "" && !report ==> o.events == [])
  {
    var now := AtOnce(cfg, s.partial);
    AtOnceIsPrefix(cfg, s.partial);
    SentencesMove(cfg, s);
    CommitOrReportReports(cfg, s, s, report);
    assert s.confirmed + "" == s.confirmed;
    ReportsMoves(s, CommitOrReport(cfg, s, report), now, s.partial[|now|..]);
  }

  /** What an accepted update confirms of the text it adds: the stable candidate if there is
      one, and otherwise what is committed at once. */
  function Newly(cfg: Config, s: State, tail: string, samples: int): string
    requires cfg.sampleRate > 0
  {
    var stable := Observe(cfg, s.tracker, tail, (s.processed + samples) as real / cfg.sampleRate as real).1;
    if stable.Some? then stable.value else AtOnce(cfg, tail)
  }

  /** An accepted update confirms exactly that, and the rest of what the model said is the
      tail. */
  lemma UpdateMoves(cfg: Config, s: State, text: string, samples: int)
    requires cfg.sampleRate > 0 && s.confirmed <= text
    ensures Updates(s, ApplyModelUpdate(cfg, s, text, samples), text[|s.confirmed|..],
                    Newly(cfg, s, text[|s.confirmed|..], samples), samples)
  {
    var looked, stable := UpdateSettles(cfg, s, text, samples);
    var tail := text[|s.confirmed|..];
    SettledUpdates(cfg, s, looked, stable, ApplyModelUpdate(cfg, s, text, samples), tail, Newly(cfg, s, tail, samples), samples);
  }

  /** Of the new tail the front `now` is confirmed; nothing is said only if nothing changes. */
  ghost predicate Updates(s: State, o: Outcome, tail: string, now: string, samples: int) {
    && now <= tail && Moves(s, o, now, tail[|now|..])
    && o.state.processed == s.processed + samples
    && (o.events == [] <==> now == "" && tail == s.partial)
  }

  lemma SettledUpdates(cfg: Config, s: State, looked: State, stable: Option<string>, o: Outcome, tail: string, now: string, samples: int)
    requires o == Settle(cfg, looked, stable, looked.partial != s.partial)
    requires looked.confirmed == s.confirmed && looked.partial == tail && looked.processed == s.processed + samples
    requires stable.Some? ==> stable.value != "" && stable.value <= tail
    requires now == if stable.Some? then stable.value else AtOnce(cfg, tail)
    ensures Updates(s, o, tail, now, samples)
  {
    SettleMoves(cfg, looked, stable, looked.partial != s.partial);
  }

  lemma SettleMoves(cfg: Config, s: State, stable: Option<string>, report: bool)
    requires stable.Some? ==> stable.value != "" && stable.value <= s.partial
    ensures var o, now := Settle(cfg, s, stable, report), if stable.Some? then stable.value else AtOnce(cfg, s.partial);
            && now <= s.partial && Moves(s, o, now, s.partial[|now|..]) && o.state.processed == s.processed
            && (o.events == [] <==> now == "" && !report)
  {
    AtOnceIsPrefix(cfg, s.partial);
    if stable.Some? {
      PrefixMoves(s, stable.value);
    } else {
      CommitOrReportMoves(cfg, s, report);
    }
  }

  /** An independent segment joins the tail, and then what can be is committed at once. */
  lemma AppendMoves(cfg: Config, s: State, text: string)
    ensures var o, tail := AppendIndependentSegment(cfg, s, text), s.partial + text;
            var now := AtOnce(cfg, tail);
            if text == "" then o == Outcome(s, [], false)
            else now <= tail && Moves(s, o, now, tail[|now|..]) && o.events != []
  {
    if text != "" {
      AtOnceIsPrefix(cfg, s.partial + text);
      CommitOrReportMoves(cfg, s.(partial := s.partial + text), true);
    }
  }

  /** Finishing is an update, and then one closing event with the tail. */
  lemma FinishMoves(cfg: Config, s: State, text: string)
    requires cfg.sampleRate > 0 && s.confirmed <= text
    ensures var o, u := Finish(cfg, s, text), ApplyModelUpdate(cfg, s, text, 0);
            && o.state.confirmed == u.state.confirmed && o.state.partial == u.state.partial
            && |o.events| == |u.events| + 1 && o.events[..|u.events|] == u.events
            && o.events[|u.events|].kind == Final && o.events[|u.events|].text == o.state.partial
  {
    UpdateMoves(cfg, s, text, 0);
    assert (ApplyModelUpdate(cfg, s, text, 0).events + FinalEvent(ApplyModelUpdate(cfg, s, text, 0).state).events)[..|ApplyModelUpdate(cfg, s, text, 0).events|]
        == ApplyModelUpdate(cfg, s, text, 0).events;
  }

  /** A new segment starts without a candidate, and with the text as it was. */
  lemma ResetForgets(s: State)
    ensures var o := ResetSegment(s);
            && o.state.tracker == IDLE && o.state.segment == None && o.events == [] && !o.conflict
            && o.state.confirmed == s.confirmed && o.state.partial == s.partial
            && o.state.processed == s.processed && o.state.sequence == s.sequence
  {
  }
}
