/** The transcript as the object a session mutates, each method proved to do what the value
    operation of the same name does. */
module TranscriptObject {
  import opened Pcm
  import opened Sentences
  import opened Transcript

  class StreamingTranscriptState {
    const cfg: Config
    var confirmedText: string
    var partialText: string
    var processedSamples: int
    var sequence: nat
    var activeSegment: Option<int>
    var stable: Tracker

    ghost function View(): State
      reads this
    {
      State(confirmedText, partialText, processedSamples, sequence, activeSegment, stable)
    }

    constructor (cfg: Config)
      requires cfg.sampleRate > 0
      ensures View() == NEW && this.cfg == cfg
    {
      this.cfg := cfg;
      confirmedText, partialText, processedSamples, sequence := "", "", 0, 0;
      activeSegment, stable := None, IDLE;
    }

    constructor Copy(original: StreamingTranscriptState)
      ensures View() == old(original.View()) && cfg == original.cfg
    {
      cfg := original.cfg;
      confirmedText, partialText := original.confirmedText, original.partialText;
      processedSamples, sequence := original.processedSamples, original.sequence;
      activeSegment, stable := original.activeSegment, original.stable;
    }

    method NewEvent(kind: Kind, text: string) returns (event: Event)
      modifies this`sequence
      ensures (View(), event) == Emit(old(View()), kind, text)
    {
      sequence := sequence + 1;
      event := Event(kind, text, sequence);
    }

    /** Advances the tracker by one look at the tail. */
    method ObserveStable(now: real) returns (prefix: Option<string>)
      modifies this`stable
      ensures (stable, prefix) == Observe(cfg, old(stable), partialText, now)
    {
      var next := "";
      if Stable(cfg) {
        next := FirstPunctuationCandidate(cfg.rules, partialText, cfg.minChars);
      }
      if next == "" {
        stable := IDLE;
        return None;
      }
      if next != stable.candidate {
        stable := Tracker(next, now, 1);
        return None;
      }
      stable := stable.(updates := stable.updates + 1);
      if stable.updates < cfg.minUpdates || now - stable.since < cfg.stableSeconds {
        return None;
      }
      stable := IDLE;
      return Some(next);
    }

    method ConfirmPrefix(prefix: string) returns (events: seq<Event>)
      modifies this
      ensures Outcome(View(), events, false) == CommitPrefix(old(View()), prefix)
    {
      if prefix == "" || !(prefix <= partialText) {
        return [];
      }
      confirmedText := confirmedText + prefix;
      partialText := partialText[|prefix|..];
      stable := IDLE;
      var sentence := NewEvent(SentenceFinal, prefix);
      var tail := NewEvent(Partial, partialText);
      return [sentence, tail];
    }

    method AnnounceAll(sentences: seq<string>) returns (events: seq<Event>)
      modifies this`sequence
      ensures Outcome(View(), events, false) == Announce(old(View()), sentences)
    {
      ghost var first := sequence + 1;
      events := [];
      for i := 0 to |sentences|
        invariant |events| == i && sequence == first - 1 + i
        invariant forall j | 0 <= j < i :: events[j] == Event(SentenceFinal, sentences[j], first + j)
      {
        var event := NewEvent(SentenceFinal, sentences[i]);
        events := events + [event];
      }
      var last := NewEvent(Partial, partialText);
      events := events + [last];
    }

    method CommitAllCompleteSentences() returns (events: seq<Event>)
      modifies this
      ensures Outcome(View(), events, false) == CommitSentences(cfg, old(View()))
    {
      var committed, tail := SplitCommittedSentences(cfg.rules, partialText);
      if committed == [] {
        return [];
      }
      var prefix := partialText[..|partialText| - |tail|];
      var exact := CutExactSentences(cfg.rules, prefix, |committed|);
      if exact.None? {
        return [];
      }
      confirmedText := confirmedText + prefix;
      partialText := tail;
      stable := IDLE;
      events := AnnounceAll(exact.value);
    }

    method CommitNow(report: bool) returns (events: seq<Event>)
      modifies this
      ensures Outcome(View(), events, false) == CommitOrReport(cfg, old(View()), report)
    {
      events := [];
      if Immediate(cfg) {
        events := CommitAllCompleteSentences();
        if events != [] {
          return;
        }
      }
      if report {
        var event := NewEvent(Partial, partialText);
        events := [event];
      }
    }

    method ModelUpdate(text: string, samples: int) returns (events: seq<Event>, conflict: bool)
      requires cfg.sampleRate > 0
      modifies this
      ensures Outcome(View(), events, conflict) == ApplyModelUpdate(cfg, old(View()), text, samples)
    {
      processedSamples := processedSamples + samples;
      var previous := partialText;
      if !(confirmedText <= text) {
        return [], true;
      }
      partialText := text[|confirmedText|..];
      var prefix := ObserveStable(processedSamples as real / cfg.sampleRate as real);
      if prefix.Some? {
        events := ConfirmPrefix(prefix.value);
      } else {
        events := CommitNow(partialText != previous);
      }
      conflict := false;
    }

    method SegmentSnapshot(id: int, text: string, samples: int) returns (events: seq<Event>, conflict: bool)
      modifies this
      ensures Outcome(View(), events, conflict) == ApplySegmentSnapshot(cfg, old(View()), id, text, samples)
    {
      if !cfg.segmentLocal {
        return [], true;
      }
      if activeSegment.None? {
        activeSegment := Some(id);
      } else if id != activeSegment.value {
        if partialText != "" {
          return [], true;
        }
        activeSegment := Some(id);
      }
      processedSamples := processedSamples + samples;
      var previous := partialText;
      partialText := text;
      if partialText != previous {
        var event := NewEvent(Partial, partialText);
        return [event], false;
      }
      return [], false;
    }

    method ClosePending() returns (events: seq<Event>)
      modifies this
      ensures Outcome(View(), events, false) == CommitPending(cfg, old(View()))
    {
      var sentence := partialText;
      partialText, stable, activeSegment := "", IDLE, None;
      if sentence == "" {
        return [];
      }
      if Strip(cfg.rules, sentence) == "" {
        var event := NewEvent(Partial, "");
        return [event];
      }
      confirmedText := confirmedText + sentence;
      var final := NewEvent(SentenceFinal, sentence);
      var tail := NewEvent(Partial, "");
      return [final, tail];
    }

    method IndependentSegment(text: string) returns (events: seq<Event>)
      modifies this
      ensures Outcome(View(), events, false) == AppendIndependentSegment(cfg, old(View()), text)
    {
      if text == "" {
        return [];
      }
      partialText := partialText + text;
      events := CommitNow(true);
    }

    method FinishTranscript(text: string) returns (events: seq<Event>, conflict: bool)
      requires cfg.sampleRate > 0
      modifies this
      ensures Outcome(View(), events, conflict) == Finish(cfg, old(View()), text)
    {
      events, conflict := ModelUpdate(text, 0);
      if !conflict {
        var final := NewEvent(Final, partialText);
        events := events + [final];
      }
    }
  }
}
