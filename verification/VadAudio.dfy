/** Which samples the detector passes on: every piece of audio it emits, as a range of the
    client's stream. */
module VadAudio {
  import opened Pcm
  import opened Vad
  import opened VadStream
  import opened VadHysteresis

  /** Where in the stream the audio passed on so far ends: behind the last voiced frame that
      was passed on, or behind the hangover of the last endpoint. */
  function Mark(c: Config, b: seq<Beat>): int {
    if b == [] then 0
    else
      var before, d := Mark(c, b[..|b| - 1]), b[|b| - 1].d;
      if d.endpoint then before + |d.audio|
      else if d.audio != [] then |b| * c.frame
      else before
  }

  /** The shortest run of speech that confirms an utterance ends with frame `i`. */
  ghost predicate Confirming(c: Config, b: seq<Beat>, i: int, k: int) {
    SpeechRun(c, b, i + 1 - k, k) && (k - 1) * c.frame < c.minSpeech <= k * c.frame && NoEndpoint(b, i + 1 - k, i + 1)
  }

  /** The stretch of the stream from `from` up to `to`. */
  ghost predicate Is(audio: Audio, stream: Audio, from: int, to: int) {
    0 <= from <= to <= |stream| && audio == stream[from..to]
  }

  /** What frame `i` passes on. An endpoint: the silence since the last voiced frame, as far
      as the hangover goes. A frame of an open utterance: everything since the audio passed
      on before. The frame that opens an utterance: the run that confirms it, and before it as
      much of the pre-roll as has not been passed on already. */
  ghost predicate Passes(c: Config, stream: Audio, b: seq<Beat>, i: int)
    requires 0 <= i < |b|
  {
    var d, mark, end := b[i].d, Mark(c, b[..i]), (i + 1) * c.frame;
    if d.endpoint then
      Is(d.audio, stream, mark, mark + Min(c.hangover, end - mark))
    else if d.audio != [] && Open(c, b, i, i) then
      Is(d.audio, stream, mark, end)
    else
      d.audio != [] ==>
        exists k :: Confirming(c, b, i, k) && Is(d.audio, stream, Max(mark, end - k * c.frame - c.preRoll), end)
  }

  // ----- the buffers --------------------------------------------------------------------

  /** What the detector holds back of the frames it has judged, oldest sample first. */
  function Middle(s: State): Audio {
    s.preRoll + s.candidate + s.trailing
  }

  /** How much that is, by what may still be passed on. */
  ghost predicate Lengths(c: Config, s: State, mark: int, pos: int) {
    && 0 <= mark <= pos
    && (s.phase == WaitingForSpeech || s.phase == Finalizing ==> |Middle(s)| == Min(c.preRoll, pos - mark))
    && (s.phase == SpeechCandidate ==>
          mark <= pos - s.candidateSpeech && |Middle(s)| == Min(c.preRoll + s.candidateSpeech, pos - mark))
    && (s.phase == InSpeech ==> mark == pos && Middle(s) == [])
    && (s.phase == TrailingSilence ==> |Middle(s)| == pos - mark)
  }

  /** It is the end of the stream judged so far, and the input is the rest of the stream. */
  ghost predicate Buffers(c: Config, s: State, mark: int, pos: int, stream: Audio) {
    && Inv(c, s) && Lengths(c, s, mark, pos) && pos <= |stream|
    && Middle(s) == stream[pos - |Middle(s)|..pos] && s.input == stream[pos..]
  }

  ghost predicate Standing(c: Config, s: State, b: seq<Beat>, stream: Audio) {
    Buffers(c, s, Mark(c, b), |b| * c.frame, stream)
  }

  // ----- one frame ----------------------------------------------------------------------

  /** Where the mark is after a decision on the frame that ends at `end`. */
  function Moved(mark: int, d: Decision, end: int): int {
    if d.endpoint then mark + |d.audio| else if d.audio != [] then end else mark
  }

  /** How much a frame passes on. */
  ghost predicate Measures(c: Config, s: State, d: Decision, mark: int, end: int) {
    if s.phase == WaitingForSpeech then
      !d.endpoint && (d.audio != [] ==> c.frame >= c.minSpeech && |d.audio| == Min(c.preRoll + c.frame, end - mark))
    else if s.phase == SpeechCandidate then
      !d.endpoint && (d.audio != [] ==>
        s.candidateSpeech + c.frame >= c.minSpeech && |d.audio| == Min(c.preRoll + s.candidateSpeech + c.frame, end - mark))
    else if d.endpoint then |d.audio| == Min(c.hangover, end - mark)
    else d.audio != [] ==> |d.audio| == end - mark
  }

  /** Both, for a frame that takes the detector from `s` to the outcome `r`. */
  ghost predicate Measured(c: Config, s: State, r: (State, Decision), mark: int, end: int) {
    Lengths(c, r.0, Moved(mark, r.1, end), end) && Measures(c, s, r.1, mark, end)
  }

  lemma FrameLengths(c: Config, s: State, frame: Audio, p: real, mark: int, pos: int)
    requires Inv(c, s) && s.phase != Finalizing && Lengths(c, s, mark, pos) && |frame| == c.frame
    ensures Measured(c, s, ProcessFrame(c, s, frame, p), mark, pos + c.frame)
  {
    if s.phase == WaitingForSpeech {
      WaitingLengths(c, s, frame, p, mark, pos);
    } else if s.phase == SpeechCandidate {
      CandidateLengths(c, s, frame, p, mark, pos);
    } else if p >= c.offset {
      VoicedLengths(c, s, frame, p, mark, pos);
    } else {
      SilentLengths(c, s, frame, p, mark, pos);
    }
  }

  lemma SilentLengths(c: Config, s: State, frame: Audio, p: real, mark: int, pos: int)
    requires Inv(c, s) && (s.phase == InSpeech || s.phase == TrailingSilence) && p < c.offset
    requires Lengths(c, s, mark, pos) && |frame| == c.frame
    ensures Measured(c, s, ProcessFrame(c, s, frame, p), mark, pos + c.frame)
  {
    if s.phase == InSpeech {
      CloseLengths(c, s, s.(phase := TrailingSilence, trailing := frame), [(InSpeech, TrailingSilence)], mark, pos + c.frame);
    } else {
      CloseLengths(c, s, s.(trailing := s.trailing + frame), [], mark, pos + c.frame);
    }
  }

  lemma WaitingLengths(c: Config, s: State, frame: Audio, p: real, mark: int, pos: int)
    requires Inv(c, s) && s.phase == WaitingForSpeech && Lengths(c, s, mark, pos) && |frame| == c.frame
    ensures Measured(c, s, ProcessFrame(c, s, frame, p), mark, pos + c.frame)
  {
  }

  lemma CandidateLengths(c: Config, s: State, frame: Audio, p: real, mark: int, pos: int)
    requires Inv(c, s) && s.phase == SpeechCandidate && Lengths(c, s, mark, pos) && |frame| == c.frame
    ensures Measured(c, s, ProcessFrame(c, s, frame, p), mark, pos + c.frame)
  {
  }

  lemma VoicedLengths(c: Config, s: State, frame: Audio, p: real, mark: int, pos: int)
    requires Inv(c, s) && (s.phase == InSpeech || s.phase == TrailingSilence) && p >= c.offset
    requires Lengths(c, s, mark, pos) && |frame| == c.frame
    ensures Measured(c, s, ProcessFrame(c, s, frame, p), mark, pos + c.frame)
  {
  }

  lemma CloseLengths(c: Config, s: State, u: State, transitions: seq<Transition>, mark: int, end: int)
    requires s.phase == InSpeech || s.phase == TrailingSilence
    requires u.phase == TrailingSilence && u.preRoll == [] && u.candidate == [] && 0 <= mark <= end && |u.trailing| == end - mark
    ensures Measured(c, s, CloseIfSilent(c, u, transitions), mark, end)
  {
  }

  /** A step, in samples: what is passed on is the beginning of what was held. */
  lemma StepBuffers(c: Config, s: State, mark: int, pos: int, stream: Audio)
    requires CanStep(c, s) && Buffers(c, s, mark, pos, stream)
    ensures Steps(c, s, Step(c, s).1, Step(c, s).0, mark, pos, stream)
  {
    var frame := StepMeasured(c, s, mark, pos);
    Placed(c, s, Step(c, s), frame, mark, pos, stream);
  }

  lemma Placed(c: Config, s: State, r: (State, Decision), frame: Audio, mark: int, pos: int, stream: Audio)
    requires 0 <= pos && |Middle(s)| <= pos && pos + c.frame <= |stream| && s.input == stream[pos..]
    requires Middle(s) == stream[pos - |Middle(s)|..pos]
    requires frame == s.input[..c.frame] && r.0.input == s.input[c.frame..]
    requires Measured(c, s, r, mark, pos + c.frame) && Cuts(c, Middle(s) + frame, r)
    ensures Steps(c, s, r.1, r.0, mark, pos, stream)
  {
    InputSlices(stream, pos, c.frame);
    CutsSlices(c, Middle(s), frame, r, pos, stream);
    Assemble(c, s, r, mark, pos, stream);
  }

  lemma CutsSlices(c: Config, middle: Audio, frame: Audio, r: (State, Decision), pos: int, stream: Audio)
    requires Cuts(c, middle + frame, r) && |middle| <= pos && pos + |frame| <= |stream|
    requires middle == stream[pos - |middle|..pos] && frame == stream[pos..pos + |frame|]
    ensures r.1.audio == stream[pos - |middle|..pos - |middle| + |r.1.audio|] && |r.1.audio| <= |middle| + |frame|
    ensures |Middle(r.0)| <= pos + |frame| && Middle(r.0) == stream[pos + |frame| - |Middle(r.0)|..pos + |frame|]
  {
    OutcomeSlices(stream, middle, frame, pos, r.1.audio, r.1.discarded, Middle(r.0));
  }

  lemma Assemble(c: Config, s: State, r: (State, Decision), mark: int, pos: int, stream: Audio)
    requires Inv(c, r.0) && Measured(c, s, r, mark, pos + c.frame)
    requires |Middle(s)| <= pos && pos + c.frame <= |stream| && |r.1.audio| <= |Middle(s)| + c.frame
    requires r.0.input == stream[pos + c.frame..]
    requires r.1.audio == stream[pos - |Middle(s)|..pos - |Middle(s)| + |r.1.audio|]
    requires |Middle(r.0)| <= pos + c.frame && Middle(r.0) == stream[pos + c.frame - |Middle(r.0)|..pos + c.frame]
    ensures Steps(c, s, r.1, r.0, mark, pos, stream)
  {
  }

  lemma StepMeasured(c: Config, s: State, mark: int, pos: int) returns (frame: Audio)
    requires CanStep(c, s) && Inv(c, s) && Lengths(c, s, mark, pos)
    ensures frame == s.input[..c.frame] && Step(c, s).0.input == s.input[c.frame..]
    ensures Measured(c, s, Step(c, s), mark, pos + c.frame)
    ensures Cuts(c, Middle(s) + frame, Step(c, s))
  {
    frame := s.input[..c.frame];
    var heard := s.heard + [frame];
    var u := s.(input := s.input[c.frame..], heard := heard);
    StepKeepsInput(c, s);
    FrameLengths(c, u, frame, c.probability(heard), mark, pos);
    FrameSplits(c, u, frame, c.probability(heard));
  }

  /** The beginning is passed on and the end held back. */
  ghost predicate Cuts(c: Config, before: Audio, r: (State, Decision)) {
    && Inv(c, r.0) && |r.1.audio| + r.1.discarded <= |before|
    && r.1.audio == before[..|r.1.audio|] && Middle(r.0) == before[|r.1.audio| + r.1.discarded..]
  }

  lemma InputSlices(stream: Audio, pos: int, n: nat)
    requires 0 <= pos && pos + n <= |stream|
    ensures stream[pos..][..n] == stream[pos..pos + n] && |stream[pos..pos + n]| == n
    ensures stream[pos..][n..] == stream[pos + n..]
  {
  }

  lemma OutcomeSlices(stream: Audio, middle: Audio, frame: Audio, pos: int, audio: Audio, discarded: nat, held: Audio)
    requires |middle| <= pos && pos + |frame| <= |stream| && |audio| + discarded <= |middle + frame|
    requires middle == stream[pos - |middle|..pos] && frame == stream[pos..pos + |frame|]
    requires audio == (middle + frame)[..|audio|] && held == (middle + frame)[|audio| + discarded..]
    ensures audio == stream[pos - |middle|..pos - |middle| + |audio|]
    ensures |held| <= pos + |frame| && held == stream[pos + |frame| - |held|..pos + |frame|]
  {
    var lo, hi := pos - |middle|, pos + |frame|;
    assert middle + frame == stream[lo..hi];
    CutSlice(stream, lo, hi, |audio|);
    CutSlice(stream, lo, hi, |audio| + discarded);
  }

  lemma CutSlice(stream: Audio, lo: int, hi: int, i: nat)
    requires 0 <= lo && lo + i <= hi <= |stream|
    ensures stream[lo..hi][..i] == stream[lo..lo + i] && stream[lo..hi][i..] == stream[lo + i..hi]
  {
  }

  lemma MarkSnoc(c: Config, b: seq<Beat>, x: Beat)
    ensures (b + [x])[..|b|] == b
    ensures Mark(c, b + [x]) == Moved(Mark(c, b), x.d, (|b| + 1) * c.frame)
  {
    assert (b + [x])[..|b|] == b;
  }

  lemma NextEnd(c: Config, n: int)
    ensures (n + 1) * c.frame == n * c.frame + c.frame
  {
  }

  /** The frame that opens an utterance ends a confirming run. */
  lemma OpensWithRun(c: Config, s: State, b: seq<Beat>)
    requires Continues(c, s, b) && (s.phase == WaitingForSpeech || s.phase == SpeechCandidate)
    requires BeatOf(c, s).d.audio != []
    ensures !Open(c, b + [BeatOf(c, s)], |b|, |b|)
    ensures exists k :: Confirming(c, b + [BeatOf(c, s)], |b|, k)
                        && k * c.frame == Speech(s) + c.frame
  {
    var x := BeatOf(c, s);
    var b' := b + [x];
    assert b'[|b|] == x && forall j | 0 <= j < |b| :: b'[j] == b[j];
    StepKeepsInput(c, s);
    if s.phase == WaitingForSpeech {
      UnopenedIsNotOpen(c, b, 0, x, |b|);
      assert (1 - 1) * c.frame == 0 && 1 * c.frame == c.frame;
      assert Confirming(c, b', |b|, 1);
    } else {
      var k :| CandidateRun(c, s, b, k);
      UnopenedIsNotOpen(c, b, k, x, |b|);
      NextEnd(c, k);
      assert (k + 1 - 1) * c.frame == k * c.frame;
      assert Confirming(c, b', |b|, k + 1);
    }
  }

  /** A frame that may open an utterance, which it does only with a confirming run. */
  lemma OpeningPasses(c: Config, s: State, b: seq<Beat>, x: Beat, t: State, pos: int, stream: Audio)
    requires s.phase == WaitingForSpeech || s.phase == SpeechCandidate
    requires pos == |b| * c.frame && Lengths(c, s, Mark(c, b), pos)
    requires Steps(c, s, x.d, t, Mark(c, b), pos, stream)
    requires x.d.audio != [] ==>
               !Open(c, b + [x], |b|, |b|)
               && exists k :: Confirming(c, b + [x], |b|, k) && k * c.frame == Speech(s) + c.frame
    ensures Passes(c, stream, b + [x], |b|)
  {
    if x.d.audio != [] {
      OpeningRange(c, s, x.d, Mark(c, b), pos, stream);
      OpeningIs(c, b, x, stream, pos, Speech(s) + c.frame);
    } else {
      NothingIs(c, b, x, stream);
    }
  }

  lemma OpeningRange(c: Config, s: State, d: Decision, mark: int, pos: int, stream: Audio)
    requires s.phase == WaitingForSpeech || s.phase == SpeechCandidate
    requires Lengths(c, s, mark, pos) && Measures(c, s, d, mark, pos + c.frame) && d.audio != []
    requires Is(d.audio, stream, pos - |Middle(s)|, pos - |Middle(s)| + |d.audio|)
    ensures Is(d.audio, stream, Max(mark, pos + c.frame - (Speech(s) + c.frame) - c.preRoll), pos + c.frame)
  {
  }

  function Speech(s: State): nat {
    if s.phase == WaitingForSpeech then 0 else s.candidateSpeech
  }

  /** What a step has been shown to do. */
  ghost predicate Steps(c: Config, s: State, d: Decision, t: State, mark: int, pos: int, stream: Audio) {
    && Buffers(c, t, Moved(mark, d, pos + c.frame), pos + c.frame, stream)
    && Measures(c, s, d, mark, pos + c.frame)
    && Is(d.audio, stream, pos - |Middle(s)|, pos - |Middle(s)| + |d.audio|)
  }

  lemma StandsNext(c: Config, t: State, b: seq<Beat>, x: Beat, pos: int, stream: Audio)
    requires pos == |b| * c.frame && Buffers(c, t, Moved(Mark(c, b), x.d, pos + c.frame), pos + c.frame, stream)
    ensures Standing(c, t, b + [x], stream)
  {
    MarkSnoc(c, b, x);
    NextEnd(c, |b|);
  }

  lemma OpeningIs(c: Config, b: seq<Beat>, x: Beat, stream: Audio, pos: int, run: int)
    requires pos == |b| * c.frame && !x.d.endpoint && !Open(c, b + [x], |b|, |b|)
    requires exists k :: Confirming(c, b + [x], |b|, k) && k * c.frame == run
    requires Is(x.d.audio, stream, Max(Mark(c, b), pos + c.frame - run - c.preRoll), pos + c.frame)
    ensures Passes(c, stream, b + [x], |b|)
  {
    assert (b + [x])[..|b|] == b;
    NextEnd(c, |b|);
    var k :| Confirming(c, b + [x], |b|, k) && k * c.frame == run;
  }

  lemma NothingIs(c: Config, b: seq<Beat>, x: Beat, stream: Audio)
    requires x.d.audio == [] && !x.d.endpoint
    ensures Passes(c, stream, b + [x], |b|)
  {
  }

  lemma StaysOpen(c: Config, s: State, b: seq<Beat>, x: Beat)
    requires Linked(c, s, b) && (s.phase == InSpeech || s.phase == TrailingSilence)
    ensures Open(c, b + [x], |b|, |b|)
  {
    if s.phase == TrailingSilence {
      var q :| TrailingRun(c, s, b, q);
      OpenLoosens(c, b, |b| - q, |b|, |b|, |b|);
    }
    OpenGrows(c, b, x, |b|, |b|);
  }

  lemma SpeechPasses(c: Config, s: State, b: seq<Beat>, x: Beat, t: State, pos: int, stream: Audio)
    requires s.phase == InSpeech || s.phase == TrailingSilence
    requires pos == |b| * c.frame && Lengths(c, s, Mark(c, b), pos)
    requires Steps(c, s, x.d, t, Mark(c, b), pos, stream) && Open(c, b + [x], |b|, |b|)
    ensures Passes(c, stream, b + [x], |b|)
  {
    SpokenRange(c, s, x.d, Mark(c, b), pos, stream);
    SpokenIs(c, b, x, stream, pos);
  }

  lemma SpokenRange(c: Config, s: State, d: Decision, mark: int, pos: int, stream: Audio)
    requires s.phase == InSpeech || s.phase == TrailingSilence
    requires Lengths(c, s, mark, pos) && Measures(c, s, d, mark, pos + c.frame)
    requires Is(d.audio, stream, pos - |Middle(s)|, pos - |Middle(s)| + |d.audio|)
    ensures if d.endpoint then Is(d.audio, stream, mark, mark + Min(c.hangover, pos + c.frame - mark))
            else d.audio != [] ==> Is(d.audio, stream, mark, pos + c.frame)
  {
  }

  lemma BeatPasses(c: Config, s: State, b: seq<Beat>, stream: Audio)
    requires Continues(c, s, b) && Standing(c, s, b, stream)
    ensures Standing(c, Step(c, s).0, b + [BeatOf(c, s)], stream)
    ensures Passes(c, stream, b + [BeatOf(c, s)], |b|)
  {
    var x, pos := BeatOf(c, s), |b| * c.frame;
    StepBuffers(c, s, Mark(c, b), pos, stream);
    StandsNext(c, Step(c, s).0, b, x, pos, stream);
    if s.phase == WaitingForSpeech || s.phase == SpeechCandidate {
      if x.d.audio != [] {
        OpensWithRun(c, s, b);
      }
      OpeningPasses(c, s, b, x, Step(c, s).0, pos, stream);
    } else {
      StaysOpen(c, s, b, x);
      SpeechPasses(c, s, b, x, Step(c, s).0, pos, stream);
    }
  }

  lemma SpokenIs(c: Config, b: seq<Beat>, x: Beat, stream: Audio, pos: int)
    requires pos == |b| * c.frame && Open(c, b + [x], |b|, |b|)
    requires if x.d.endpoint then Is(x.d.audio, stream, Mark(c, b), Mark(c, b) + Min(c.hangover, pos + c.frame - Mark(c, b)))
             else x.d.audio != [] ==> Is(x.d.audio, stream, Mark(c, b), pos + c.frame)
    ensures Passes(c, stream, b + [x], |b|)
  {
    assert (b + [x])[..|b|] == b;
    NextEnd(c, |b|);
  }

  // ----- whole streams ------------------------------------------------------------------

  ghost predicate EveryPasses(c: Config, stream: Audio, b: seq<Beat>) {
    forall i | 0 <= i < |b| :: Passes(c, stream, b, i)
  }

  /** What a frame passes on does not depend on later frames. */
  lemma PassesGrows(c: Config, stream: Audio, b: seq<Beat>, x: Beat, i: int)
    requires 0 <= i < |b| && Passes(c, stream, b, i)
    ensures Passes(c, stream, b + [x], i)
  {
    var b' := b + [x];
    assert b'[..i] == b[..i];
    OpenGrows(c, b, x, i, i);
    assert forall j | 0 <= j < |b| :: b'[j] == b[j];
    if k :| Confirming(c, b, i, k) && Is(b[i].d.audio, stream, Max(Mark(c, b[..i]), (i + 1) * c.frame - k * c.frame - c.preRoll), (i + 1) * c.frame) {
      assert Confirming(c, b', i, k);
    }
  }

  lemma PassesSnoc(c: Config, stream: Audio, past: seq<Beat>, x: Beat)
    requires EveryPasses(c, stream, past) && Passes(c, stream, past + [x], |past|)
    ensures EveryPasses(c, stream, past + [x])
  {
    forall i | 0 <= i < |past| + 1
      ensures Passes(c, stream, past + [x], i)
    {
      if i < |past| {
        PassesGrows(c, stream, past, x, i);
      }
    }
  }

  /** All that has been shown of a run so far. */
  ghost predicate Sound(c: Config, s: State, b: seq<Beat>, stream: Audio) {
    && Inv(c, s) && Linked(c, s, b) && EveryCalled(c, b)
    && Standing(c, s, b, stream) && EveryPasses(c, stream, b)
  }

  /** One frame more, and the hand-shake after it. */
  lemma NextPasses(c: Config, s: State, past: seq<Beat>, stream: Audio) returns (t: State, x: Beat)
    requires CanStep(c, s) && c.onset >= c.offset && Sound(c, s, past, stream)
    ensures Sound(c, t, past + [x], stream) && t.phase != Finalizing
    ensures |t.input| < |s.input| && Beats(c, s) == [x] + Beats(c, t) && Drive(c, s).state == Drive(c, t).state
  {
    t, x := NextBeat(c, s, past);
    BeatPasses(c, s, past, stream);
    PassesSnoc(c, stream, past, x);
    DriveStep(c, s);
    if t.phase == Finalizing {
      RearmedIsSound(c, t, past + [x], stream);
      t := Rearm(t);
    }
  }

  lemma RearmedIsSound(c: Config, s: State, b: seq<Beat>, stream: Audio)
    requires s.phase == Finalizing && Sound(c, s, b, stream)
    ensures Sound(c, Rearm(s), b, stream)
  {
    assert Middle(Rearm(s)) == Middle(s);
  }

  lemma {:induction false} AllPass(c: Config, s: State, past: seq<Beat>, stream: Audio)
    requires Sound(c, s, past, stream) && c.onset >= c.offset && s.phase != Finalizing
    ensures var last := Drive(c, s).state;
            Sound(c, last, past + Beats(c, s), stream) && last.phase != Finalizing && |last.input| < c.frame
    decreases |s.input|
  {
    if |s.input| < c.frame {
      assert past + [] == past;
    } else {
      var t, x := NextPasses(c, s, past, stream);
      AllPass(c, t, past + [x], stream);
      Append(past, x, Beats(c, t));
    }
  }

  lemma Begins(c: Config, stream: Audio)
    requires c.onset >= c.offset
    ensures var b, last := Beats(c, Extend(INITIAL, stream)), Drive(c, Extend(INITIAL, stream)).state;
            Sound(c, last, b, stream) && last.phase != Finalizing && |last.input| < c.frame
  {
    var s := Extend(INITIAL, stream);
    assert s.input == stream[0..] && Mark(c, []) == 0;
    assert Unopened(c, [], 0);
    AllPass(c, s, [], stream);
    assert [] + Beats(c, s) == Beats(c, s);
  }

  /** Over any stream, every piece of audio the driven detector emits is exactly the stretch of
      the stream that `Passes` names: no utterance loses its beginning or its hangover, and no
      sample is passed on twice. */
  lemma AudioExact(c: Config, stream: Audio)
    requires c.onset >= c.offset
    ensures EveryPasses(c, stream, Beats(c, Extend(INITIAL, stream)))
  {
    Begins(c, stream);
  }

  /** What finishing adds: the rest of the stream if the last frame of an open utterance was
      voiced, the hangover of its silence if it was not, and otherwise nothing. */
  lemma FinishExact(c: Config, stream: Audio)
    requires c.onset >= c.offset
    ensures var b := Beats(c, Extend(INITIAL, stream));
            var mark, pos := Mark(c, b), |b| * c.frame;
            var (last, d) := FinishInput(c, Drive(c, Extend(INITIAL, stream)).state);
            && 0 <= mark <= pos <= |stream| && !d.endpoint && Held(last) == []
            && if !Open(c, b, |b|, |b|) then d.audio == []
               else if mark == pos then d.audio == stream[pos..]
               else Is(d.audio, stream, mark, mark + Min(c.hangover, pos - mark))
  {
    Begins(c, stream);
    var b, s := Beats(c, Extend(INITIAL, stream)), Drive(c, Extend(INITIAL, stream)).state;
    var mark, pos := Mark(c, b), |b| * c.frame;
    FlushIs(c, s, mark, pos, stream);
    NotOpenIsWaiting(c, s, b);
  }

  lemma NotOpenIsWaiting(c: Config, s: State, b: seq<Beat>)
    requires Linked(c, s, b) && s.phase != Finalizing
    ensures Open(c, b, |b|, |b|) <==> s.phase == InSpeech || s.phase == TrailingSilence
    ensures s.phase == TrailingSilence ==> s.trailing != []
  {
    var x := Beat(0.0, NOTHING);
    OpenGrows(c, b, x, |b|, |b|);
    if s.phase == WaitingForSpeech {
      UnopenedIsNotOpen(c, b, 0, x, |b|);
    } else if s.phase == SpeechCandidate {
      var k :| CandidateRun(c, s, b, k);
      UnopenedIsNotOpen(c, b, k, x, |b|);
    } else {
      StaysOpen(c, s, b, x);
      if s.phase == TrailingSilence {
        var q :| TrailingRun(c, s, b, q);
        TimesMonotone(1, q, c.frame);
      }
    }
  }

  lemma FlushIs(c: Config, s: State, mark: int, pos: int, stream: Audio)
    requires Buffers(c, s, mark, pos, stream) && s.phase != Finalizing && |s.input| < c.frame
    ensures var (last, d) := FinishInput(c, s);
            && !d.endpoint && Held(last) == []
            && (s.phase == InSpeech ==> mark == pos && d.audio == stream[pos..])
            && (s.phase == TrailingSilence ==>
                  |s.trailing| == pos - mark && Is(d.audio, stream, mark, mark + Min(c.hangover, pos - mark)))
            && (s.phase != InSpeech && s.phase != TrailingSilence ==> d.audio == [])
  {
    assert Drain(c, s) == (s, NOTHING);
    if s.phase == TrailingSilence {
      assert Middle(s) == s.trailing;
      var keep := Min(c.hangover, pos - mark);
      assert [] + s.trailing[..keep] == s.trailing[..keep];
    } else if s.phase == InSpeech {
      assert [] + s.input == s.input;
    }
  }

  /** Finishing with an endpoint still to be confirmed drops everything that is held. */
  lemma FinishWhilePending(c: Config, s: State)
    requires Inv(c, s) && s.phase == Finalizing
    ensures var (last, d) := FinishInput(c, s);
            d.audio == [] && d.discarded == |Held(s)| && Held(last) == []
  {
  }

  // ----- what the backend is asked ------------------------------------------------------

  /** The frames of a stream. */
  function Frames(c: Config, input: Audio): seq<Audio> {
    if |input| < c.frame then [] else [input[..c.frame]] + Frames(c, input[c.frame..])
  }

  /** The frame after the last endpoint. */
  function Restart(b: seq<Beat>): (n: nat)
    ensures n <= |b|
  {
    if b == [] then 0 else if b[|b| - 1].d.endpoint then |b| else Restart(b[..|b| - 1])
  }

  /** Frame `i` was judged by itself and the frames since the last endpoint. */
  ghost predicate Judged(c: Config, frames: seq<Audio>, b: seq<Beat>, i: nat) {
    i < |b| && i < |frames| && b[i].p == c.probability(frames[Restart(b[..i])..i + 1])
  }

  lemma {:induction false} AllJudged(c: Config, s: State, past: seq<Beat>, frames: seq<Audio>)
    requires s.phase != Finalizing && |past| <= |frames|
    requires Frames(c, s.input) == frames[|past|..] && s.heard == frames[Restart(past)..|past|]
    ensures forall i: nat | |past| <= i < |frames| :: Judged(c, frames, past + Beats(c, s), i)
    decreases |s.input|
  {
    if |s.input| >= c.frame {
      var x := BeatOf(c, s);
      var t := Step(c, s).0;
      var resumed := if t.phase == Finalizing then Rearm(t) else t;
      StepKeepsInput(c, s);
      HeardNext(c, s, past, frames);
      AllJudged(c, resumed, past + [x], frames);
      Append(past, x, Beats(c, resumed));
      var b := past + Beats(c, s);
      assert b[..|past|] == past && b[|past|] == x;
      assert Judged(c, frames, b, |past|);
    }
  }

  lemma HeardNext(c: Config, s: State, past: seq<Beat>, frames: seq<Audio>)
    requires CanStep(c, s) && |past| <= |frames|
    requires Frames(c, s.input) == frames[|past|..] && s.heard == frames[Restart(past)..|past|]
    ensures var t, b := Step(c, s).0, past + [BeatOf(c, s)];
            && |b| <= |frames| && Frames(c, t.input) == frames[|b|..]
            && BeatOf(c, s).p == c.probability(frames[Restart(past)..|b|])
            && (if t.phase == Finalizing then Restart(b) == |b|
                else Restart(b) == Restart(past) && t.heard == frames[Restart(past)..|b|])
  {
    StepKeepsInput(c, s);
    StepHears(c, s);
    var frame, rest := s.input[..c.frame], s.input[c.frame..];
    assert frames[|past|..] == [frame] + Frames(c, rest);
    assert frames[|past|] == frame && frames[|past|..][1..] == frames[|past| + 1..];
    assert s.heard + [frame] == frames[Restart(past)..|past| + 1];
    assert (past + [BeatOf(c, s)])[..|past|] == past;
  }

  lemma StepHears(c: Config, s: State)
    requires CanStep(c, s)
    ensures Step(c, s).0.heard == s.heard + [s.input[..c.frame]]
  {
  }

  /** Over any stream, each frame's probability is the backend's for the frames since the last
      endpoint, which it is reset at, up to this one. */
  lemma BackendHearsExactly(c: Config, stream: Audio)
    ensures forall i: nat | i < |Frames(c, stream)| ::
              Judged(c, Frames(c, stream), Beats(c, Extend(INITIAL, stream)), i)
  {
    var s, frames := Extend(INITIAL, stream), Frames(c, stream);
    assert s.input == stream && frames[0..] == frames && frames[0..0] == [];
    AllJudged(c, s, [], frames);
    assert [] + Beats(c, s) == Beats(c, s);
  }

  // ----- reported transitions -----------------------------------------------------------

  const EDGES: set<Transition> := {
    (WaitingForSpeech, SpeechCandidate), (SpeechCandidate, InSpeech), (SpeechCandidate, WaitingForSpeech),
    (InSpeech, TrailingSilence), (TrailingSilence, InSpeech), (TrailingSilence, Finalizing), (Finalizing, WaitingForSpeech)
  }

  /** A path through the phases. */
  predicate Path(from: Phase, path: seq<Transition>, to: Phase) {
    if path == [] then from == to
    else path[|path| - 1] in EDGES && path[|path| - 1].1 == to && Path(from, path[..|path| - 1], path[|path| - 1].0)
  }

  lemma {:induction false} PathConcat(from: Phase, a: seq<Transition>, mid: Phase, b: seq<Transition>, to: Phase)
    requires Path(from, a, mid) && Path(mid, b, to)
    ensures Path(from, a + b, to)
    decreases |b|
  {
    if b == [] {
      assert a + b == a;
    } else {
      assert (a + b)[..|a + b| - 1] == a + b[..|b| - 1];
      PathConcat(from, a, mid, b[..|b| - 1], b[|b| - 1].0);
    }
  }

  lemma OneEdge(t: Transition)
    requires t in EDGES
    ensures Path(t.0, [t], t.1)
  {
    assert [t][..0] == [];
  }

  lemma TwoEdges(t: Transition, u: Transition)
    requires t in EDGES && u in EDGES && t.1 == u.0
    ensures Path(t.0, [t, u], u.1) && Path(t.0, [t] + [u], u.1)
  {
    OneEdge(t);
    OneEdge(u);
    PathConcat(t.0, [t], t.1, [u], u.1);
    assert [t] + [u] == [t, u];
  }

  lemma StepPath(c: Config, s: State)
    requires CanStep(c, s)
    ensures Path(s.phase, Step(c, s).1.transitions, Step(c, s).0.phase)
  {
    TwoEdges((WaitingForSpeech, SpeechCandidate), (SpeechCandidate, InSpeech));
    TwoEdges((InSpeech, TrailingSilence), (TrailingSilence, Finalizing));
    assert [] + [(TrailingSilence, Finalizing)] == [(TrailingSilence, Finalizing)];
    var transitions := Step(c, s).1.transitions;
    if |transitions| == 1 {
      OneEdge(transitions[0]);
    }
  }

  lemma {:induction false} DrainPath(c: Config, s: State)
    ensures Path(s.phase, Drain(c, s).1.transitions, Drain(c, s).0.phase)
    decreases |s.input|
  {
    if CanStep(c, s) {
      StepKeepsInput(c, s);
      StepPath(c, s);
      var (next, first) := Step(c, s);
      DrainPath(c, next);
      PathConcat(s.phase, first.transitions, next.phase, Drain(c, next).1.transitions, Drain(c, next).0.phase);
    }
  }

  lemma FinishPath(c: Config, s: State)
    ensures Path(s.phase, FinishInput(c, s).1.transitions, FinishInput(c, s).0.phase)
  {
    DrainPath(c, s);
    var (last, d) := Drain(c, s);
    if last.phase == SpeechCandidate {
      OneEdge((SpeechCandidate, WaitingForSpeech));
      PathConcat(s.phase, d.transitions, SpeechCandidate, [(SpeechCandidate, WaitingForSpeech)], WaitingForSpeech);
    }
  }

  lemma FinalizePath(c: Config, s: State)
    ensures Path(s.phase, EndpointFinalized(c, s).1.transitions, EndpointFinalized(c, s).0.phase)
  {
    if s.phase == Finalizing {
      DrainPath(c, Rearm(s));
      OneEdge((Finalizing, WaitingForSpeech));
      var (last, rest) := Drain(c, Rearm(s));
      PathConcat(Finalizing, [(Finalizing, WaitingForSpeech)], WaitingForSpeech, rest.transitions, last.phase);
    }
  }

  /** The transitions a call reports lead from the phase before it to the phase after it. */
  lemma TransitionsConnect(c: Config, s: State, command: Command)
    ensures Path(s.phase, Apply(c, s, command).1.transitions, Apply(c, s, command).0.phase)
  {
    match command
    case Add(audio) => DrainPath(c, Extend(s, audio));
    case Finalize => FinalizePath(c, s);
    case Finish => FinishPath(c, s);
  }
}
